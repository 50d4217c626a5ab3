/** How a scheduled run ends once it is started: the same canonicalization and storage as an interactive run, with the scheduled
    service's own handling of failures. This is what the run ends of Scheduled stand for. */
module ScheduledRuns {
  import opened Prelude
  import opened Failures
  import opened Proposals
  import opened LedgerModel
  import opened Ledger
  import RunLifecycle
  import O = Orchestrator
  import S = Scheduled
  import I = Interactive
  import opened Reports

  /** A terminal failure fails the run, is reported, and buries the item; a retryable one is not reported. */
  function HandleFailure(
    db: Db, st: Store, intent: O.Intent, worker: string, code: FailureCode, retryable: bool, now: int): (Db, Store, S.Decision)
  {
    var run := intent.request.runId;
    if retryable then
      var (after, d) := S.RuntimeRetryStep(db, intent.item, run, worker, code, now);
      (after, st, d)
    else
      var (reported, ok) := FailureStep(st, ReportOf(intent, FailedRun, None));
      if !ok then (S.FailIfPossible(db, run), st, S.Escaped) else
        var (after, d) := S.BuryStep(S.FailIfPossible(db, run), intent.item, run, worker, code);
        (after, reported, d)
  }

  /** The code a refused acceptance is recorded under; None when the exception is not caught. */
  function RefusalCode(f: O.Failure): Option<FailureCode> {
    if f.Uncompetitive? || f.IntentMismatch? || f.InvalidTransition? then Some(MalformedProposal)
    else if f.StaleSnapshot? then Some(QueueMutationMismatch)
    else None
  }

  function DecisionOf(ending: I.Ending): S.Decision {
    match ending
    case Persisted(_) => S.Acknowledged
    case QuarantineReported(_) => S.Terminated(MalformedProposal)
    case _ => S.Escaped
  }

  function FinishStep(db: Db, st: Store, intent: O.Intent, end: I.RuntimeEnd, worker: string, now: int): (Db, Store, S.Decision)
    requires intent.frontier.snapshot.currentBest != []
  {
    match end
    case Broke(code, retryable) => HandleFailure(db, st, intent, worker, code, retryable, now)
    case Produced(p) =>
      match O.AcceptanceFailure(db, intent, p)
      case Some(f) =>
        (match RefusalCode(f)
         case Some(code) => HandleFailure(db, st, intent, worker, code, false, now)
         case None => (db, st, S.Escaped))
      case None =>
        var (after, stored, ending) :=
          I.PersistStep(O.WithStatus(db, intent.request.runId, Normalizing, None), st, intent, p, worker);
        match ending
        case Some(e) => (after, stored, DecisionOf(e))
        case None => HandleFailure(after, stored, intent, worker, MalformedProposal, false, now)
  }

  class Service {
    const queue: S.Service
    const runs: I.Service

    constructor (queue: S.Service, runs: I.Service)
      requires queue.ledger == runs.ledger && queue.worker == runs.worker
      ensures this.queue == queue && this.runs == runs && Shares()
    {
      this.queue, this.runs := queue, runs;
    }

    /** Both parts work on one ledger as one worker. */
    predicate Shares() {
      queue.ledger == runs.ledger && queue.worker == runs.worker
    }

    method HandleRuntimeFailure(intent: O.Intent, code: FailureCode, retryable: bool, now: int) returns (d: S.Decision)
      requires Shares()
      modifies runs.ledger, runs.tables
      ensures (runs.ledger.View(), runs.tables.View(), d) ==
        HandleFailure(old(runs.ledger.View()), old(runs.tables.View()), intent, runs.worker, code, retryable, now)
    {
      if retryable {
        d := queue.RecordRuntimeRetry(intent.item, intent.request.runId, code, now);
        return;
      }
      queue.FailRunIfPossible(intent.request.runId);
      var ok := runs.tables.RecordFailure(ReportOf(intent, FailedRun, None));
      if !ok {
        return S.Escaped;
      }
      d := queue.Bury(intent.item, intent.request.runId, code);
    }

    method FinishIntent(intent: O.Intent, end: I.RuntimeEnd, now: int) returns (d: S.Decision)
      requires Shares() && intent.frontier.snapshot.currentBest != []
      modifies runs.ledger, runs.tables
      ensures (runs.ledger.View(), runs.tables.View(), d) ==
        FinishStep(old(runs.ledger.View()), old(runs.tables.View()), intent, end, runs.worker, now)
    {
      if end.Broke? {
        d := HandleRuntimeFailure(intent, end.code, end.retryable, now);
        return;
      }
      var failure := O.AcceptCompetitionProposal(runs.ledger, intent, end.p);
      if failure.Some? {
        var code := RefusalCode(failure.value);
        if code.None? {
          return S.Escaped;
        }
        d := HandleRuntimeFailure(intent, code.value, false, now);
        return;
      }
      var ending := runs.CanonicalizeAndPersist(intent, end.p);
      if ending.Some? {
        return DecisionOf(ending.value);
      }
      d := HandleRuntimeFailure(intent, MalformedProposal, false, now);
    }
  }

  // ----- what Scheduled takes as given

  /** The run end an execution amounts to; None when an exception is not caught. */
  function RunEndOf(db: Db, intent: O.Intent, end: I.RuntimeEnd): Option<S.RunEnd>
    requires intent.frontier.snapshot.currentBest != []
  {
    match end
    case Broke(code, retryable) => Some(S.RuntimeFailed(code, retryable))
    case Produced(p) =>
      match O.AcceptanceFailure(db, intent, p)
      case Some(f) =>
        (match RefusalCode(f)
         case Some(code) => Some(if code == MalformedProposal then S.Uncompetitive else S.RuntimeFailed(code, false))
         case None => None)
      case None => Some(if Graph(intent, p).Quarantined() then S.QuarantinedRun else S.Stored)
  }

  /** The rows the run's report and graph would take. */
  predicate Taken(st: Store, intent: O.Intent) {
    ReportConflicts(st, ReportOf(intent, Finished, None)) || intent.request.runId in st.graphs
  }

  /** The end says the same of the queue as S.EndStep does. */
  ghost predicate EndsLike(db: Db, intent: O.Intent, run: S.RunEnd, worker: string, now: int, after: Db, d: S.Decision) {
    var (modelled, decision) := S.EndStep(db, intent.item, intent.request.runId, worker, run, true, now);
    after.items == modelled.items && d == decision
  }

  lemma FailureEndsLike(db: Db, st: Store, intent: O.Intent, worker: string, code: FailureCode, retryable: bool, now: int)
    requires !Taken(st, intent)
    ensures var (after, _, d) := HandleFailure(db, st, intent, worker, code, retryable, now);
      EndsLike(db, intent, S.RuntimeFailed(code, retryable), worker, now, after, d)
  {
  }

  lemma UncompetitiveEndsLike(db: Db, intent: O.Intent, worker: string, now: int, after: Db, d: S.Decision)
    requires EndsLike(db, intent, S.RuntimeFailed(MalformedProposal, false), worker, now, after, d)
    ensures EndsLike(db, intent, S.Uncompetitive, worker, now, after, d)
  {
  }

  lemma NormalizedStays(db: Db, intent: O.Intent, p: Proposal)
    requires O.AcceptanceFailure(db, intent, p) == None
    ensures var d := O.WithStatus(db, intent.request.runId, Normalizing, None);
      && d.items == db.items && d.links == db.links
      && Failed in RunLifecycle.Next(d.runs[intent.request.runId].status)
      && Adjudicating in RunLifecycle.Next(d.runs[intent.request.runId].status)
  {
  }

  lemma StoredEndsLike(db: Db, st: Store, intent: O.Intent, g: GraphWrite, worker: string, now: int)
    requires !Taken(st, intent) && intent.request.runId in db.runs
    requires Adjudicating in RunLifecycle.Next(db.runs[intent.request.runId].status)
    ensures var (after, _, ending) := I.StoreStep(db, st, intent, g, worker);
      ending.Some? && EndsLike(db, intent, S.Stored, worker, now, after, DecisionOf(ending.value))
  {
  }

  lemma QuarantineEndsLike(db: Db, st: Store, intent: O.Intent, worker: string, now: int)
    requires !Taken(st, intent) && intent.request.runId in db.runs
    requires Failed in RunLifecycle.Next(db.runs[intent.request.runId].status)
    ensures var (after, _, ending) := I.QuarantineStep(db, st, intent, worker);
      ending.Some? && EndsLike(db, intent, S.QuarantinedRun, worker, now, after, DecisionOf(ending.value))
  {
  }

  lemma SameQueueEndsLike(db: Db, d0: Db, intent: O.Intent, run: S.RunEnd, worker: string, now: int, after: Db, d: S.Decision)
    requires d0.items == db.items && d0.links == db.links && (run == S.Stored || run == S.QuarantinedRun)
    requires EndsLike(d0, intent, run, worker, now, after, d)
    ensures EndsLike(db, intent, run, worker, now, after, d)
  {
  }

  lemma AcceptedEndsLike(db: Db, st: Store, intent: O.Intent, p: Proposal, worker: string, now: int)
    requires intent.frontier.snapshot.currentBest != [] && O.AcceptanceFailure(db, intent, p) == None && !Taken(st, intent)
    ensures var run := if Graph(intent, p).Quarantined() then S.QuarantinedRun else S.Stored;
      var d0 := O.WithStatus(db, intent.request.runId, Normalizing, None);
      var (after, _, ending) := I.PersistStep(d0, st, intent, p, worker);
      ending.Some? && EndsLike(db, intent, run, worker, now, after, DecisionOf(ending.value))
  {
    var d0 := O.WithStatus(db, intent.request.runId, Normalizing, None);
    NormalizedStays(db, intent, p);
    var (after, _, ending) := I.PersistStep(d0, st, intent, p, worker);
    if Graph(intent, p).Quarantined() {
      QuarantineEndsLike(d0, st, intent, worker, now);
      SameQueueEndsLike(db, d0, intent, S.QuarantinedRun, worker, now, after, DecisionOf(ending.value));
    } else {
      StoredEndsLike(d0, st, intent, GraphOf(intent.request.topic, Graph(intent, p)), worker, now);
      SameQueueEndsLike(db, d0, intent, S.Stored, worker, now, after, DecisionOf(ending.value));
    }
  }

  /** With its report and graph rows free, a scheduled run ends for the queue exactly as the run end it amounts to. */
  lemma EndsAsItsRunEnd(db: Db, st: Store, intent: O.Intent, end: I.RuntimeEnd, worker: string, now: int)
    requires intent.frontier.snapshot.currentBest != [] && !Taken(st, intent) && RunEndOf(db, intent, end).Some?
    ensures var (after, _, d) := FinishStep(db, st, intent, end, worker, now);
      EndsLike(db, intent, RunEndOf(db, intent, end).value, worker, now, after, d)
  {
    match end
    case Broke(code, retryable) => FailureEndsLike(db, st, intent, worker, code, retryable, now);
    case Produced(p) =>
      match O.AcceptanceFailure(db, intent, p)
      case Some(f) =>
        var code := RefusalCode(f).value;
        FailureEndsLike(db, st, intent, worker, code, false, now);
        var (after, _, d) := HandleFailure(db, st, intent, worker, code, false, now);
        if code == MalformedProposal { UncompetitiveEndsLike(db, intent, worker, now, after, d); }
      case None => AcceptedEndsLike(db, st, intent, p, worker, now);
  }

  /** With its report row taken, as after an earlier reported failure of the run, every end but a retryable failure escapes and
      leaves the item as it is, claimed: neither acked nor dead-lettered. */
  lemma TakenReportStrandsTheItem(db: Db, st: Store, intent: O.Intent, end: I.RuntimeEnd, worker: string, now: int)
    requires intent.frontier.snapshot.currentBest != [] && ReportConflicts(st, ReportOf(intent, Finished, None))
    requires end.Produced? || !end.retryable
    ensures var (after, stored, d) := FinishStep(db, st, intent, end, worker, now);
      d == S.Escaped && after.items == db.items && stored == st
  {
    match end
    case Broke(code, _) => TakenFailureEscapes(db, st, intent, worker, code, now);
    case Produced(p) =>
      match O.AcceptanceFailure(db, intent, p)
      case Some(f) => if RefusalCode(f).Some? { TakenFailureEscapes(db, st, intent, worker, RefusalCode(f).value, now); }
      case None => TakenPersistEscapes(db, st, intent, p, worker);
  }

  lemma TakenFailureEscapes(db: Db, st: Store, intent: O.Intent, worker: string, code: FailureCode, now: int)
    requires ReportConflicts(st, ReportOf(intent, Finished, None))
    ensures var (after, stored, d) := HandleFailure(db, st, intent, worker, code, false, now);
      d == S.Escaped && after.items == db.items && stored == st
  {
  }

  lemma TakenPersistEscapes(db: Db, st: Store, intent: O.Intent, p: Proposal, worker: string)
    requires intent.frontier.snapshot.currentBest != [] && ReportConflicts(st, ReportOf(intent, Finished, None))
    requires O.AcceptanceFailure(db, intent, p) == None
    ensures var (after, stored, ending) :=
        I.PersistStep(O.WithStatus(db, intent.request.runId, Normalizing, None), st, intent, p, worker);
      ending == Some(I.Escaped) && after.items == db.items && stored == st
  {
    NormalizedStays(db, intent, p);
  }
}
