/** The interactive service: a trigger is answered from its report, resumed, or started; an executed run ends with its graph
    and report stored and its queue item settled, or with its failure reported. */
module Interactive {
  import opened Prelude
  import opened Failures
  import opened Proposals
  import Competition
  import opened Canonicalization
  import Canonicalizer
  import opened Pipeline
  import opened LedgerModel
  import opened Ledger
  import RunLifecycle
  import O = Orchestrator
  import S = Scheduled
  import opened Reports

  /** How the runtime ends: with a proposal, or with a failure of its own. */
  datatype RuntimeEnd = Produced(p: Proposal) | Broke(code: FailureCode, retryable: bool)

  /** How an execution ends. Unacknowledged: stored and completed, but the claim was lost before the ack. Escaped: some other
      exception leaves the service. */
  datatype Ending =
    | Persisted(report: Report)
    | Unacknowledged(report: Report)
    | QuarantineReported(report: Report)
    | FailureReported(report: Report)
    | Escaped

  function Claimant(intent: O.Intent, worker: string): Owner {
    Owner(Some(intent.request.runId), Some(worker))
  }

  // ----- storing or quarantining a graph; None when a transition is refused

  function StoreStep(db: Db, st: Store, intent: O.Intent, g: GraphWrite, worker: string): (Db, Store, Option<Ending>) {
    var run := intent.request.runId;
    if run !in db.runs then (db, st, Some(Escaped))
    else if Adjudicating !in RunLifecycle.Next(db.runs[run].status) then (db, st, None)
    else
      var report := ReportOf(intent, Finished, Some(UpdateOf(g)));
      var (stored, ok) := SuccessStep(st, report, g);
      if !ok then (O.WithStatus(db, run, Persisting, None), st, Some(Escaped)) else
        var (after, reply) := CompleteStep(O.WithStatus(db, run, RunCompleted, None), intent.item, run, worker);
        (after, stored, Some(if reply == Done then Persisted(report) else Unacknowledged(report)))
  }

  function QuarantineStep(db: Db, st: Store, intent: O.Intent, worker: string): (Db, Store, Option<Ending>) {
    var run := intent.request.runId;
    if run !in db.runs then (db, st, Some(Escaped))
    else if Failed !in RunLifecycle.Next(db.runs[run].status) then (db, st, None)
    else
      var failed, report := O.WithStatus(db, run, Failed, None), ReportOf(intent, Quarantined, None);
      var (reported, ok) := FailureStep(st, report);
      if !ok then (failed, st, Some(Escaped)) else
        var (after, reply) := DeadLetterStep(failed, intent.item, Claimant(intent, worker), Name(MalformedProposal));
        (after, reported, Some(if reply == Done then QuarantineReported(report) else Escaped))
  }

  function PersistStep(db: Db, st: Store, intent: O.Intent, p: Proposal, worker: string): (Db, Store, Option<Ending>)
    requires intent.frontier.snapshot.currentBest != []
  {
    if Graph(intent, p).Quarantined() then QuarantineStep(db, st, intent, worker)
    else StoreStep(db, st, intent, GraphOf(intent.request.topic, Graph(intent, p)), worker)
  }

  // ----- reporting a failure

  function SettleFailure(db: Db, intent: O.Intent, worker: string, code: FailureCode, retryable: bool, now: int): (Db, Reply) {
    if retryable then RetryStep(db, intent.item, Claimant(intent, worker), Name(code), now)
    else DeadLetterStep(db, intent.item, Claimant(intent, worker), Name(code))
  }

  function FailStep(
    db: Db, st: Store, intent: O.Intent, status: ReportStatus, code: FailureCode, retryable: bool, worker: string, now: int)
    : (Db, Store, Ending)
  {
    var failed, report := S.FailIfPossible(db, intent.request.runId), ReportOf(intent, status, None);
    var (reported, ok) := FailureStep(st, report);
    if !ok then (failed, st, Escaped) else
      var (after, reply) := SettleFailure(failed, intent, worker, code, retryable, now);
      (after, reported, if reply == Done then FailureReported(report) else Escaped)
  }

  // ----- executing an intent

  /** Competition errors and refused transitions are reported; other exceptions escape. */
  predicate Reportable(f: O.Failure) {
    f.Uncompetitive? || f.IntentMismatch? || f.InvalidTransition?
  }

  function ExecuteStep(db: Db, st: Store, intent: O.Intent, end: RuntimeEnd, worker: string, now: int): (Db, Store, Ending)
    requires intent.frontier.snapshot.currentBest != []
  {
    match end
    case Broke(code, retryable) => FailStep(db, st, intent, FailedRun, code, retryable, worker, now)
    case Produced(p) =>
      match O.AcceptanceFailure(db, intent, p)
      case Some(f) =>
        if Reportable(f) then FailStep(db, st, intent, Quarantined, MalformedProposal, false, worker, now) else (db, st, Escaped)
      case None =>
        var (after, stored, ending) :=
          PersistStep(O.WithStatus(db, intent.request.runId, Normalizing, None), st, intent, p, worker);
        match ending
        case Some(e) => (after, stored, e)
        case None => FailStep(after, stored, intent, Quarantined, MalformedProposal, false, worker, now)
  }

  // ----- triggers

  /** A request; its key, digest, run and queue item ids are derived from its topic, trigger id and input. */
  datatype Trigger = Trigger(
    topic: string, key: string, digest: string, expected: Option<nat>, runId: string, item: string, dedupeKey: string,
    objective: string)

  datatype Response =
    | DigestMismatch
    | Duplicate(report: Report, version: nat)
    | NoSnapshot
    | NotResumed(failure: O.Failure)
    | NotStarted(failure: O.Failure)
    | Ran(ending: Ending, resumed: bool)

  function NewItem(t: Trigger, now: int): Item {
    Item(t.topic, "run.execute", Queued, t.runId, t.dedupeKey, t.key, 0, 1, now, Payload(t.objective, [t.item]), None, None, None)
  }

  /** Starts and resumes only ever answer with an intent that has a current best to attack. */
  lemma StartHasBest(db: Db, item: string, run: string, worker: string, mode: RunMode, expected: Option<nat>, now: int)
    ensures var answer := O.StartStep(db, item, run, worker, mode, expected, now).1;
      answer.Ok? ==> answer.intent.frontier.snapshot.currentBest != []
  {
  }

  ghost function AgainStep(db: Db, st: Store, t: Trigger, end: RuntimeEnd, worker: string, now: int): (Db, Store, Response)
    requires t.key in db.keys
  {
    if db.keys[t.key].digest != t.digest then (db, st, DigestMismatch)
    else
      match ReportWithKey(st, t.key)
      case Some(r) => (db, st, if (t.topic, r.version) in db.snapshots then Duplicate(r, r.version) else NoSnapshot)
      case None =>
        if db.keys[t.key].run.None? then (db, st, NotResumed(O.NoSuchRun)) else
          match O.Resume(db, db.keys[t.key].run.value, t.expected)
          case Err(f) => (db, st, NotResumed(f))
          case Ok(intent) =>
            if (t.topic, intent.version) !in db.snapshots then (db, st, NoSnapshot) else
              var (after, stored, ending) := ExecuteStep(db, st, intent, end, worker, now);
              (after, stored, Ran(ending, true))
  }

  /** The enqueued item is started and, if that gives an intent, executed. */
  ghost function LaunchStep(db: Db, st: Store, t: Trigger, end: RuntimeEnd, worker: string, now: int): (Db, Store, Response) {
    var (started, answer) := O.StartStep(db, t.item, t.runId, worker, LedgerModel.Interactive, t.expected, now);
    assert answer.Ok? ==> answer.intent.frontier.snapshot.currentBest != [] by {
      StartHasBest(db, t.item, t.runId, worker, LedgerModel.Interactive, t.expected, now);
    }
    match answer
    case Err(f) => (started, st, NotStarted(f))
    case Ok(intent) =>
      var (after, stored, ending) := ExecuteStep(started, st, intent, end, worker, now);
      (after, stored, Ran(ending, false))
  }

  /** The reservation and the enqueueing are two transactions. */
  function EnqueueStep(db: Db, t: Trigger, now: int): (Db, Reply) {
    Apply(Apply(db, Reserve(t.key, t.digest, None)).0, Enqueue(t.item, NewItem(t, now)))
  }

  ghost function FirstStep(db: Db, st: Store, t: Trigger, end: RuntimeEnd, worker: string, now: int): (Db, Store, Response)
    requires t.key !in db.keys
  {
    var latest := O.Latest(db.snapshots, t.topic);
    if latest == None then (db, st, NotStarted(O.MissingSnapshot))
    else if t.expected.Some? && db.snapshots[(t.topic, latest.value)].version != t.expected.value
      then (db, st, NotStarted(O.StaleSnapshot))
    else
      var (queued, reply) := EnqueueStep(db, t, now);
      if reply != Done then (queued, st, NotStarted(O.LedgerRefused(IntegrityError)))
      else LaunchStep(queued, st, t, end, worker, now)
  }

  ghost function TriggerStep(db: Db, st: Store, t: Trigger, end: RuntimeEnd, worker: string, now: int): (Db, Store, Response) {
    if t.key in db.keys then AgainStep(db, st, t, end, worker, now) else FirstStep(db, st, t, end, worker, now)
  }

  class Service {
    const ledger: SqliteLedger
    const tables: ReportTables
    const worker: string

    constructor (ledger: SqliteLedger, tables: ReportTables, worker: string)
      ensures this.ledger == ledger && this.tables == tables && this.worker == worker
    {
      this.ledger, this.tables, this.worker := ledger, tables, worker;
    }

    method EnterPersisting(run: string) returns (ok: bool)
      requires run in ledger.runs
      modifies ledger`runs
      ensures ok == (Adjudicating in RunLifecycle.Next(old(ledger.runs)[run].status))
      ensures ledger.View() == if ok then O.WithStatus(old(ledger.View()), run, Persisting, None) else old(ledger.View())
    {
      ok := O.Transition(ledger, run, Adjudicating, None);
      if ok {
        ok := O.Transition(ledger, run, Persisting, None);
      }
    }

    method CompleteRun(run: string)
      requires run in ledger.runs && ledger.runs[run].status == Persisting
      modifies ledger`runs
      ensures ledger.View() == O.WithStatus(old(ledger.View()), run, RunCompleted, None)
    {
      var ok := O.Transition(ledger, run, Summarizing, None);
      ok := O.Transition(ledger, run, RunCompleted, None);
    }

    /** The graph and its report are stored while the run is PERSISTING; then the run completes and its item is acked. */
    method StoreGraph(intent: O.Intent, g: GraphWrite) returns (ending: Option<Ending>)
      modifies ledger, tables
      ensures (ledger.View(), tables.View(), ending) == StoreStep(old(ledger.View()), old(tables.View()), intent, g, worker)
    {
      var run := intent.request.runId;
      if run !in ledger.runs {
        return Some(Escaped);
      }
      ghost var was := ledger.View();
      var ok := EnterPersisting(run);
      if !ok {
        return None;
      }
      var report := ReportOf(intent, Finished, Some(UpdateOf(g)));
      ok := tables.RecordSuccess(report, g);
      if !ok {
        return Some(Escaped);
      }
      CompleteRun(run);
      assert ledger.View() == O.WithStatus(was, run, RunCompleted, None);
      var reply := ledger.CompleteQueueItem(intent.item, run, worker);
      ending := Some(if reply == Done then Persisted(report) else Unacknowledged(report));
    }

    /** A quarantined proposal fails its run, is reported without a graph, and dead-letters its item. */
    method ReportQuarantine(intent: O.Intent) returns (ending: Option<Ending>)
      modifies ledger, tables
      ensures (ledger.View(), tables.View(), ending) == QuarantineStep(old(ledger.View()), old(tables.View()), intent, worker)
    {
      var run := intent.request.runId;
      if run !in ledger.runs {
        return Some(Escaped);
      }
      var ok := O.Transition(ledger, run, Failed, None);
      if !ok {
        return None;
      }
      var report := ReportOf(intent, Quarantined, None);
      ok := tables.RecordFailure(report);
      if !ok {
        return Some(Escaped);
      }
      var reply := ledger.RecordQueueDeadLetter(intent.item, Claimant(intent, worker), Name(MalformedProposal));
      ending := Some(if reply == Done then QuarantineReported(report) else Escaped);
    }

    method CanonicalizeAndPersist(intent: O.Intent, p: Proposal) returns (ending: Option<Ending>)
      requires intent.frontier.snapshot.currentBest != []
      modifies ledger, tables
      ensures (ledger.View(), tables.View(), ending) ==
        PersistStep(old(ledger.View()), old(tables.View()), intent, p, worker)
    {
      var r := Canonicalizer.Canonicalize(p, ServiceContext(intent.frontier.snapshot, intent.request.runId));
      if r.Quarantined() {
        ending := ReportQuarantine(intent);
      } else {
        ending := StoreGraph(intent, GraphOf(intent.request.topic, r));
      }
    }

    method RecordQueueFailure(intent: O.Intent, code: FailureCode, retryable: bool, now: int) returns (reply: Reply)
      modifies ledger
      ensures (ledger.View(), reply) == SettleFailure(old(ledger.View()), intent, worker, code, retryable, now)
    {
      if retryable {
        reply := ledger.RecordQueueRetry(intent.item, Claimant(intent, worker), Name(code), now);
      } else {
        reply := ledger.RecordQueueDeadLetter(intent.item, Claimant(intent, worker), Name(code));
      }
    }

    method ReportFailure(intent: O.Intent, status: ReportStatus, code: FailureCode, retryable: bool, now: int)
      returns (ending: Ending)
      modifies ledger, tables
      ensures (ledger.View(), tables.View(), ending) ==
        FailStep(old(ledger.View()), old(tables.View()), intent, status, code, retryable, worker, now)
    {
      var failed := O.Transition(ledger, intent.request.runId, Failed, None);
      var report := ReportOf(intent, status, None);
      var ok := tables.RecordFailure(report);
      if !ok {
        return Escaped;
      }
      var reply := RecordQueueFailure(intent, code, retryable, now);
      ending := if reply == Done then FailureReported(report) else Escaped;
    }

    method ExecuteIntent(intent: O.Intent, end: RuntimeEnd, now: int) returns (ending: Ending)
      requires intent.frontier.snapshot.currentBest != []
      modifies ledger, tables
      ensures (ledger.View(), tables.View(), ending) ==
        ExecuteStep(old(ledger.View()), old(tables.View()), intent, end, worker, now)
    {
      if end.Broke? {
        ending := ReportFailure(intent, FailedRun, end.code, end.retryable, now);
        return;
      }
      var failure := O.AcceptCompetitionProposal(ledger, intent, end.p);
      if failure.Some? {
        if !Reportable(failure.value) {
          return Escaped;
        }
        ending := ReportFailure(intent, Quarantined, MalformedProposal, false, now);
        return;
      }
      var persisted := CanonicalizeAndPersist(intent, end.p);
      if persisted.Some? {
        return persisted.value;
      }
      ending := ReportFailure(intent, Quarantined, MalformedProposal, false, now);
    }

    /** A repeated request: answered from its report, or resumed. */
    method TriggerAgain(t: Trigger, end: RuntimeEnd, now: int) returns (response: Response)
      requires t.key in ledger.keys && KeysUnique(tables.View())
      modifies ledger, tables
      ensures (ledger.View(), tables.View(), response) ==
        AgainStep(old(ledger.View()), old(tables.View()), t, end, worker, now)
    {
      if ledger.keys[t.key].digest != t.digest {
        return DigestMismatch;
      }
      var existing := tables.FetchByKey(t.key);
      if existing.Some? {
        var version := existing.value.version;
        return if (t.topic, version) in ledger.snapshots then Duplicate(existing.value, version) else NoSnapshot;
      }
      var run := ledger.keys[t.key].run;
      if run.None? {
        return NotResumed(O.NoSuchRun);
      }
      var db := Db(ledger.items, ledger.runs, ledger.links, ledger.keys, ledger.snapshots, ledger.audit);
      var answer := O.Resume(db, run.value, t.expected);
      if answer.Err? {
        return NotResumed(answer.failure);
      }
      if (t.topic, answer.intent.version) !in ledger.snapshots {
        return NoSnapshot;
      }
      var ending := ExecuteIntent(answer.intent, end, now);
      response := Ran(ending, true);
    }

    /** A new request: its key is reserved and its item enqueued, started and executed. */
    method TriggerFirst(t: Trigger, end: RuntimeEnd, now: int) returns (response: Response)
      requires t.key !in ledger.keys
      modifies ledger, tables
      ensures (ledger.View(), tables.View(), response) ==
        FirstStep(old(ledger.View()), old(tables.View()), t, end, worker, now)
    {
      var latest := O.LatestVersion(ledger, t.topic);
      if latest.None? {
        return NotStarted(O.MissingSnapshot);
      }
      if t.expected.Some? && ledger.snapshots[(t.topic, latest.value)].version != t.expected.value {
        return NotStarted(O.StaleSnapshot);
      }
      var reply := EnqueueTriggered(t, now);
      if reply != Done {
        return NotStarted(O.LedgerRefused(IntegrityError));
      }
      response := StartTriggered(t, end, now);
    }

    method EnqueueTriggered(t: Trigger, now: int) returns (reply: Reply)
      modifies ledger
      ensures (ledger.View(), reply) == EnqueueStep(old(ledger.View()), t, now)
    {
      reply := ledger.ReserveIdempotencyKey(t.key, t.digest, None);
      reply := ledger.EnqueueJob(t.item, NewItem(t, now));
    }

    method StartTriggered(t: Trigger, end: RuntimeEnd, now: int) returns (response: Response)
      modifies ledger, tables
      ensures (ledger.View(), tables.View(), response) ==
        LaunchStep(old(ledger.View()), old(tables.View()), t, end, worker, now)
    {
      StartHasBest(ledger.View(), t.item, t.runId, worker, LedgerModel.Interactive, t.expected, now);
      var answer := O.StartQueuedRun(ledger, t.item, t.runId, worker, LedgerModel.Interactive, t.expected, now);
      if answer.Err? {
        return NotStarted(answer.failure);
      }
      var ending := ExecuteIntent(answer.intent, end, now);
      response := Ran(ending, false);
    }

    /** What is answered from a report runs nothing and writes nothing. */
    method TriggerRun(t: Trigger, end: RuntimeEnd, now: int) returns (response: Response)
      requires KeysUnique(tables.View())
      modifies ledger, tables
      ensures (ledger.View(), tables.View(), response) ==
        TriggerStep(old(ledger.View()), old(tables.View()), t, end, worker, now)
      ensures response.Duplicate? ==> ledger.View() == old(ledger.View()) && tables.View() == old(tables.View())
    {
      if t.key in ledger.keys {
        response := TriggerAgain(t, end, now);
      } else {
        response := TriggerFirst(t, end, now);
      }
    }
  }
}
