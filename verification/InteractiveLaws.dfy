/** What each way an interactive execution can end says about its run, its queue item, its report and its graph. */
module InteractiveLaws {
  import opened Prelude
  import opened Failures
  import opened Proposals
  import opened Competition
  import opened Canonicalization
  import opened Pipeline
  import opened LedgerModel
  import RunLifecycle
  import O = Orchestrator
  import S = Scheduled
  import opened Reports
  import opened Interactive

  ghost predicate RunIs(db: Db, run: string, status: RunStatus) {
    run in db.runs && db.runs[run].status == status
  }

  ghost predicate ItemIs(db: Db, item: string, state: QueueState) {
    item in db.items && db.items[item].state == state && db.items[item].claimedBy == None
  }

  /** The proposal was accepted for this very run, and its unquarantined graph is stored with the report; the run is
      COMPLETED, and so is its item unless the claim was lost. */
  ghost predicate StoredWell(db: Db, st: Store, intent: O.Intent, p: Proposal, after: Db, stored: Store, ending: Ending)
    requires intent.frontier.snapshot.currentBest != []
  {
    var run, g := intent.request.runId, GraphOf(intent.request.topic, Graph(intent, p));
    && O.MatchesRun(db, intent) && CompetitionVerdict(intent.frontier, p) == None && !Graph(intent, p).Quarantined()
    && (stored, true) == SuccessStep(st, ReportOf(intent, Finished, Some(UpdateOf(g))), g)
    && RunIs(after, run, RunCompleted)
    && (if ending.Persisted? then ItemIs(after, intent.item, QueueState.Completed) else after.items == db.items)
  }

  lemma StoreMeans(db: Db, st: Store, intent: O.Intent, g: GraphWrite, worker: string)
    requires intent.request.runId in db.runs
    ensures var (after, stored, ending) := StoreStep(db, st, intent, g, worker);
      match ending
      case Some(Persisted(r)) =>
        && r == ReportOf(intent, Finished, Some(UpdateOf(g))) && (stored, true) == SuccessStep(st, r, g)
        && RunIs(after, intent.request.runId, RunCompleted) && ItemIs(after, intent.item, QueueState.Completed)
      case Some(Unacknowledged(r)) =>
        && r == ReportOf(intent, Finished, Some(UpdateOf(g))) && (stored, true) == SuccessStep(st, r, g)
        && RunIs(after, intent.request.runId, RunCompleted) && after.items == db.items
      case Some(e) => e == Escaped && stored == st && after.items == db.items
      case None => stored == st && after == db
  {
  }

  lemma QuarantineMeans(db: Db, st: Store, intent: O.Intent, worker: string)
    ensures var (after, stored, ending) := QuarantineStep(db, st, intent, worker);
      match ending
      case Some(QuarantineReported(r)) =>
        && r == ReportOf(intent, Quarantined, None) && (stored, true) == FailureStep(st, r)
        && RunIs(after, intent.request.runId, DeadLetter) && ItemIs(after, intent.item, DeadLettered)
      case Some(e) => e == Escaped && stored.graphs == st.graphs && after.items == db.items
      case None => stored == st && after == db
  {
  }

  /** A reported failure stores no graph; its item is requeued for now, or dead-lettered with its run. */
  ghost predicate FailedWell(
    db: Db, st: Store, intent: O.Intent, retryable: bool, now: int, after: Db, stored: Store, ending: Ending)
  {
    match ending
    case FailureReported(r) =>
      && (stored, true) == FailureStep(st, r) && r.update == None && r.runId == intent.request.runId
      && ItemIs(after, intent.item, if retryable then Queued else DeadLettered)
      && (retryable ==> after.items[intent.item].availableAt == now)
      && intent.item in db.items && after.items[intent.item].attempts == db.items[intent.item].attempts + 1
      && (!retryable && intent.request.runId in db.runs ==> RunIs(after, intent.request.runId, DeadLetter))
    case _ => ending == Escaped && stored.graphs == st.graphs && after.items == db.items
  }

  lemma SettleFailureMeans(db: Db, intent: O.Intent, worker: string, code: FailureCode, retryable: bool, now: int)
    ensures var (after, reply) := SettleFailure(db, intent, worker, code, retryable, now);
      if reply == Done then
        && ItemIs(after, intent.item, if retryable then Queued else DeadLettered)
        && (retryable ==> after.items[intent.item].availableAt == now)
        && intent.item in db.items && after.items[intent.item].attempts == db.items[intent.item].attempts + 1
        && (!retryable && intent.request.runId in db.runs ==> RunIs(after, intent.request.runId, DeadLetter))
      else after == db
  {
  }

  lemma FailIfPossibleMeans(db: Db, run: string)
    ensures S.FailIfPossible(db, run).items == db.items && S.FailIfPossible(db, run).runs.Keys == db.runs.Keys
  {
  }

  lemma FailMeans(
    db: Db, st: Store, intent: O.Intent, status: ReportStatus, code: FailureCode, retryable: bool, worker: string, now: int)
    ensures var (after, stored, ending) := FailStep(db, st, intent, status, code, retryable, worker, now);
      FailedWell(db, st, intent, retryable, now, after, stored, ending)
  {
    var failed := S.FailIfPossible(db, intent.request.runId);
    FailIfPossibleMeans(db, intent.request.runId);
    SettleFailureMeans(failed, intent, worker, code, retryable, now);
  }

  /** A runtime failure is only ever reported, or escapes. */
  lemma RuntimeFailureIsReported(
    db: Db, st: Store, intent: O.Intent, code: FailureCode, retryable: bool, worker: string, now: int)
    requires intent.frontier.snapshot.currentBest != []
    ensures var (after, stored, ending) := ExecuteStep(db, st, intent, Broke(code, retryable), worker, now);
      FailedWell(db, st, intent, retryable, now, after, stored, ending)
  {
    FailMeans(db, st, intent, FailedRun, code, retryable, worker, now);
  }

  lemma AcceptedNormalizes(db: Db, intent: O.Intent, p: Proposal)
    requires O.AcceptanceFailure(db, intent, p) == None
    ensures var d := O.WithStatus(db, intent.request.runId, Normalizing, None);
      && Failed in RunLifecycle.Next(d.runs[intent.request.runId].status)
      && Adjudicating in RunLifecycle.Next(d.runs[intent.request.runId].status)
      && d.items == db.items
  {
  }

  /** The ways an execution with a proposal ends. */
  ghost predicate EndsAs(db: Db, st: Store, intent: O.Intent, p: Proposal, now: int, after: Db, stored: Store, ending: Ending)
    requires intent.frontier.snapshot.currentBest != []
  {
    match ending
    case Persisted(_) => StoredWell(db, st, intent, p, after, stored, ending)
    case Unacknowledged(_) => StoredWell(db, st, intent, p, after, stored, ending)
    case QuarantineReported(r) =>
      && Graph(intent, p).Quarantined() && r == ReportOf(intent, Quarantined, None) && (stored, true) == FailureStep(st, r)
      && RunIs(after, intent.request.runId, DeadLetter) && ItemIs(after, intent.item, DeadLettered)
    case FailureReported(_) =>
      FailedWell(db, st, intent, false, now, after, stored, ending) && O.AcceptanceFailure(db, intent, p).Some?
    case Escaped => stored.graphs == st.graphs && after.items == db.items
  }

  lemma FailedEnds(
    db: Db, st: Store, intent: O.Intent, p: Proposal, now: int, after: Db, stored: Store, ending: Ending)
    requires intent.frontier.snapshot.currentBest != [] && O.AcceptanceFailure(db, intent, p).Some?
    requires FailedWell(db, st, intent, false, now, after, stored, ending)
    ensures EndsAs(db, st, intent, p, now, after, stored, ending)
  {
  }

  lemma RefusedStep(db: Db, st: Store, intent: O.Intent, p: Proposal, worker: string, now: int)
    requires intent.frontier.snapshot.currentBest != [] && O.AcceptanceFailure(db, intent, p).Some?
    ensures ExecuteStep(db, st, intent, Produced(p), worker, now) ==
      if Reportable(O.AcceptanceFailure(db, intent, p).value)
      then FailStep(db, st, intent, Quarantined, MalformedProposal, false, worker, now) else (db, st, Escaped)
  {
  }

  lemma RefusedEnds(db: Db, st: Store, intent: O.Intent, p: Proposal, worker: string, now: int)
    requires intent.frontier.snapshot.currentBest != [] && O.AcceptanceFailure(db, intent, p).Some?
    ensures var (after, stored, ending) := ExecuteStep(db, st, intent, Produced(p), worker, now);
      EndsAs(db, st, intent, p, now, after, stored, ending)
  {
    var (after, stored, ending) := FailStep(db, st, intent, Quarantined, MalformedProposal, false, worker, now);
    FailMeans(db, st, intent, Quarantined, MalformedProposal, false, worker, now);
    FailedEnds(db, st, intent, p, now, after, stored, ending);
    FailedEnds(db, st, intent, p, now, db, st, Escaped);
    RefusedStep(db, st, intent, p, worker, now);
  }

  lemma AcceptedEnds(db: Db, st: Store, intent: O.Intent, p: Proposal, worker: string, now: int)
    requires intent.frontier.snapshot.currentBest != [] && O.AcceptanceFailure(db, intent, p) == None
    ensures var d := O.WithStatus(db, intent.request.runId, Normalizing, None);
      var (after, stored, ending) := PersistStep(d, st, intent, p, worker);
      ending.Some? && EndsAs(db, st, intent, p, now, after, stored, ending.value)
  {
    var d := O.WithStatus(db, intent.request.runId, Normalizing, None);
    AcceptedNormalizes(db, intent, p);
    if Graph(intent, p).Quarantined() {
      QuarantineMeans(d, st, intent, worker);
    } else {
      StoreMeans(d, st, intent, GraphOf(intent.request.topic, Graph(intent, p)), worker);
    }
  }

  /** Every execution with a proposal ends in one of these ways. */
  lemma ProposalEndings(db: Db, st: Store, intent: O.Intent, p: Proposal, worker: string, now: int)
    requires intent.frontier.snapshot.currentBest != []
    ensures var (after, stored, ending) := ExecuteStep(db, st, intent, Produced(p), worker, now);
      EndsAs(db, st, intent, p, now, after, stored, ending)
  {
    if O.AcceptanceFailure(db, intent, p).Some? {
      RefusedEnds(db, st, intent, p, worker, now);
    } else {
      AcceptedEnds(db, st, intent, p, worker, now);
    }
  }

  /** A stored graph argues every current best from both sides, on evidence. */
  lemma StoredGraphArguesBothSides(db: Db, st: Store, intent: O.Intent, p: Proposal, worker: string, now: int)
    requires intent.frontier.snapshot.currentBest != [] && intent.frontier == FullFrontier(intent.frontier.snapshot)
    requires WellFormed(p)
    ensures var (after, stored, ending) := ExecuteStep(db, st, intent, Produced(p), worker, now);
      ending.Persisted? || ending.Unacknowledged? ==>
        intent.request.runId in stored.graphs && ArguesBothSides(stored.graphs[intent.request.runId], intent, p)
  {
    ProposalEndings(db, st, intent, p, worker, now);
    if CompetitionVerdict(intent.frontier, p) == None && !Graph(intent, p).Quarantined() {
      CompetitionReachesTheGraph(p, intent.frontier.snapshot, intent.request.runId);
    }
  }
}
