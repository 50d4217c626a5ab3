/** How an execution that was started ends, for the interactive and the scheduled service: run, item, report and graph, for every
    proposal and every runtime failure. */
module RunEndings {
  import opened Prelude
  import opened Failures
  import opened Proposals
  import opened Competition
  import C = Canonicalization
  import opened Pipeline
  import opened LedgerModel
  import RunLifecycle
  import O = Orchestrator
  import S = Scheduled
  import opened Reports
  import I = Interactive
  import R = ScheduledRuns
  import opened Endings

  // ----- whether a proposal is accepted

  /** The intent was built for this row. */
  ghost predicate BuiltFor(row: RunRow, intent: O.Intent) {
    row.topic == intent.request.topic && row.item == intent.item && row.key == intent.request.key
  }

  /** Why an intent's proposal is not accepted, and exactly when. */
  ghost predicate NotAccepted(db: Db, intent: O.Intent, p: Proposal, f: O.Failure) {
    var run := intent.request.runId;
    match f
    case NoSuchRun => run !in db.runs
    case IntentMismatch => run in db.runs && !BuiltFor(db.runs[run], intent)
    case StaleSnapshot => run in db.runs && BuiltFor(db.runs[run], intent) && db.runs[run].snapshot != Some(intent.version)
    case Uncompetitive(reason) =>
      && run in db.runs && BuiltFor(db.runs[run], intent) && db.runs[run].snapshot == Some(intent.version)
      && CompetitionVerdict(intent.frontier, p) == Some(reason)
    case InvalidTransition =>
      && run in db.runs && BuiltFor(db.runs[run], intent) && db.runs[run].snapshot == Some(intent.version)
      && CompetitionVerdict(intent.frontier, p) == None && db.runs[run].status != CodexExecuting
    case _ => false
  }

  lemma NotAcceptedIff(db: Db, intent: O.Intent, p: Proposal, f: O.Failure)
    ensures O.AcceptanceFailure(db, intent, p) == Some(f) <==> NotAccepted(db, intent, p, f)
  {
  }

  /** An accepted proposal is competitive, and its run executes what the intent says. */
  ghost predicate IsAccepted(db: Db, intent: O.Intent, p: Proposal) {
    var run := intent.request.runId;
    && run in db.runs && BuiltFor(db.runs[run], intent) && db.runs[run].snapshot == Some(intent.version)
    && CompetitionVerdict(intent.frontier, p) == None && db.runs[run].status == CodexExecuting
  }

  lemma IsAcceptedIff(db: Db, intent: O.Intent, p: Proposal)
    ensures O.AcceptanceFailure(db, intent, p) == None <==> IsAccepted(db, intent, p)
  {
  }

  // ----- what is stored

  ghost predicate ReportFor(intent: O.Intent, status: ReportStatus, r: Report) {
    && r.runId == intent.request.runId && r.topic == intent.request.topic && r.key == intent.request.key
    && r.version == intent.version && r.status == status
  }

  /** The report and the graph of a proposal stored under its run; the report gives the graph's digest and sizes. */
  ghost predicate StoresGraph(st: Store, stored: Store, intent: O.Intent, p: Proposal, r: Report)
    requires intent.frontier.snapshot.currentBest != []
  {
    var run, graph := intent.request.runId, Graph(intent, p);
    var digest := DigestOf(multiset(graph.nodes), graph.edges);
    && ReportFor(intent, Finished, r)
    && r.update == Some(StateUpdate(digest, |graph.nodes|, |graph.edges|))
    && stored.reports == st.reports[run := r]
    && stored.graphs ==
         st.graphs[run := GraphWrite(intent.request.topic, graph.nodes, graph.edges, digest, |graph.nodes|, |graph.edges|)]
  }

  /** A report without a graph. */
  ghost predicate StoresReport(st: Store, stored: Store, intent: O.Intent, status: ReportStatus, r: Report) {
    && ReportFor(intent, status, r) && r.update == None
    && stored.reports == st.reports[intent.request.runId := r] && stored.graphs == st.graphs
  }

  /** The report and graph rows of the intent's run are free, and so is its key among the reports. */
  ghost predicate RowsFree(st: Store, intent: O.Intent) {
    && intent.request.runId !in st.reports && intent.request.runId !in st.graphs
    && forall run :: run in st.reports ==> st.reports[run].key != intent.request.key
  }

  ghost predicate RunBecomes(before: Db, after: Db, run: string, status: RunStatus) {
    run in before.runs && after.runs == before.runs[run := before.runs[run].(status := status)]
  }

  // ----- the interactive service

  ghost predicate InteractiveStores(
    db: Db, st: Store, intent: O.Intent, p: Proposal, after: Db, stored: Store, ending: I.Ending)
    requires intent.frontier.snapshot.currentBest != []
  {
    && ending.Persisted? && StoresGraph(st, stored, intent, p, ending.report)
    && RunBecomes(db, after, intent.request.runId, RunCompleted) && ItemMeets(db, after, intent.item, Acked)
  }

  ghost predicate InteractiveQuarantines(db: Db, st: Store, intent: O.Intent, after: Db, stored: Store, ending: I.Ending) {
    && ending.QuarantineReported? && StoresReport(st, stored, intent, Quarantined, ending.report)
    && RunBecomes(db, after, intent.request.runId, DeadLetter) && ItemMeets(db, after, intent.item, Buried(MalformedProposal))
  }

  ghost predicate InteractiveFails(
    db: Db, st: Store, intent: O.Intent, status: ReportStatus, fate: Fate, after: Db, stored: Store, ending: I.Ending)
  {
    && ending.FailureReported? && StoresReport(st, stored, intent, status, ending.report)
    && ItemMeets(db, after, intent.item, fate)
    && (fate.Buried? ==> RunBecomes(db, after, intent.request.runId, DeadLetter))
    && (!fate.Buried? ==> RunFails(db, after, intent.request.runId))
  }

  lemma StatusKeepsOwned(db: Db, i: string, r: string, w: string, status: RunStatus)
    requires Owned(db, i, r, w)
    ensures Owned(O.WithStatus(db, r, status, None), i, r, w) && O.WithStatus(db, r, status, None).items == db.items
    ensures O.WithStatus(db, r, status, None).runs == db.runs[r := db.runs[r].(status := status)]
  {
  }

  lemma FreeRows(st: Store, intent: O.Intent, status: ReportStatus, update: Option<StateUpdate>)
    requires RowsFree(st, intent)
    ensures !ReportConflicts(st, ReportOf(intent, status, update))
  {
  }

  lemma InteractiveFailure(
    db: Db, st: Store, intent: O.Intent, status: ReportStatus, code: FailureCode, retryable: bool, w: string, now: int)
    requires Owned(db, intent.item, intent.request.runId, w) && RowsFree(st, intent)
    ensures var (after, stored, ending) := I.FailStep(db, st, intent, status, code, retryable, w, now);
      InteractiveFails(db, st, intent, status, if retryable then Requeued(code, now) else Buried(code), after, stored, ending)
  {
    FreeRows(st, intent, status, None);
    FailingKeepsOwned(db, intent.item, intent.request.runId, w);
    FailedIsBuried(db, intent.item, intent.request.runId, w, code);
    FailIfPossibleFails(db, intent.request.runId);
    OwnedRequeues(S.FailIfPossible(db, intent.request.runId), intent.item, intent.request.runId, w, code, now);
  }

  lemma NormalizingMoves()
    ensures Adjudicating in RunLifecycle.Next(Normalizing) && Failed in RunLifecycle.Next(Normalizing)
  {
  }

  lemma QuarantineFrom(db: Db, st: Store, intent: O.Intent, w: string)
    requires Owned(db, intent.item, intent.request.runId, w) && RowsFree(st, intent)
    requires db.runs[intent.request.runId].status == Normalizing
    ensures var (after, stored, ending) := I.QuarantineStep(db, st, intent, w);
      ending.Some? && InteractiveQuarantines(db, st, intent, after, stored, ending.value)
  {
    var run := intent.request.runId;
    FreeRows(st, intent, Quarantined, None);
    StatusKeepsOwned(db, intent.item, run, w, Failed);
    OwnedIsBuried(O.WithStatus(db, run, Failed, None), intent.item, run, w, MalformedProposal);
  }

  lemma StoreFrom(db: Db, st: Store, intent: O.Intent, p: Proposal, w: string)
    requires Owned(db, intent.item, intent.request.runId, w) && RowsFree(st, intent)
    requires db.runs[intent.request.runId].status == Normalizing && intent.frontier.snapshot.currentBest != []
    ensures var (after, stored, ending) := I.StoreStep(db, st, intent, GraphOf(intent.request.topic, Graph(intent, p)), w);
      ending.Some? && InteractiveStores(db, st, intent, p, after, stored, ending.value)
  {
    var run := intent.request.runId;
    FreeRows(st, intent, Finished, Some(UpdateOf(GraphOf(intent.request.topic, Graph(intent, p)))));
    StatusKeepsOwned(db, intent.item, run, w, RunCompleted);
    OwnedAcks(O.WithStatus(db, run, RunCompleted, None), intent.item, run, w);
  }

  /** Normalizing first does not show in the end. */
  lemma EndsFromBefore(db: Db, st: Store, intent: O.Intent, p: Proposal, w: string, after: Db, stored: Store, ending: I.Ending)
    requires Owned(db, intent.item, intent.request.runId, w) && intent.frontier.snapshot.currentBest != []
    ensures var d := O.WithStatus(db, intent.request.runId, Normalizing, None);
      && (InteractiveQuarantines(d, st, intent, after, stored, ending) ==>
            InteractiveQuarantines(db, st, intent, after, stored, ending))
      && (InteractiveStores(d, st, intent, p, after, stored, ending) ==> InteractiveStores(db, st, intent, p, after, stored, ending))
  {
    StatusKeepsOwned(db, intent.item, intent.request.runId, w, Normalizing);
  }

  lemma AcceptedPersists(db: Db, st: Store, intent: O.Intent, p: Proposal, w: string)
    requires Owned(db, intent.item, intent.request.runId, w) && RowsFree(st, intent)
    requires intent.frontier.snapshot.currentBest != []
    ensures var (after, stored, ending) :=
        I.PersistStep(O.WithStatus(db, intent.request.runId, Normalizing, None), st, intent, p, w);
      && ending.Some?
      && if Graph(intent, p).Quarantined() then InteractiveQuarantines(db, st, intent, after, stored, ending.value)
         else InteractiveStores(db, st, intent, p, after, stored, ending.value)
  {
    var d := O.WithStatus(db, intent.request.runId, Normalizing, None);
    StatusKeepsOwned(db, intent.item, intent.request.runId, w, Normalizing);
    if Graph(intent, p).Quarantined() { QuarantineFrom(d, st, intent, w); } else { StoreFrom(d, st, intent, p, w); }
    var (after, stored, ending) := I.PersistStep(d, st, intent, p, w);
    EndsFromBefore(db, st, intent, p, w, after, stored, ending.value);
  }

  /** How an interactive execution ends whose item is claimed for it and whose rows are free. */
  ghost predicate InteractiveEnds(
    db: Db, st: Store, intent: O.Intent, end: I.RuntimeEnd, now: int, after: Db, stored: Store, ending: I.Ending)
    requires intent.frontier.snapshot.currentBest != []
  {
    match end
    case Broke(code, retryable) =>
      InteractiveFails(db, st, intent, FailedRun, if retryable then Requeued(code, now) else Buried(code), after, stored, ending)
    case Produced(p) =>
      if IsAccepted(db, intent, p) then
        if Graph(intent, p).Quarantined() then InteractiveQuarantines(db, st, intent, after, stored, ending)
        else InteractiveStores(db, st, intent, p, after, stored, ending)
      else if NotAccepted(db, intent, p, O.StaleSnapshot) then ending == I.Escaped && after == db && stored == st
      else InteractiveFails(db, st, intent, Quarantined, Buried(MalformedProposal), after, stored, ending)
  }

  lemma ProducedEnds(db: Db, st: Store, intent: O.Intent, p: Proposal, w: string, now: int)
    requires Owned(db, intent.item, intent.request.runId, w) && RowsFree(st, intent)
    requires intent.frontier.snapshot.currentBest != []
    ensures var (after, stored, ending) := I.ExecuteStep(db, st, intent, I.Produced(p), w, now);
      InteractiveEnds(db, st, intent, I.Produced(p), now, after, stored, ending)
  {
    IsAcceptedIff(db, intent, p);
    forall f { NotAcceptedIff(db, intent, p, f); }
    if IsAccepted(db, intent, p) {
      AcceptedPersists(db, st, intent, p, w);
    } else {
      InteractiveFailure(db, st, intent, Quarantined, MalformedProposal, false, w, now);
    }
  }

  lemma InteractiveEnding(db: Db, st: Store, intent: O.Intent, end: I.RuntimeEnd, w: string, now: int)
    requires Owned(db, intent.item, intent.request.runId, w) && RowsFree(st, intent)
    requires intent.frontier.snapshot.currentBest != []
    ensures var (after, stored, ending) := I.ExecuteStep(db, st, intent, end, w, now);
      InteractiveEnds(db, st, intent, end, now, after, stored, ending)
  {
    match end
    case Broke(code, retryable) => InteractiveFailure(db, st, intent, FailedRun, code, retryable, w, now);
    case Produced(p) => ProducedEnds(db, st, intent, p, w, now);
  }

  /** How it ends once the claim is lost: what was reported stays, the item is left to whoever has it, and only a stored proposal
      is still answered. */
  ghost predicate LostEnds(
    db: Db, st: Store, intent: O.Intent, end: I.RuntimeEnd, after: Db, stored: Store, ending: I.Ending)
    requires intent.frontier.snapshot.currentBest != []
  {
    && after.items == db.items
    && match end
       case Broke(_, _) => ending == I.Escaped && exists r :: StoresReport(st, stored, intent, FailedRun, r)
       case Produced(p) =>
         if IsAccepted(db, intent, p) && !Graph(intent, p).Quarantined() then
           && ending.Unacknowledged? && StoresGraph(st, stored, intent, p, ending.report)
           && RunBecomes(db, after, intent.request.runId, RunCompleted)
         else if NotAccepted(db, intent, p, O.StaleSnapshot) || NotAccepted(db, intent, p, O.NoSuchRun)
         then ending == I.Escaped && after == db && stored == st
         else ending == I.Escaped && exists r :: StoresReport(st, stored, intent, Quarantined, r)
  }

  ghost predicate Lost(db: Db, intent: O.Intent, w: string) {
    !OwnsClaim(db, intent.item, Owner(Some(intent.request.runId), Some(w)))
  }

  lemma LostStays(db: Db, intent: O.Intent, w: string, status: RunStatus)
    requires Lost(db, intent, w) && intent.request.runId in db.runs
    ensures Lost(O.WithStatus(db, intent.request.runId, status, None), intent, w)
    ensures O.WithStatus(db, intent.request.runId, status, None).items == db.items
  {
  }

  lemma LostFailure(db: Db, st: Store, intent: O.Intent, status: ReportStatus, code: FailureCode, retryable: bool, w: string, now: int)
    requires Lost(db, intent, w) && RowsFree(st, intent)
    ensures var (after, stored, ending) := I.FailStep(db, st, intent, status, code, retryable, w, now);
      && after.items == db.items && ending == I.Escaped
      && StoresReport(st, stored, intent, status, ReportOf(intent, status, None))
  {
    FreeRows(st, intent, status, None);
  }

  lemma LostQuarantine(db: Db, st: Store, intent: O.Intent, w: string)
    requires Lost(db, intent, w) && RowsFree(st, intent) && intent.request.runId in db.runs
    requires db.runs[intent.request.runId].status == Normalizing
    ensures var (after, stored, ending) := I.QuarantineStep(db, st, intent, w);
      && ending == Some(I.Escaped) && after.items == db.items
      && StoresReport(st, stored, intent, Quarantined, ReportOf(intent, Quarantined, None))
  {
    FreeRows(st, intent, Quarantined, None);
    LostStays(db, intent, w, RunStatus.Failed);
  }

  lemma LostStorage(db: Db, st: Store, intent: O.Intent, p: Proposal, w: string)
    requires Lost(db, intent, w) && RowsFree(st, intent) && intent.request.runId in db.runs
    requires db.runs[intent.request.runId].status == Normalizing && intent.frontier.snapshot.currentBest != []
    ensures var (after, stored, ending) := I.StoreStep(db, st, intent, GraphOf(intent.request.topic, Graph(intent, p)), w);
      && ending.Some? && ending.value.Unacknowledged? && after.items == db.items
      && StoresGraph(st, stored, intent, p, ending.value.report) && RunBecomes(db, after, intent.request.runId, RunCompleted)
  {
    FreeRows(st, intent, Finished, Some(UpdateOf(GraphOf(intent.request.topic, Graph(intent, p)))));
    LostStays(db, intent, w, RunCompleted);
  }

  lemma LostAcceptedQuarantine(db: Db, st: Store, intent: O.Intent, p: Proposal, w: string)
    requires Lost(db, intent, w) && RowsFree(st, intent) && intent.frontier.snapshot.currentBest != []
    requires IsAccepted(db, intent, p) && Graph(intent, p).Quarantined()
    ensures var (after, stored, ending) :=
        I.QuarantineStep(O.WithStatus(db, intent.request.runId, Normalizing, None), st, intent, w);
      ending.Some? && LostEnds(db, st, intent, I.Produced(p), after, stored, ending.value)
  {
    LostStays(db, intent, w, Normalizing);
    LostQuarantine(O.WithStatus(db, intent.request.runId, Normalizing, None), st, intent, w);
  }

  lemma LostAcceptedStorage(db: Db, st: Store, intent: O.Intent, p: Proposal, w: string)
    requires Lost(db, intent, w) && RowsFree(st, intent) && intent.frontier.snapshot.currentBest != []
    requires IsAccepted(db, intent, p) && !Graph(intent, p).Quarantined()
    ensures var (after, stored, ending) :=
        I.StoreStep(O.WithStatus(db, intent.request.runId, Normalizing, None), st, intent,
                    GraphOf(intent.request.topic, Graph(intent, p)), w);
      ending.Some? && LostEnds(db, st, intent, I.Produced(p), after, stored, ending.value)
  {
    LostStays(db, intent, w, Normalizing);
    LostStorage(O.WithStatus(db, intent.request.runId, Normalizing, None), st, intent, p, w);
  }

  lemma LostAccepted(db: Db, st: Store, intent: O.Intent, p: Proposal, w: string)
    requires Lost(db, intent, w) && RowsFree(st, intent) && intent.frontier.snapshot.currentBest != []
    requires IsAccepted(db, intent, p)
    ensures var (after, stored, ending) :=
        I.PersistStep(O.WithStatus(db, intent.request.runId, Normalizing, None), st, intent, p, w);
      ending.Some? && LostEnds(db, st, intent, I.Produced(p), after, stored, ending.value)
  {
    if Graph(intent, p).Quarantined() { LostAcceptedQuarantine(db, st, intent, p, w); } else { LostAcceptedStorage(db, st, intent, p, w); }
  }

  lemma LostEnding(db: Db, st: Store, intent: O.Intent, end: I.RuntimeEnd, w: string, now: int)
    requires Lost(db, intent, w) && RowsFree(st, intent) && intent.frontier.snapshot.currentBest != []
    ensures var (after, stored, ending) := I.ExecuteStep(db, st, intent, end, w, now);
      LostEnds(db, st, intent, end, after, stored, ending)
  {
    match end
    case Broke(code, retryable) => LostFailure(db, st, intent, FailedRun, code, retryable, w, now);
    case Produced(p) =>
      IsAcceptedIff(db, intent, p);
      forall f { NotAcceptedIff(db, intent, p, f); }
      if IsAccepted(db, intent, p) {
        LostAccepted(db, st, intent, p, w);
      } else {
        LostFailure(db, st, intent, Quarantined, MalformedProposal, false, w, now);
      }
  }

  // ----- the scheduled service

  ghost predicate ServiceFails(
    db: Db, st: Store, intent: O.Intent, code: FailureCode, after: Db, stored: Store, d: S.Decision)
  {
    && d == S.Terminated(code) && ItemMeets(db, after, intent.item, Buried(code))
    && RunBecomes(db, after, intent.request.runId, DeadLetter)
    && exists r :: StoresReport(st, stored, intent, FailedRun, r)
  }

  /** How a started scheduled run ends whose item is claimed for it and whose rows are free: like an interactive one, except
      that a retryable failure follows the service's back-off and is not reported, a failed run's report is never marked
      quarantined, and a pin that was moved meanwhile is handled rather than raised. */
  ghost predicate ScheduledEnds(
    db: Db, st: Store, intent: O.Intent, end: I.RuntimeEnd, now: int, after: Db, stored: Store, d: S.Decision)
    requires intent.frontier.snapshot.currentBest != []
  {
    match end
    case Broke(code, retryable) =>
      if retryable then
        intent.item in db.items && stored == st
        && ServiceSettled(db, after, intent.item, intent.request.runId, RetryFate(db.items[intent.item], code, now), d)
      else ServiceFails(db, st, intent, code, after, stored, d)
    case Produced(p) =>
      if IsAccepted(db, intent, p) then
        if Graph(intent, p).Quarantined()
        then d == S.Terminated(MalformedProposal) &&
          exists r :: InteractiveQuarantines(db, st, intent, after, stored, I.QuarantineReported(r))
        else d == S.Acknowledged && exists r :: InteractiveStores(db, st, intent, p, after, stored, I.Persisted(r))
      else if NotAccepted(db, intent, p, O.StaleSnapshot) then ServiceFails(db, st, intent, QueueMutationMismatch, after, stored, d)
      else ServiceFails(db, st, intent, MalformedProposal, after, stored, d)
  }

  lemma OwnedNamesItself(db: Db, i: string, r: string, w: string)
    requires Owned(db, i, r, w)
    ensures S.MutationOwner(S.FailIfPossible(db, r), i, r, w) == Owner(Some(r), Some(w))
  {
    FailingKeepsOwned(db, i, r, w);
  }

  lemma ScheduledFailure(db: Db, st: Store, intent: O.Intent, code: FailureCode, w: string, now: int)
    requires Owned(db, intent.item, intent.request.runId, w) && RowsFree(st, intent)
    ensures var (after, stored, d) := R.HandleFailure(db, st, intent, w, code, false, now);
      ServiceFails(db, st, intent, code, after, stored, d)
  {
    var stored := R.HandleFailure(db, st, intent, w, code, false, now).1;
    FreeRows(st, intent, FailedRun, None);
    OwnedNamesItself(db, intent.item, intent.request.runId, w);
    FailedIsBuried(db, intent.item, intent.request.runId, w, code);
    assert StoresReport(st, stored, intent, FailedRun, ReportOf(intent, FailedRun, None));
  }

  lemma ScheduledAccepts(db: Db, st: Store, intent: O.Intent, p: Proposal, w: string, now: int)
    requires Owned(db, intent.item, intent.request.runId, w) && RowsFree(st, intent)
    requires intent.frontier.snapshot.currentBest != [] && IsAccepted(db, intent, p)
    ensures var (after, stored, d) := R.FinishStep(db, st, intent, I.Produced(p), w, now);
      ScheduledEnds(db, st, intent, I.Produced(p), now, after, stored, d)
  {
    IsAcceptedIff(db, intent, p);
    AcceptedPersists(db, st, intent, p, w);
    var ending := I.PersistStep(O.WithStatus(db, intent.request.runId, Normalizing, None), st, intent, p, w).2;
    assert ending == Some(I.QuarantineReported(ending.value.report)) || ending == Some(I.Persisted(ending.value.report));
  }

  lemma ScheduledRefuses(db: Db, st: Store, intent: O.Intent, p: Proposal, w: string, now: int)
    requires Owned(db, intent.item, intent.request.runId, w) && RowsFree(st, intent)
    requires intent.frontier.snapshot.currentBest != [] && !IsAccepted(db, intent, p)
    ensures var (after, stored, d) := R.FinishStep(db, st, intent, I.Produced(p), w, now);
      ScheduledEnds(db, st, intent, I.Produced(p), now, after, stored, d)
  {
    IsAcceptedIff(db, intent, p);
    forall f { NotAcceptedIff(db, intent, p, f); }
    ScheduledFailure(db, st, intent, MalformedProposal, w, now);
    ScheduledFailure(db, st, intent, QueueMutationMismatch, w, now);
  }

  lemma ScheduledEnding(db: Db, st: Store, intent: O.Intent, end: I.RuntimeEnd, w: string, now: int)
    requires Owned(db, intent.item, intent.request.runId, w) && RowsFree(st, intent)
    requires intent.frontier.snapshot.currentBest != []
    ensures var (after, stored, d) := R.FinishStep(db, st, intent, end, w, now);
      ScheduledEnds(db, st, intent, end, now, after, stored, d)
  {
    match end
    case Broke(code, retryable) =>
      if retryable {
        RetryEnds(db, intent.item, intent.request.runId, w, code, now);
      } else {
        ScheduledFailure(db, st, intent, code, w, now);
      }
    case Produced(p) =>
      if IsAccepted(db, intent, p) {
        ScheduledAccepts(db, st, intent, p, w, now);
      } else {
        ScheduledRefuses(db, st, intent, p, w, now);
      }
  }
}
