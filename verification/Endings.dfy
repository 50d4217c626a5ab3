/** How whole executions end, read off the tables: what becomes of the queue item and its run, and what is answered, for every
    way a start can fail and every way a started execution can end. */
module Endings {
  import opened Prelude
  import opened Failures
  import opened LedgerModel
  import opened LedgerSafety
  import opened LedgerEffects
  import opened StartLaws
  import opened Resumption
  import RunLifecycle
  import O = Orchestrator
  import W = QueueWorker
  import S = Scheduled

  /** What becomes of an item: acknowledged, requeued until an instant, dead-lettered, or left to the worker holding it. */
  datatype Fate = Acked | Requeued(code: FailureCode, at: int) | Buried(code: FailureCode) | Held(worker: string, since: int)

  ghost predicate Meets(before: Item, after: Item, fate: Fate) {
    match fate
    case Acked => after == before.(state := Completed, claimedBy := None, claimedAt := None)
    case Requeued(code, at) =>
      after == before.(state := Queued, claimedBy := None, claimedAt := None, attempts := before.attempts + 1,
                       availableAt := at, lastFailure := Some(Name(code)))
    case Buried(code) =>
      after == before.(state := DeadLettered, claimedBy := None, claimedAt := None, attempts := before.attempts + 1,
                       lastFailure := Some(Name(code)))
    case Held(w, since) => after == before.(state := Claimed, claimedBy := Some(w), claimedAt := Some(since))
  }

  /** Item i meets its fate and no other item changes. */
  ghost predicate ItemMeets(before: Db, after: Db, i: string, fate: Fate) {
    && i in before.items && after.items.Keys == before.items.Keys && Meets(before.items[i], after.items[i], fate)
    && forall j :: j in before.items && j != i ==> after.items[j] == before.items[j]
  }

  /** The item of a run that is worked on: claimed by the worker for the run. */
  ghost predicate Owned(db: Db, i: string, r: string, w: string) {
    i in db.items && db.items[i].state == Claimed && db.items[i].claimedBy == Some(w) && i in db.links && db.links[i] == r
    && r in db.runs
  }

  // ----- settling an owned item

  lemma OwnedAcks(db: Db, i: string, r: string, w: string)
    requires Owned(db, i, r, w)
    ensures CompleteStep(db, i, r, w).1 == Done && ItemMeets(db, CompleteStep(db, i, r, w).0, i, Acked)
    ensures CompleteStep(db, i, r, w).0.runs == db.runs
  {
  }

  lemma OwnedRequeues(db: Db, i: string, r: string, w: string, code: FailureCode, at: int)
    requires Owned(db, i, r, w)
    ensures var (after, reply) := RetryStep(db, i, Owner(Some(r), Some(w)), Name(code), at);
      reply == Done && ItemMeets(db, after, i, Requeued(code, at)) && after.runs == db.runs
  {
  }

  lemma OwnedIsBuried(db: Db, i: string, r: string, w: string, code: FailureCode)
    requires Owned(db, i, r, w)
    ensures var (after, reply) := DeadLetterStep(db, i, Owner(Some(r), Some(w)), Name(code));
      reply == Done && ItemMeets(db, after, i, Buried(code)) && after.runs == db.runs[r := db.runs[r].(status := DeadLetter)]
  {
  }

  lemma UnownedIsBuried(db: Db, i: string, code: FailureCode)
    requires i in db.items
    ensures var (after, reply) := DeadLetterStep(db, i, Owner(None, None), Name(code));
      reply == Done && ItemMeets(db, after, i, Buried(code)) && after.runs == db.runs
  {
  }

  lemma UnownedRequeues(db: Db, i: string, code: FailureCode, at: int)
    requires i in db.items
    ensures var (after, reply) := RetryStep(db, i, Owner(None, None), Name(code), at);
      reply == Done && ItemMeets(db, after, i, Requeued(code, at)) && after.runs == db.runs
  {
  }

  /** What a fate is, seen from before the claim that preceded it. */
  lemma FateFromBeforeClaim(db: Db, held: Db, after: Db, i: string, w: string, since: int, fate: Fate)
    requires i in db.items && db.items[i].state == Queued && Holds(db, held, i, w, since) && ItemMeets(held, after, i, fate)
    ensures ItemMeets(db, after, i, fate)
  {
  }

  /** The back-off a failure starts from, in seconds; none for failures that are final. */
  ghost function BackoffSeconds(code: FailureCode): Option<nat> {
    if code in {RunnerHostUnavailable, CodexTransportTimeout, CodexProcessCrash} then Some(60)
    else if code == ConcurrentSessionMutation then Some(30)
    else if code == OutputSchemaValidationFailed then Some(90)
    else if code == RefreshFailed then Some(120)
    else if code == StaleSession then Some(300)
    else None
  }

  lemma PolicyIs(code: FailureCode)
    ensures PolicyOf(code) == match BackoffSeconds(code) case Some(seconds) => Backoff(seconds) case None => Terminal
  {
  }

  /** When an item becomes available again after its first, second, ... failure: the back-off doubles each time. */
  ghost function BackUntil(code: FailureCode, attempts: nat, now: int): int {
    match BackoffSeconds(code)
    case None => now
    case Some(seconds) => now + seconds * 1_000_000 * W.Pow2(attempts)
  }

  // ----- a start leaves an owned item

  lemma RowKeepsConsistent(db: Db, r: string, row: RunRow)
    requires Consistent(db) && r in db.runs
    requires row.topic == db.runs[r].topic && row.item == db.runs[r].item && row.key == db.runs[r].key
    ensures Consistent(db.(runs := db.runs[r := row]))
  {
  }

  lemma StartKeepsLinks(db: Db, i: string, r: string, w: string, mode: RunMode, now: int)
    requires Sound(db) && MayClaim(db, i, r, now)
    ensures var claimed := ClaimStep(db, i, w, r, mode, now).0; i in claimed.links && claimed.links[i] == r && r in claimed.runs
  {
    ClaimedIsSame(db, i, w, r, mode, now);
    LinkRead(ClaimStep(db, i, w, r, mode, now).0, i);
  }

  lemma StartOwns(db: Db, i: string, r: string, w: string, mode: RunMode, expected: Option<nat>, now: int)
    requires Sound(db) && MayClaim(db, i, r, now) && db.items[i].state == Queued
    ensures Owned(O.StartStep(db, i, r, w, mode, expected, now).0, i, r, w)
    ensures Holds(db, O.StartStep(db, i, r, w, mode, expected, now).0, i, w, now)
  {
    StartLeaves(db, i, r, w, mode, expected, now);
    StartKeepsLinks(db, i, r, w, mode, now);
    StartIsClaimAndGo(db, i, r, w, mode, expected, now);
    var claimed := ClaimStep(db, i, w, r, mode, now).0;
    if claimed.runs[r].status == RunQueued { LaunchMovesOnlyTheRun(claimed, i, r, mode, expected); }
  }

  // ----- the queue worker

  ghost function NackFate(it: Item, code: FailureCode, now: int): Fate {
    if BackoffSeconds(code) == None || it.attempts + 1 >= it.maxAttempts then Buried(code)
    else Requeued(code, BackUntil(code, it.attempts, now))
  }

  /** What an outcome makes of the item of a worker; None when the worker only raises. */
  ghost function WorkerFate(it: Item, outcome: W.Outcome, now: int): Option<Fate> {
    match outcome
    case Succeeds => Some(Acked)
    case Retryable(code) => Some(NackFate(it, code, now))
    case Fatal(code) => Some(Buried(code))
    case RuntimeFailure(code, retryable) => Some(if retryable then NackFate(it, code, now) else Buried(code))
    case Unusable => Some(Buried(QueueMutationMismatch))
    case Mismatch => None
    case Crash => Some(NackFate(it, RunnerHostUnavailable, now))
  }

  ghost predicate WorkerSays(fate: Option<Fate>, result: W.Result) {
    match fate
    case Some(Acked) => result == W.Finished
    case Some(Requeued(code, _)) => result == W.Requeued(code)
    case Some(Buried(code)) => result == W.Buried(code)
    case _ => result == W.Raised(W.ClaimMismatch)
  }

  ghost predicate WorkerSettled(db: Db, after: Db, i: string, r: string, fate: Option<Fate>, result: W.Result)
    requires r in db.runs
  {
    && WorkerSays(fate, result)
    && (match fate case Some(f) => ItemMeets(db, after, i, f) case None => after == db)
    && after.runs == (if fate.Some? && fate.value.Buried? then db.runs[r := db.runs[r].(status := DeadLetter)] else db.runs)
  }

  lemma BackUntilIs(code: FailureCode, attempts: nat, now: int)
    ensures W.NextAvailableAt(PolicyOf(code), attempts, now) == BackUntil(code, attempts, now)
    ensures PolicyOf(code) == Terminal <==> BackoffSeconds(code) == None
  {
    PolicyIs(code);
  }

  lemma NackBuries(db: Db, i: string, r: string, w: string, code: FailureCode, now: int)
    requires Owned(db, i, r, w) && NackFate(db.items[i], code, now).Buried?
    ensures var (after, result) := W.NackStep(db, i, r, w, code, now);
      WorkerSettled(db, after, i, r, Some(Buried(code)), result)
  {
    BackUntilIs(code, db.items[i].attempts, now);
    OwnedIsBuried(db, i, r, w, code);
  }

  lemma NackRequeues(db: Db, i: string, r: string, w: string, code: FailureCode, now: int)
    requires Owned(db, i, r, w) && !NackFate(db.items[i], code, now).Buried?
    ensures var (after, result) := W.NackStep(db, i, r, w, code, now);
      WorkerSettled(db, after, i, r, Some(NackFate(db.items[i], code, now)), result)
  {
    BackUntilIs(code, db.items[i].attempts, now);
    OwnedRequeues(db, i, r, w, code, BackUntil(code, db.items[i].attempts, now));
  }

  lemma NackEnds(db: Db, i: string, r: string, w: string, code: FailureCode, now: int)
    requires Owned(db, i, r, w)
    ensures var (after, result) := W.NackStep(db, i, r, w, code, now);
      WorkerSettled(db, after, i, r, Some(NackFate(db.items[i], code, now)), result)
  {
    if NackFate(db.items[i], code, now).Buried? { NackBuries(db, i, r, w, code, now); } else { NackRequeues(db, i, r, w, code, now); }
  }

  lemma WorkerSettles(db: Db, i: string, r: string, w: string, outcome: W.Outcome, now: int)
    requires Owned(db, i, r, w)
    ensures var (after, result) := W.SettleStep(db, i, r, w, outcome, now);
      WorkerSettled(db, after, i, r, WorkerFate(db.items[i], outcome, now), result)
  {
    match outcome
    case Succeeds => OwnedAcks(db, i, r, w);
    case Retryable(code) => NackEnds(db, i, r, w, code, now);
    case Fatal(code) => OwnedIsBuried(db, i, r, w, code);
    case RuntimeFailure(code, retryable) =>
      if retryable { NackEnds(db, i, r, w, code, now); } else { OwnedIsBuried(db, i, r, w, code); }
    case Unusable => OwnedIsBuried(db, i, r, w, QueueMutationMismatch);
    case Mismatch =>
    case Crash => NackEnds(db, i, r, w, RunnerHostUnavailable, now);
  }

  /** The kinds of job the worker executes, and those it knows but refuses. */
  ghost predicate Executable(it: Item) {
    it.kind in {"run.execute", "run.resume", "user_input.process", "topic.refresh_schedule", "graph.repair"}
  }

  ghost predicate KnownOnly(it: Item) {
    it.kind in {"topic.bootstrap", "session.healthcheck"}
  }

  /** The outcome a failed start counts as: terminal if another run has the item or its snapshot or payload is unusable, and a
      failure of the host otherwise. */
  ghost function StartOutcome(f: O.Failure): W.Outcome {
    if f == O.LedgerRefused(DuplicateRunStart) || f == O.MissingSnapshot || f == O.StaleSnapshot || f == O.InvalidSnapshot
       || f == O.MalformedInput
    then W.Unusable else W.Crash
  }

  lemma StartOutcomeIs(f: O.Failure)
    ensures W.OutcomeOf(f) == StartOutcome(f)
  {
  }

  lemma KindsAre(it: Item)
    ensures Executable(it) <==> it.kind in W.SUPPORTED_KINDS && it.kind in W.JOB_KINDS
    ensures KnownOnly(it) <==> it.kind !in W.SUPPORTED_KINDS && it.kind in W.JOB_KINDS
  {
    assert W.JOB_KINDS == {"run.execute", "run.resume", "user_input.process", "topic.refresh_schedule", "graph.repair"}
      + {"topic.bootstrap", "session.healthcheck"};
    KnownIsNotExecutable("topic.bootstrap", "session.healthcheck");
  }

  lemma KnownIsNotExecutable(a: string, b: string)
    requires a == "topic.bootstrap" && b == "session.healthcheck"
    ensures a !in W.SUPPORTED_KINDS && b !in W.SUPPORTED_KINDS
  {
    assert |a| == 15 && |b| == 19;
    assert forall k :: k in W.SUPPORTED_KINDS ==> |k| == 11 || |k| == 10 || |k| == 18 || |k| == 22 || |k| == 12;
  }

  lemma ExecutionIsStartAndSettlement(
    db: Db, i: string, r: string, w: string, handled: W.Outcome, claimedAt: int, now: int, answer: O.Answer)
    requires i in db.items && db.items[i].state == Queued && Executable(db.items[i])
    requires O.StartStep(db, i, r, w, Scheduled, None, claimedAt).1 == answer
    ensures W.ExecuteStep(db, i, r, w, handled, claimedAt, now) ==
      W.SettleStep(O.StartStep(db, i, r, w, Scheduled, None, claimedAt).0, i, r, w,
                   if answer.Ok? then handled else StartOutcome(answer.failure), now)
  {
    KindsAre(db.items[i]);
    if answer.Err? { StartOutcomeIs(answer.failure); }
  }

  ghost predicate WorkerEnded(
    db: Db, started: Db, after: Db, i: string, r: string, w: string, claimedAt: int, fate: Option<Fate>, result: W.Result)
  {
    && r in started.runs && WorkerSettled(started, after, i, r, fate, result)
    && ItemMeets(db, after, i, match fate case Some(f) => f case None => Held(w, claimedAt))
  }

  lemma SettlementEnds(
    db: Db, started: Db, i: string, r: string, w: string, outcome: W.Outcome, claimedAt: int, now: int)
    requires i in db.items && db.items[i].state == Queued && Holds(db, started, i, w, claimedAt) && Owned(started, i, r, w)
    ensures var (after, result) := W.SettleStep(started, i, r, w, outcome, now);
      WorkerEnded(db, started, after, i, r, w, claimedAt, WorkerFate(db.items[i], outcome, now), result)
  {
    var after := W.SettleStep(started, i, r, w, outcome, now).0;
    WorkerSettles(started, i, r, w, outcome, now);
    WorkerFateFromBefore(db, started, i, w, claimedAt, outcome, now);
    match WorkerFate(db.items[i], outcome, now)
    case Some(fate) => FateFromBeforeClaim(db, started, after, i, w, claimedAt, fate);
    case None =>
  }

  /** A worker's execution that begins on a queued item of an executable kind with a permitted claim: the handler decides if
      the start succeeded, and the failure to start otherwise. */
  lemma WorkerEnds(
    db: Db, i: string, r: string, w: string, handled: W.Outcome, claimedAt: int, now: int, answer: O.Answer)
    requires Sound(db) && MayClaim(db, i, r, claimedAt) && db.items[i].state == Queued && Executable(db.items[i])
    requires O.StartStep(db, i, r, w, Scheduled, None, claimedAt).1 == answer
    ensures var outcome := if answer.Ok? then handled else StartOutcome(answer.failure);
      var (after, result) := W.ExecuteStep(db, i, r, w, handled, claimedAt, now);
      WorkerEnded(db, O.StartStep(db, i, r, w, Scheduled, None, claimedAt).0, after, i, r, w, claimedAt,
                  WorkerFate(db.items[i], outcome, now), result)
  {
    ExecutionIsStartAndSettlement(db, i, r, w, handled, claimedAt, now, answer);
    StartOwns(db, i, r, w, Scheduled, None, claimedAt);
    SettlementEnds(db, O.StartStep(db, i, r, w, Scheduled, None, claimedAt).0, i, r, w,
                   if answer.Ok? then handled else StartOutcome(answer.failure), claimedAt, now);
  }

  /** A queued item of a kind the worker does not execute is dead-lettered, or counts as a failure of the host if the kind is
      unknown; neither touches a run. */
  lemma WorkerRefusesKind(db: Db, i: string, r: string, w: string, handled: W.Outcome, claimedAt: int, now: int)
    requires i in db.items && db.items[i].state == Queued && !Executable(db.items[i])
    ensures var (after, result) := W.ExecuteStep(db, i, r, w, handled, claimedAt, now);
      && after.runs == db.runs
      && if KnownOnly(db.items[i])
         then result == W.Buried(QueueMutationMismatch) && ItemMeets(db, after, i, Buried(QueueMutationMismatch))
         else if db.items[i].attempts + 1 >= db.items[i].maxAttempts
         then result == W.Buried(RunnerHostUnavailable) && ItemMeets(db, after, i, Buried(RunnerHostUnavailable))
         else result == W.Raised(W.ClaimMismatch) && after == db
  {
    KindsAre(db.items[i]);
    UnownedIsBuried(db, i, QueueMutationMismatch);
    UnownedIsBuried(db, i, RunnerHostUnavailable);
  }

  lemma WorkerFateFromBefore(db: Db, held: Db, i: string, w: string, since: int, outcome: W.Outcome, now: int)
    requires Holds(db, held, i, w, since)
    ensures WorkerFate(held.items[i], outcome, now) == WorkerFate(db.items[i], outcome, now)
  {
  }

  /** What a worker answers without executing. */
  lemma WorkerPassesOver(db: Db, i: string, r: string, w: string, handled: W.Outcome, claimedAt: int, now: int)
    ensures var (after, result) := W.ExecuteStep(db, i, r, w, handled, claimedAt, now);
      && (result == W.InProgress <==> i in db.items && db.items[i].state == Claimed)
      && (result.Ignored? <==> i in db.items && (db.items[i].state == Completed || db.items[i].state == DeadLettered))
      && (result.Ignored? ==> result.state == db.items[i].state)
      && (i !in db.items ==> result == W.Raised(W.NoSuchItem))
      && (result == W.InProgress || result.Ignored? || i !in db.items ==> after == db)
  {
    SettlingAnswers(O.StartStep(db, i, r, w, Scheduled, None, claimedAt).0, i, r, w, handled, now);
    SettlingAnswers(db, i, r, w, W.Crash, now);
    SettlingAnswers(db, i, r, w, W.Fatal(QueueMutationMismatch), now);
    var answer := O.StartStep(db, i, r, w, Scheduled, None, claimedAt).1;
    if answer.Err? {
      SettlingAnswers(O.StartStep(db, i, r, w, Scheduled, None, claimedAt).0, i, r, w, W.OutcomeOf(answer.failure), now);
    }
  }

  lemma SettlingAnswers(db: Db, i: string, r: string, w: string, outcome: W.Outcome, now: int)
    ensures var result := W.SettleStep(db, i, r, w, outcome, now).1; result != W.InProgress && !result.Ignored?
  {
  }

  // ----- the scheduled service

  ghost function RetryFate(it: Item, code: FailureCode, now: int): Fate {
    if it.attempts + 1 < it.maxAttempts then Requeued(code, BackUntil(code, it.attempts, now)) else Buried(code)
  }

  ghost function EndFate(it: Item, end: S.RunEnd, now: int): Fate {
    match end
    case Stored => Acked
    case QuarantinedRun => Buried(MalformedProposal)
    case RuntimeFailed(code, retryable) => if retryable then RetryFate(it, code, now) else Buried(code)
    case Uncompetitive => Buried(MalformedProposal)
  }

  ghost predicate ServiceSays(fate: Fate, d: S.Decision) {
    match fate
    case Acked => d == S.Acknowledged
    case Requeued(code, _) => d == S.Retried(code)
    case Buried(code) => d == S.Terminated(code)
    case Held(_, _) => false
  }

  /** The item meets its fate, the decision says so, and a dead-letter takes the run with it. */
  ghost predicate ServiceSettled(db: Db, after: Db, i: string, r: string, fate: Fate, d: S.Decision) {
    && ServiceSays(fate, d) && ItemMeets(db, after, i, fate)
    && r in db.runs && after.runs == if fate.Buried? then db.runs[r := db.runs[r].(status := DeadLetter)] else db.runs
  }

  lemma FailingKeepsOwned(db: Db, i: string, r: string, w: string)
    requires Owned(db, i, r, w)
    ensures var failed := S.FailIfPossible(db, r);
      && Owned(failed, i, r, w) && failed.items == db.items
      && failed.runs[r := failed.runs[r].(status := DeadLetter)] == db.runs[r := db.runs[r].(status := DeadLetter)]
  {
  }

  lemma FailedIsBuried(db: Db, i: string, r: string, w: string, code: FailureCode)
    requires Owned(db, i, r, w)
    ensures var (after, reply) := DeadLetterStep(S.FailIfPossible(db, r), i, Owner(Some(r), Some(w)), Name(code));
      && reply == Done && ItemMeets(db, after, i, Buried(code))
      && after.runs == db.runs[r := db.runs[r].(status := DeadLetter)]
  {
    FailingKeepsOwned(db, i, r, w);
    OwnedIsBuried(S.FailIfPossible(db, r), i, r, w, code);
  }

  lemma TerminalEnds(db: Db, i: string, r: string, w: string, code: FailureCode, started: bool)
    requires Owned(db, i, r, w)
    ensures var (after, d) := S.TerminalStep(db, i, r, w, code, started); ServiceSettled(db, after, i, r, Buried(code), d)
  {
    FailingKeepsOwned(db, i, r, w);
    FailedIsBuried(db, i, r, w, code);
    OwnedIsBuried(db, i, r, w, code);
  }

  lemma RetryEnds(db: Db, i: string, r: string, w: string, code: FailureCode, now: int)
    requires Owned(db, i, r, w)
    ensures var (after, d) := S.RuntimeRetryStep(db, i, r, w, code, now);
      ServiceSettled(db, after, i, r, RetryFate(db.items[i], code, now), d)
  {
    if RetryFate(db.items[i], code, now).Buried? {
      FailedIsBuried(db, i, r, w, code);
    } else {
      BackUntilIs(code, db.items[i].attempts, now);
      OwnedRequeues(db, i, r, w, code, BackUntil(code, db.items[i].attempts, now));
    }
  }

  lemma EndSettles(db: Db, i: string, r: string, w: string, end: S.RunEnd, now: int)
    requires Owned(db, i, r, w)
    ensures var (after, d) := S.EndStep(db, i, r, w, end, true, now);
      ServiceSettled(db, after, i, r, EndFate(db.items[i], end, now), d)
  {
    match end
    case Stored => OwnedAcks(db, i, r, w);
    case QuarantinedRun => OwnedIsBuried(db, i, r, w, MalformedProposal);
    case RuntimeFailed(code, retryable) =>
      if retryable { RetryEnds(db, i, r, w, code, now); } else { TerminalEnds(db, i, r, w, code, true); }
    case Uncompetitive => TerminalEnds(db, i, r, w, MalformedProposal, true);
  }

  /** What a failed start is recorded as: an unusable snapshot or payload, or a second run for the item, under one code; a run
      that cannot be resumed under another; anything else escapes. */
  ghost function StartCode(f: O.Failure): Option<FailureCode> {
    if f == O.LedgerRefused(DuplicateRunStart) || f == O.MissingSnapshot || f == O.StaleSnapshot || f == O.InvalidSnapshot
       || f == O.MalformedInput
    then Some(QueueMutationMismatch)
    else if f == O.InvalidTransition || f == O.RunFailed || f == O.RunTerminal || f == O.NotReady || f == O.NotPinned
    then Some(MalformedProposal)
    else None
  }

  lemma StartCodeIs(f: O.Failure)
    ensures S.StartFailure(f) == StartCode(f)
  {
  }

  ghost predicate ServiceEnded(db: Db, started: Db, after: Db, i: string, r: string, fate: Fate, d: S.Decision) {
    ServiceSettled(started, after, i, r, fate, d) && ItemMeets(db, after, i, fate)
  }

  lemma StartedServiceEnds(
    db: Db, started: Db, i: string, r: string, w: string, end: S.RunEnd, claimedAt: int, now: int)
    requires i in db.items && db.items[i].state == Queued && Holds(db, started, i, w, claimedAt) && Owned(started, i, r, w)
    ensures var (after, d) := S.EndStep(started, i, r, w, end, true, now);
      ServiceEnded(db, started, after, i, r, EndFate(db.items[i], end, now), d)
  {
    EndSettles(started, i, r, w, end, now);
    EndFateFromBefore(db, started, i, w, claimedAt, end, now);
    FateFromBeforeClaim(
      db, started, S.EndStep(started, i, r, w, end, true, now).0, i, w, claimedAt, EndFate(db.items[i], end, now));
  }

  lemma EndFateFromBefore(db: Db, held: Db, i: string, w: string, since: int, end: S.RunEnd, now: int)
    requires Holds(db, held, i, w, since)
    ensures EndFate(held.items[i], end, now) == EndFate(db.items[i], end, now)
  {
  }

  lemma UnstartedServiceEnds(
    db: Db, started: Db, i: string, r: string, w: string, code: FailureCode, claimedAt: int)
    requires i in db.items && db.items[i].state == Queued && Holds(db, started, i, w, claimedAt) && Owned(started, i, r, w)
    ensures var (after, d) := S.TerminalStep(started, i, r, w, code, false);
      ServiceEnded(db, started, after, i, r, Buried(code), d)
  {
    TerminalEnds(started, i, r, w, code, false);
    FateFromBeforeClaim(db, started, S.TerminalStep(started, i, r, w, code, false).0, i, w, claimedAt, Buried(code));
  }

  lemma ClaimedStartHasCode(db: Db, i: string, r: string, w: string, claimedAt: int, answer: O.Answer)
    requires Sound(db) && MayClaim(db, i, r, claimedAt)
    requires O.StartStep(db, i, r, w, Scheduled, None, claimedAt).1 == answer
    ensures answer.Ok? || StartCode(answer.failure).Some?
  {
    if answer.Err? { ClaimedFails(db, i, r, w, Scheduled, None, claimedAt, answer.failure); }
  }

  /** The part of a scheduled execution under the lease, on a queued item with a permitted claim. */
  lemma ServiceEnds(
    db: Db, i: string, r: string, w: string, end: S.RunEnd, claimedAt: int, now: int, answer: O.Answer)
    requires Sound(db) && MayClaim(db, i, r, claimedAt) && db.items[i].state == Queued
    requires O.StartStep(db, i, r, w, Scheduled, None, claimedAt).1 == answer
    ensures answer.Ok? || StartCode(answer.failure).Some?
    ensures var fate := if answer.Ok? then EndFate(db.items[i], end, now) else Buried(StartCode(answer.failure).value);
      var (after, d) := S.LeasedStep(db, i, r, w, end, claimedAt, now);
      ServiceEnded(db, O.StartStep(db, i, r, w, Scheduled, None, claimedAt).0, after, i, r, fate, d)
  {
    var started := O.StartStep(db, i, r, w, Scheduled, None, claimedAt).0;
    ClaimedStartHasCode(db, i, r, w, claimedAt, answer);
    StartOwns(db, i, r, w, Scheduled, None, claimedAt);
    if answer.Ok? {
      StartedServiceEnds(db, started, i, r, w, end, claimedAt, now);
    } else {
      StartCodeIs(answer.failure);
      UnstartedServiceEnds(db, started, i, r, w, StartCode(answer.failure).value, claimedAt);
    }
  }

  /** With a claim that is not permitted: a second run for the item buries it without touching a run, and otherwise the start's
      exception escapes and nothing changes. */
  lemma ServiceIsRefused(db: Db, i: string, r: string, w: string, end: S.RunEnd, claimedAt: int, now: int)
    requires Sound(db) && i in db.items && db.items[i].state == Queued && !MayClaim(db, i, r, claimedAt)
    ensures var (after, d) := S.LeasedStep(db, i, r, w, end, claimedAt, now);
      if Available(db, i, claimedAt) && exists other :: other != r && RunOf(db, i, other)
      then d == S.Terminated(QueueMutationMismatch) && ItemMeets(db, after, i, Buried(QueueMutationMismatch)) && after.runs == db.runs
      else d == S.Escaped && after == db
  {
    ClaimAnswers(db, i, w, r, Scheduled, claimedAt);
    ClaimErrors(db, i, w, r, Scheduled, claimedAt);
    UnclaimedStart(db, i, r, w, Scheduled, None, claimedAt);
    UnownedIsBuried(db, i, QueueMutationMismatch);
  }

  /** A refusal before the claim: retried while attempts remain if it may be, and otherwise dead-lettered, in nobody's name. */
  lemma ServicePreclaims(db: Db, i: string, code: FailureCode, retryable: bool, now: int)
    requires i in db.items
    ensures var fate := if retryable then RetryFate(db.items[i], code, now) else Buried(code);
      var (after, d) := S.PreclaimStep(db, i, code, retryable, now);
      && ItemMeets(db, after, i, fate) && after.runs == db.runs
      && d == if fate.Buried? then S.Terminated(code) else S.Deferred(Some(code))
  {
    BackUntilIs(code, db.items[i].attempts, now);
    UnownedIsBuried(db, i, code);
    UnownedRequeues(db, i, code, BackUntil(code, db.items[i].attempts, now));
  }

  /** What the service answers without asking for a lease. */
  lemma ServicePassesOver(db: Db, i: string)
    ensures !S.Schedulable(db, i) <==>
      i !in db.items || db.items[i].state == Completed || db.items[i].state == DeadLettered || db.items[i].state == Claimed
    ensures i !in db.items ==> S.Unscheduled(db, i) == S.Escaped
    ensures i in db.items && db.items[i].state == Completed ==> S.Unscheduled(db, i) == S.DuplicateIgnored
    ensures i in db.items && db.items[i].state == DeadLettered ==> S.Unscheduled(db, i) == S.Deferred(None)
    ensures i in db.items && db.items[i].state == Claimed ==> S.Unscheduled(db, i) == S.Deferred(Some(DuplicateQueueDelivery))
  {
  }

  // ----- the scheduled service once the claim is lost

  /** The run is FAILED unless it has no handling of failures at its stage, or has ended. */
  ghost predicate RunFails(before: Db, after: Db, run: string) {
    && run in before.runs
    && after.runs == before.runs[run := before.runs[run].(
         status := if before.runs[run].status in {LoadingState, SelectingFrontier, CodexExecuting, Normalizing, Adjudicating,
                                                  RetiringWeakHypotheses, Persisting}
                   then RunStatus.Failed else before.runs[run].status)]
  }

  lemma FailIfPossibleFails(db: Db, run: string)
    requires run in db.runs
    ensures RunFails(db, S.FailIfPossible(db, run), run)
  {
    RunLifecycle.TableIs(db.runs[run].status, RunStatus.Failed);
  }

  /** The item is not, or no longer, claimed for the run. */
  ghost predicate NotForRun(db: Db, i: string, r: string) {
    i in db.items && !(db.items[i].state == Claimed && i in db.links && db.links[i] == r)
  }

  /** A terminal failure of a started run fails the run and still buries the item, in nobody's name. */
  lemma LostTerminalEnds(db: Db, i: string, r: string, w: string, code: FailureCode)
    requires NotForRun(db, i, r) && r in db.runs
    ensures var (after, d) := S.TerminalStep(db, i, r, w, code, true);
      d == S.Terminated(code) && ItemMeets(db, after, i, Buried(code)) && RunFails(db, after, r)
  {
    FailIfPossibleFails(db, r);
    UnownedIsBuried(S.FailIfPossible(db, r), i, code);
  }

  /** A retryable failure without the claim escapes and leaves the item alone; on the last attempt it still fails the run. */
  lemma LostRetryEnds(db: Db, i: string, r: string, w: string, code: FailureCode, now: int)
    requires i in db.items && r in db.runs && !OwnsClaim(db, i, Owner(Some(r), Some(w)))
    ensures var (after, d) := S.RuntimeRetryStep(db, i, r, w, code, now);
      && d == S.Escaped && after.items == db.items
      && if db.items[i].attempts + 1 >= db.items[i].maxAttempts then RunFails(db, after, r) else after == db
  {
    FailIfPossibleFails(db, r);
  }
}
