/** A run resumed while it executes is told what it was told when it started, whatever else the ledger does meanwhile,
    provided the mode it was started under is the mode its row records. */
module Resumption {
  import opened Prelude
  import opened Proposals
  import opened Competition
  import opened LedgerModel
  import opened LedgerSafety
  import opened RunLifecycle
  import opened Orchestrator

  ghost predicate SelfKeyed(stored: Snapshots) {
    forall k :: k in stored ==> stored[k].topic == k.0 && stored[k].version == k.1
  }

  lemma StepKeepsSelfKeyed(db: Db, op: Op)
    requires SelfKeyed(db.snapshots)
    ensures SelfKeyed(Apply(db, op).0.snapshots)
  {
    match op
    case Claim(_, _, _, _, _) =>
    case Retry(_, _, _, _) =>
    case Complete(_, _, _) =>
    case DeadLetterItem(_, _, _) =>
    case RecoverDeadLetter(_, _) =>
    case RecoverStale(_, _, _, _, _) =>
    case Reserve(_, _, _) =>
    case Enqueue(_, _) =>
    case StoreSnapshot(_) =>
    case Transition(_, _, _, _) =>
  }

  /** Callers pin a snapshot only together with a move to SELECTING_FRONTIER. */
  ghost predicate PinsProperly(op: Op) {
    op.Transition? && op.pin.Some? ==> op.to == SelectingFrontier
  }

  /** The run is in CODEX_EXECUTING after each of the operations. */
  ghost predicate KeepsExecuting(db: Db, ops: seq<Op>, r: string) {
    forall k :: 0 <= k <= |ops| ==> r in Run(db, ops[..k]).runs && Run(db, ops[..k]).runs[r].status == CodexExecuting
  }

  lemma PinStays(db: Db, op: Op, r: string)
    requires r in db.runs && PinsProperly(op)
    requires r in Apply(db, op).0.runs && Apply(db, op).0.runs[r].status == CodexExecuting
    ensures Apply(db, op).0.runs[r].snapshot == db.runs[r].snapshot
  {
    match op
    case Claim(_, _, _, _, _) =>
    case Retry(_, _, _, _) =>
    case Complete(_, _, _) =>
    case DeadLetterItem(_, _, _) =>
    case RecoverDeadLetter(_, _) =>
    case RecoverStale(_, _, _, _, _) =>
    case Reserve(_, _, _) =>
    case Enqueue(_, _) =>
    case StoreSnapshot(_) =>
    case Transition(_, _, _, _) =>
  }

  lemma {:induction false} GrowsAndPins(db: Db, ops: seq<Op>, r: string)
    requires forall op :: op in ops ==> PinsProperly(op)
    requires KeepsExecuting(db, ops, r) && r in db.runs
    ensures Grows(db, Run(db, ops))
    ensures Run(db, ops).runs[r].snapshot == db.runs[r].snapshot && Run(db, ops).runs[r].status == CodexExecuting
  {
    if |ops| == 0 {
      assert Run(db, ops[..0]) == db;
    } else {
      var init := ops[..|ops| - 1];
      forall k | 0 <= k <= |init|
        ensures r in Run(db, init[..k]).runs && Run(db, init[..k]).runs[r].status == CodexExecuting
      {
        assert init[..k] == ops[..k];
      }
      GrowsAndPins(db, init, r);
      assert ops[..|ops|] == ops;
      ApplyGrows(Run(db, init), ops[|ops| - 1]);
      PinStays(Run(db, init), ops[|ops| - 1], r);
    }
  }

  /** What a run in CODEX_EXECUTING is told on resumption, if it was launched with this intent. */
  ghost predicate LaunchedWith(db: Db, r: string, intent: Intent) {
    && r in db.runs
    && var row := db.runs[r];
      && row.status == CodexExecuting
      && row.snapshot == Some(intent.version)
      && row.item in db.items && SelectsItself(db.items[row.item], row.item)
      && (row.topic, intent.version) in db.snapshots
      && var s := db.snapshots[(row.topic, intent.version)];
        && s.currentBest != []
        && intent == IntentFor(db, r, row.item, intent.request.mode, s, CodexExecuting)
        && row.topic == s.topic && row.key == intent.request.key
  }

  lemma LaunchedRecords(
    db: Db, item: string, r: string, mode: RunMode, latest: Option<nat>, expected: Option<nat>, after: Db, intent: Intent)
    requires Consistent(db) && SelfKeyed(db.snapshots) && item in db.links && db.links[item] == r
    requires latest.Some? ==> HasVersion(db.snapshots, db.items[item].topic, latest.value)
    requires (after, Answer.Ok(intent)) == Launched(db, item, r, mode, latest, expected)
    ensures LaunchedWith(after, r, intent) && intent.request.mode == mode && after.runs[r].mode == db.runs[r].mode
  {
  }

  /** The run did not exist yet or was QUEUED, so that starting it launches it. */
  ghost predicate Unstarted(db: Db, r: string) {
    r in db.runs ==> db.runs[r].status == RunQueued
  }

  lemma ClaimFacts(db: Db, item: string, worker: string, r: string, mode: RunMode, now: int)
    requires Consistent(db) && Unstarted(db, r) && ClaimStep(db, item, worker, r, mode, now).1.Granted?
    ensures var db1 := ClaimStep(db, item, worker, r, mode, now).0;
      && Consistent(db1) && item in db1.links && db1.links[item] == r && db1.runs[r].status == RunQueued
      && db1.snapshots == db.snapshots && db1.runs[r].mode == if r in db.runs then db.runs[r].mode else mode
  {
    ClaimKeepsConsistent(db, item, worker, r, mode, now);
  }

  lemma StartRecords(
    db: Db, item: string, r: string, worker: string, mode: RunMode, expected: Option<nat>, now: int, after: Db, intent: Intent)
    requires Consistent(db) && SelfKeyed(db.snapshots) && Unstarted(db, r)
    requires (after, Answer.Ok(intent)) == StartStep(db, item, r, worker, mode, expected, now)
    ensures LaunchedWith(after, r, intent) && intent.request.mode == mode
    ensures after.runs[r].mode == if r in db.runs then db.runs[r].mode else mode
  {
    var (db1, reply) := ClaimStep(db, item, worker, r, mode, now);
    ClaimFacts(db, item, worker, r, mode, now);
    LaunchedRecords(db1, item, r, mode, Latest(db1.snapshots, db1.items[item].topic), expected, after, intent);
  }

  lemma ResumeAnswers(db: Db, now: Db, r: string, intent: Intent, expected: Option<nat>)
    requires LaunchedWith(db, r, intent) && Grows(db, now)
    requires now.runs[r].snapshot == db.runs[r].snapshot && now.runs[r].status == CodexExecuting
    requires expected.Some? ==> expected.value == intent.version
    ensures Resume(now, r, expected) == Answer.Ok(intent.(request := intent.request.(mode := db.runs[r].mode)))
  {
  }

  lemma ResumeRefuses(now: Db, r: string, version: nat, again: nat)
    requires r in now.runs && now.runs[r].snapshot == Some(version) && now.runs[r].status == CodexExecuting && again != version
    ensures Resume(now, r, Some(again)) == Err(StaleSnapshot)
  {
  }

  /** Whatever newer snapshots and other ledger operations intervene, while the run stays in CODEX_EXECUTING every resume
      that does not expect another version answers with the intent of the start, except that its mode is the recorded one. */
  lemma ResumeRepeatsTheStart(
    db: Db, item: string, r: string, worker: string, mode: RunMode, expected: Option<nat>, at: int,
    after: Db, intent: Intent, ops: seq<Op>, again: Option<nat>)
    requires Consistent(db) && SelfKeyed(db.snapshots) && Unstarted(db, r)
    requires (after, Answer.Ok(intent)) == StartStep(db, item, r, worker, mode, expected, at)
    requires (forall op :: op in ops ==> PinsProperly(op)) && KeepsExecuting(after, ops, r)
    ensures Resume(Run(after, ops), r, again) ==
      if again.Some? && again.value != intent.version then Err(StaleSnapshot)
      else Answer.Ok(intent.(request := intent.request.(mode := if r in db.runs then db.runs[r].mode else mode)))
  {
    StartRecords(db, item, r, worker, mode, expected, at, after, intent);
    GrowsAndPins(after, ops, r);
    if again.None? || again.value == intent.version {
      ResumeAnswers(after, Run(after, ops), r, intent, again);
    } else {
      ResumeRefuses(Run(after, ops), r, intent.version, again.value);
    }
  }

  /** So the resumed request is the started one exactly when the run was new or was started under its recorded mode. */
  lemma ResumeIsTheSameRequestIff(
    db: Db, item: string, r: string, worker: string, mode: RunMode, expected: Option<nat>, at: int,
    after: Db, intent: Intent, ops: seq<Op>)
    requires Consistent(db) && SelfKeyed(db.snapshots) && Unstarted(db, r)
    requires (after, Answer.Ok(intent)) == StartStep(db, item, r, worker, mode, expected, at)
    requires (forall op :: op in ops ==> PinsProperly(op)) && KeepsExecuting(after, ops, r)
    ensures Resume(Run(after, ops), r, None) == Answer.Ok(intent) <==> (r in db.runs ==> db.runs[r].mode == mode)
  {
    ResumeRepeatsTheStart(db, item, r, worker, mode, expected, at, after, intent, ops, None);
    StartRecords(db, item, r, worker, mode, expected, at, after, intent);
  }

  // ----- the mode can differ

  const OneSnapshot := Snapshot("t", 1, [HypothesisRef("h", "title", "summary")], [], [], "digest")

  const OneItem := Item("t", "run.execute", Queued, "r", "d", "k", 0, 1, 0, Payload("objective", ["q"]), None, None, None)

  const PREPARED: seq<Op> := [StoreSnapshot(OneSnapshot), Reserve("k", "digest", None), Enqueue("q", OneItem)]
  const CLAIM := Op.Claim("q", "web", "r", Interactive, 0)
  const RECOVERY := RecoverStale("q", RetryClaim, 60 * MICROS_PER_SECOND, None, 60)

  /** An interactive run claimed by a worker that stopped before launching it, and whose stale claim was then recovered. */
  const ABANDONED: seq<Op> := PREPARED + [CLAIM] + [RECOVERY]

  lemma PreparedLedger()
    ensures Run(EmptyDb(), PREPARED) ==
      Db(map["q" := OneItem], map[], map[], map["k" := KeyRow("digest", None)], map[("t", 1) := OneSnapshot], [])
  {
    assert PREPARED == [] + [StoreSnapshot(OneSnapshot)] + [Reserve("k", "digest", None)] + [Enqueue("q", OneItem)];
    RunOneMore([], StoreSnapshot(OneSnapshot));
    RunOneMore([] + [StoreSnapshot(OneSnapshot)], Reserve("k", "digest", None));
    RunOneMore([] + [StoreSnapshot(OneSnapshot)] + [Reserve("k", "digest", None)], Enqueue("q", OneItem));
  }

  lemma ClaimedLedger()
    ensures Run(EmptyDb(), PREPARED + [CLAIM]) == Db(
      map["q" := OneItem.(state := Claimed, claimedBy := Some("web"), claimedAt := Some(0))],
      map["r" := RunRow("t", "q", "k", Interactive, RunQueued, None)],
      map["q" := "r"], map["k" := KeyRow("digest", Some("r"))], map[("t", 1) := OneSnapshot], [])
  {
    PreparedLedger();
    RunOneMore(PREPARED, CLAIM);
  }

  lemma AbandonedLedger()
    ensures Run(EmptyDb(), ABANDONED) == Db(
      map["q" := OneItem.(availableAt := 60 * MICROS_PER_SECOND, lastFailure := Some("runner_host_unavailable"))],
      map["r" := RunRow("t", "q", "k", Interactive, RunQueued, None)],
      map["q" := "r"], map["k" := KeyRow("digest", Some("r"))], map[("t", 1) := OneSnapshot],
      [StaleRecovered("q", RetryClaim)])
  {
    ClaimedLedger();
    RunOneMore(PREPARED + [CLAIM], RECOVERY);
  }

  lemma AbandonedIsProper()
    ensures ProperHistory(ABANDONED)
  {
    forall op | op in ABANDONED ensures ProperOp(op) {
      assert op in PREPARED || op == CLAIM || op == RECOVERY;
    }
  }

  /** A reachable start whose resumption is a different request: the scheduled service starts the recovered interactive run,
      and resuming it asks for interactive mode. */
  lemma ResumeCanChangeTheMode()
    ensures ProperHistory(ABANDONED)
    ensures var (after, started) := StartStep(Run(EmptyDb(), ABANDONED), "q", "r", "w", Scheduled, None, 60 * MICROS_PER_SECOND);
      && started.Ok? && Resume(after, "r", None).Ok?
      && started.intent.request.mode == Scheduled
      && Resume(after, "r", None).intent.request.mode == Interactive
  {
    AbandonedIsProper();
    AbandonedLedger();
    var db, now := Run(EmptyDb(), ABANDONED), 60 * MICROS_PER_SECOND;
    var claimed := ClaimStep(db, "q", "w", "r", Scheduled, now).0;
    assert IsLatest(claimed.snapshots, "t", Some(1)) by {
      assert HasVersion(claimed.snapshots, "t", 1);
    }
    assert "q" in OneItem.payload.selected;
  }

  // ----- accepting after interference

  /** The intent of a start stays acceptable: whatever intervened, while the run executes its persisted row still matches. */
  lemma StartedIntentStillMatches(
    db: Db, item: string, r: string, worker: string, mode: RunMode, expected: Option<nat>, at: int,
    after: Db, intent: Intent, ops: seq<Op>)
    requires Consistent(db) && SelfKeyed(db.snapshots) && Unstarted(db, r)
    requires (after, Answer.Ok(intent)) == StartStep(db, item, r, worker, mode, expected, at)
    requires (forall op :: op in ops ==> PinsProperly(op)) && KeepsExecuting(after, ops, r)
    ensures MatchesRun(Run(after, ops), intent)
  {
    StartRecords(db, item, r, worker, mode, expected, at, after, intent);
    GrowsAndPins(after, ops, r);
  }
}
