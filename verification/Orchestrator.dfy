/** Starting, resuming and accepting a run on the ledger, and what a resumed run is told to do. */
module Orchestrator {
  import opened Prelude
  import opened Proposals
  import opened Competition
  import opened LedgerModel
  import opened LedgerSafety
  import opened RunLifecycle
  import opened Ledger

  datatype Selection = Selection(item: string, kind: string, summary: string)

  /** Everything the runtime is told; plan, tool policy, output contract and budgets are constants of the orchestrator. */
  datatype Request = Request(
    runId: string, topic: string, mode: RunMode, objective: string, snapshot: Snapshot, selected: seq<Selection>, key: string)

  datatype Intent = Intent(
    request: Request, item: string, version: nat, state: RunStatus, frontier: Frontier)

  datatype Failure =
    | NoSuchItem | NoSuchRun | LedgerRefused(error: Error)
    | InvalidTransition | RunFailed | RunTerminal | NotReady | NotPinned
    | MissingSnapshot | StaleSnapshot | InvalidSnapshot | MalformedInput | IntentMismatch
    | Uncompetitive(reason: CompetitionError)

  datatype Answer = Ok(intent: Intent) | Err(failure: Failure)

  // ----- reading the ledger

  type Snapshots = map<(string, nat), Snapshot>

  predicate HasVersion(stored: Snapshots, topic: string, v: nat) {
    (topic, v) in stored
  }

  /** v is the greatest stored snapshot version of the topic, if there is one. */
  ghost predicate IsLatest(stored: Snapshots, topic: string, v: Option<nat>) {
    match v
    case None => forall u: nat :: !HasVersion(stored, topic, u)
    case Some(top) => HasVersion(stored, topic, top) && forall u: nat :: HasVersion(stored, topic, u) ==> u <= top
  }

  method LatestVersion(ledger: SqliteLedger, topic: string) returns (v: Option<nat>)
    ensures IsLatest(ledger.snapshots, topic, v)
  {
    v := None;
    var rest := ledger.snapshots.Keys;
    while rest != {}
      invariant rest <= ledger.snapshots.Keys
      invariant v.Some? ==> (topic, v.value) in ledger.snapshots.Keys - rest
      invariant forall u: nat :: (topic, u) in ledger.snapshots.Keys - rest ==> v.Some? && u <= v.value
      decreases rest
    {
      var k :| k in rest;
      rest := rest - {k};
      if k.0 == topic && (v.None? || v.value < k.1) {
        v := Some(k.1);
      }
    }
  }

  predicate SelectsItself(it: Item, item: string) {
    item in it.payload.selected
  }

  /** The request the ledger now holds for a run, were it to run under the given mode on the given snapshot. */
  function RequestFor(db: Db, runId: string, item: string, mode: RunMode, s: Snapshot): Request
    requires item in db.items
  {
    var it := db.items[item];
    Request(runId, s.topic, mode, it.payload.objective, s, [Selection(item, it.kind, it.payload.objective)], it.key)
  }

  function IntentFor(db: Db, runId: string, item: string, mode: RunMode, s: Snapshot, state: RunStatus): Intent
    requires item in db.items
  {
    Intent(RequestFor(db, runId, item, mode, s), item, s.version, state, FullFrontier(s))
  }

  // ----- resuming

  function Resume(db: Db, runId: string, expected: Option<nat>): Answer {
    if runId !in db.runs then Err(NoSuchRun) else
      var row := db.runs[runId];
      if row.status == Failed then Err(RunFailed)
      else if row.status == RunCompleted || row.status == DeadLetter then Err(RunTerminal)
      else if row.status != CodexExecuting then Err(NotReady)
      else if row.snapshot == None then Err(NotPinned)
      else if expected.Some? && expected != row.snapshot then Err(StaleSnapshot)
      else if (row.topic, row.snapshot.value) !in db.snapshots then Err(MissingSnapshot)
      else
        var s := db.snapshots[(row.topic, row.snapshot.value)];
        if s.currentBest == [] then Err(InvalidSnapshot)
        else if row.item !in db.items then Err(NoSuchItem)
        else if !SelectsItself(db.items[row.item], row.item) then Err(MalformedInput)
        else Ok(IntentFor(db, runId, row.item, row.mode, s, row.status))
  }

  // ----- starting

  function WithStatus(db: Db, runId: string, status: RunStatus, pin: Option<nat>): Db
    requires runId in db.runs
  {
    var row := db.runs[runId];
    db.(runs := db.runs[runId := row.(status := status, snapshot := if pin.Some? then pin else row.snapshot)])
  }

  /** Where a newly claimed QUEUED run ends: FAILED without a usable snapshot, FAILED but pinned when its queue item does
      not select itself, otherwise CODEX_EXECUTING on the pinned latest snapshot. */
  ghost function Launched(db: Db, item: string, runId: string, mode: RunMode, latest: Option<nat>, expected: Option<nat>)
    : (Db, Answer)
    requires runId in db.runs && item in db.items
    requires latest.Some? ==> (db.items[item].topic, latest.value) in db.snapshots
  {
    if latest == None then (WithStatus(db, runId, Failed, None), Err(MissingSnapshot))
    else if expected.Some? && db.snapshots[(db.items[item].topic, latest.value)].version != expected.value
      then (WithStatus(db, runId, Failed, None), Err(StaleSnapshot))
    else
      var s := db.snapshots[(db.items[item].topic, latest.value)];
      if s.currentBest == [] then (WithStatus(db, runId, Failed, None), Err(InvalidSnapshot))
      else if !SelectsItself(db.items[item], item) then (WithStatus(db, runId, Failed, Some(s.version)), Err(MalformedInput))
      else (WithStatus(db, runId, CodexExecuting, Some(s.version)), Ok(IntentFor(db, runId, item, mode, s, CodexExecuting)))
  }

  ghost function Latest(stored: Snapshots, topic: string): (v: Option<nat>)
    ensures forall u :: IsLatest(stored, topic, u) ==> v == u
    ensures v.Some? ==> HasVersion(stored, topic, v.value)
  {
    if exists u :: IsLatest(stored, topic, u) then var u :| IsLatest(stored, topic, u); u else None
  }

  /** The outcome of starting: claim, then resume a run that is past QUEUED or launch one that is QUEUED. */
  ghost function StartStep(
    db: Db, item: string, runId: string, worker: string, mode: RunMode, expected: Option<nat>, now: int): (Db, Answer)
  {
    var (claimed, reply) := ClaimStep(db, item, worker, runId, mode, now);
    match reply
    case Granted(_) =>
      if runId !in claimed.runs then (claimed, Err(NoSuchRun))
      else if claimed.runs[runId].status != RunQueued then (claimed, Resume(claimed, runId, expected))
      else Launched(claimed, item, runId, mode, Latest(claimed.snapshots, claimed.items[item].topic), expected)
    case Rejected(e) => (db, Err(LedgerRefused(e)))
    case _ => (db, Err(NoSuchItem))
  }

  /** One state-machine transition: read the status, check the table, compare and set. */
  method Transition(ledger: SqliteLedger, runId: string, to: RunStatus, pin: Option<nat>) returns (ok: bool)
    modifies ledger`runs
    ensures ok == (runId in old(ledger.runs) && to in Next(old(ledger.runs)[runId].status))
    ensures ledger.View() == if ok then WithStatus(old(ledger.View()), runId, to, pin) else old(ledger.View())
  {
    if runId !in ledger.runs {
      return false;
    }
    var from := ledger.runs[runId].status;
    if to !in Next(from) {
      return false;
    }
    var reply := ledger.TransitionRunState(runId, to, pin, Some(from));
    ok := reply == Done;
  }

  /** From SELECTING_FRONTIER the planning stages follow one another up to CODEX_EXECUTING. */
  method AdvanceToExecution(ledger: SqliteLedger, runId: string)
    requires runId in ledger.runs && ledger.runs[runId].status == SelectingFrontier
    modifies ledger`runs
    ensures ledger.View() == WithStatus(old(ledger.View()), runId, CodexExecuting, None)
  {
    var ok := Transition(ledger, runId, Planning, None);
    ok := Transition(ledger, runId, AttackingCurrentBest, None);
    ok := Transition(ledger, runId, GeneratingChallengers, None);
    ok := Transition(ledger, runId, CodexExecuting, None);
  }

  method Launch(ledger: SqliteLedger, item: string, runId: string, mode: RunMode, expected: Option<nat>)
    returns (answer: Answer)
    requires item in ledger.items && runId in ledger.runs && ledger.runs[runId].status == RunQueued
    modifies ledger`runs
    ensures (ledger.View(), answer) ==
      Launched(old(ledger.View()), item, runId, mode, Latest(ledger.snapshots, old(ledger.items)[item].topic), expected)
  {
    ghost var was := ledger.View();
    var topic := ledger.items[item].topic;
    var ok := Transition(ledger, runId, LoadingState, None);
    var version := LatestVersion(ledger, topic);
    if version.None? {
      ok := Transition(ledger, runId, Failed, None);
      assert ledger.runs == WithStatus(was, runId, Failed, None).runs;
      return Err(MissingSnapshot);
    }
    var s := ledger.snapshots[(topic, version.value)];
    if expected.Some? && s.version != expected.value {
      ok := Transition(ledger, runId, Failed, None);
      assert ledger.runs == WithStatus(was, runId, Failed, None).runs;
      return Err(StaleSnapshot);
    }
    if s.currentBest == [] {
      ok := Transition(ledger, runId, Failed, None);
      assert ledger.runs == WithStatus(was, runId, Failed, None).runs;
      return Err(InvalidSnapshot);
    }
    ok := Transition(ledger, runId, SelectingFrontier, Some(s.version));
    if item !in ledger.items[item].payload.selected {
      ok := Transition(ledger, runId, Failed, None);
      assert ledger.runs == WithStatus(was, runId, Failed, Some(s.version)).runs;
      return Err(MalformedInput);
    }
    AdvanceToExecution(ledger, runId);
    assert ledger.runs == WithStatus(was, runId, CodexExecuting, Some(s.version)).runs;
    answer := Ok(IntentFor(
      Db(ledger.items, ledger.runs, ledger.links, ledger.keys, ledger.snapshots, ledger.audit), runId, item, mode, s,
      ledger.runs[runId].status));
  }

  method StartQueuedRun(
    ledger: SqliteLedger, item: string, runId: string, worker: string, mode: RunMode, expected: Option<nat>, now: int)
    returns (answer: Answer)
    modifies ledger
    ensures (ledger.View(), answer) == StartStep(old(ledger.View()), item, runId, worker, mode, expected, now)
  {
    var reply := ledger.ClaimQueueItemForRun(item, worker, runId, mode, now);
    if reply.Rejected? {
      return Err(LedgerRefused(reply.error));
    }
    if !reply.Granted? {
      return Err(NoSuchItem);
    }
    if runId !in ledger.runs {
      return Err(NoSuchRun);
    }
    if ledger.runs[runId].status != RunQueued {
      return Resume(
        Db(ledger.items, ledger.runs, ledger.links, ledger.keys, ledger.snapshots, ledger.audit), runId, expected);
    }
    answer := Launch(ledger, item, runId, mode, expected);
  }

  // ----- accepting

  /** Whether a persisted run is still the one an intent was built for. */
  predicate MatchesRun(db: Db, intent: Intent) {
    && intent.request.runId in db.runs
    && var row := db.runs[intent.request.runId];
       row.topic == intent.request.topic && row.item == intent.item && row.key == intent.request.key
       && row.snapshot == Some(intent.version)
  }

  /** What stops a proposal from being accepted, in the order the checks are made. */
  function AcceptanceFailure(db: Db, intent: Intent, p: Proposal): (f: Option<Failure>)
    ensures f == None <==>
      && MatchesRun(db, intent) && CompetitionVerdict(intent.frontier, p) == None
      && Normalizing in Next(db.runs[intent.request.runId].status)
  {
    if intent.request.runId !in db.runs then Some(NoSuchRun) else
      var row, verdict := db.runs[intent.request.runId], CompetitionVerdict(intent.frontier, p);
      if row.topic != intent.request.topic || row.item != intent.item || row.key != intent.request.key then Some(IntentMismatch)
      else if row.snapshot != Some(intent.version) then Some(StaleSnapshot)
      else if verdict.Some? then Some(Uncompetitive(verdict.value))
      else if Normalizing !in Next(row.status) then Some(InvalidTransition)
      else None
  }

  method AcceptCompetitionProposal(ledger: SqliteLedger, intent: Intent, p: Proposal) returns (failure: Option<Failure>)
    modifies ledger`runs
    ensures failure == AcceptanceFailure(old(ledger.View()), intent, p)
    ensures ledger.View() ==
      if failure == None then WithStatus(old(ledger.View()), intent.request.runId, Normalizing, None) else old(ledger.View())
  {
    var runId := intent.request.runId;
    if runId !in ledger.runs {
      return Some(NoSuchRun);
    }
    var row := ledger.runs[runId];
    if row.topic != intent.request.topic || row.item != intent.item || row.key != intent.request.key {
      return Some(IntentMismatch);
    }
    if row.snapshot != Some(intent.version) {
      return Some(StaleSnapshot);
    }
    var verdict := CompetitionVerdict(intent.frontier, p);
    if verdict.Some? {
      return Some(Uncompetitive(verdict.value));
    }
    var ok := Transition(ledger, runId, Normalizing, None);
    failure := if ok then None else Some(InvalidTransition);
  }
}
