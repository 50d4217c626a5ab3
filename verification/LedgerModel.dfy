/** The relational ledger as a value: its tables, and each ledger operation as one atomic step that either commits or
    leaves every table unchanged. Times are instants; Timestamps shows why comparing stored strings agrees. */
module LedgerModel {
  import opened Prelude
  import opened Proposals

  datatype QueueState = Queued | Claimed | Completed | RetryableFailed | TerminalFailed | DeadLettered
  datatype RunStatus =
    | RunQueued | LoadingState | SelectingFrontier | Planning | AttackingCurrentBest | GeneratingChallengers
    | CodexExecuting | Normalizing | Adjudicating | RetiringWeakHypotheses | Persisting | Summarizing
    | RunCompleted | Failed | DeadLetter
  datatype RunMode = Interactive | Scheduled

  datatype Payload = Payload(objective: string, selected: seq<string>)

  datatype Item = Item(
    topic: string, kind: string, state: QueueState, requestedRun: string, dedupeKey: string, key: string,
    attempts: nat, maxAttempts: nat, availableAt: int, payload: Payload,
    claimedBy: Option<string>, claimedAt: Option<int>, lastFailure: Option<string>)

  datatype RunRow = RunRow(
    topic: string, item: string, key: string, mode: RunMode, status: RunStatus, snapshot: Option<nat>)

  datatype KeyRow = KeyRow(digest: string, run: Option<string>)

  datatype RecoveryAction = RetryClaim | DeadLetterClaim
  datatype Audit = StaleRecovered(item: string, action: RecoveryAction) | DeadLetterRecovered(item: string)

  /** links is the unique index on runs.queue_item_id. */
  datatype Db = Db(
    items: map<string, Item>, runs: map<string, RunRow>, links: map<string, string>, keys: map<string, KeyRow>,
    snapshots: map<(string, nat), Snapshot>, audit: seq<Audit>)

  datatype Error =
    | IntegrityError | DuplicateKey | DuplicateRunStart | MutationMismatch | NoSuchRow | RecoveryRejected | StaleRunState

  datatype ClaimRecord = ClaimRecord(item: string, run: string, topic: string, key: string, attempts: nat, worker: string)

  datatype Reply =
    | Done
    | Granted(claim: ClaimRecord)
    | NotClaimable
    | Recovered(idempotent: bool)
    | Rejected(error: Error)

  /** The lease row the staleness test reads for the claiming worker. */
  datatype LeaseView = LeaseView(heartbeatAt: Option<int>, leasedAt: int, expiresAt: int)

  datatype Op =
    | Reserve(key: string, digest: string, run: Option<string>)
    | Enqueue(item: string, row: Item)
    | StoreSnapshot(snapshot: Snapshot)
    | Claim(item: string, worker: string, runId: string, mode: RunMode, now: int)
    | Retry(item: string, owner: Owner, failure: string, nextAt: int)
    | Complete(item: string, runId: string, worker: string)
    | DeadLetterItem(item: string, owner: Owner, failure: string)
    | RecoverDeadLetter(item: string, availableAt: int)
    | RecoverStale(item: string, action: RecoveryAction, now: int, lease: Option<LeaseView>, staleAfter: int)
    | Transition(runId: string, to: RunStatus, pin: Option<nat>, expected: Option<RunStatus>)

  /** The run and worker a mutation names; a mutation that names neither is not checked against the claim. */
  datatype Owner = Owner(run: Option<string>, worker: Option<string>)
  {
    predicate Named() { run.Some? || worker.Some? }
  }

  const MICROS_PER_SECOND := 1_000_000

  function EmptyDb(): Db {
    Db(map[], map[], map[], map[], map[], [])
  }

  function Released(it: Item, state: QueueState): Item {
    it.(state := state, claimedBy := None, claimedAt := None)
  }

  function SetStatus(db: Db, run: string, status: RunStatus): map<string, RunRow> {
    if run in db.runs then db.runs[run := db.runs[run].(status := status)] else db.runs
  }

  predicate KeyHasRun(db: Db, key: string) {
    exists r | r in db.runs :: db.runs[r].key == key
  }

  // ----- enqueueing

  predicate ItemConflicts(db: Db, id: string, row: Item) {
    id in db.items || exists i | i in db.items :: db.items[i].dedupeKey == row.dedupeKey || db.items[i].key == row.key
  }

  // ----- claiming

  function Record(db: Db, item: string, run: string, worker: string): ClaimRecord
    requires item in db.items
  {
    ClaimRecord(item, run, db.items[item].topic, db.items[item].key, db.items[item].attempts, worker)
  }

  function MarkClaimed(it: Item, worker: string, now: int): Item {
    it.(state := Claimed, claimedBy := Some(worker), claimedAt := Some(now))
  }

  predicate RunInsertable(db: Db, item: string, run: string)
    requires item in db.items
  {
    var key := db.items[item].key;
    run !in db.runs && !KeyHasRun(db, key) && key in db.keys && db.keys[key].run == None
  }

  function StartRun(db: Db, item: string, worker: string, run: string, mode: RunMode, now: int): Db
    requires item in db.items && db.items[item].key in db.keys
  {
    var it := db.items[item];
    db.(items := db.items[item := MarkClaimed(it, worker, now)],
        runs := db.runs[run := RunRow(it.topic, item, it.key, mode, RunQueued, None)],
        links := db.links[item := run],
        keys := db.keys[it.key := db.keys[it.key].(run := Some(run))])
  }

  function ClaimStep(db: Db, item: string, worker: string, run: string, mode: RunMode, now: int): (Db, Reply) {
    if item !in db.items || now < db.items[item].availableAt then (db, NotClaimable)
    else
      var it := db.items[item];
      if item in db.links then
        if db.links[item] != run then (db, Rejected(DuplicateRunStart))
        else if it.state == Queued then
          (db.(items := db.items[item := MarkClaimed(it, worker, now)]), Granted(Record(db, item, run, worker)))
        else (db, Granted(Record(db, item, run, worker)))
      else if it.state != Queued then (db, NotClaimable)
      else if !RunInsertable(db, item, run) then (db, Rejected(IntegrityError))
      else (StartRun(db, item, worker, run, mode, now), Granted(Record(db, item, run, worker)))
  }

  // ----- settling a claim

  /** Whether a mutation that names an owner matches the claim it is about. */
  predicate OwnsClaim(db: Db, item: string, owner: Owner) {
    && item in db.items
    && db.items[item].state == Claimed
    && (owner.worker.Some? ==> db.items[item].claimedBy == owner.worker)
    && item in db.links
    && (owner.run.Some? ==> db.links[item] == owner.run.value)
  }

  predicate MayMutate(db: Db, item: string, owner: Owner) {
    if owner.Named() then OwnsClaim(db, item, owner) else item in db.items
  }

  function RetryStep(db: Db, item: string, owner: Owner, failure: string, nextAt: int): (Db, Reply) {
    if !MayMutate(db, item, owner) then (db, Rejected(MutationMismatch)) else
      var it := db.items[item];
      var requeued := Released(it, Queued).(attempts := it.attempts + 1, availableAt := nextAt, lastFailure := Some(failure));
      (db.(items := db.items[item := requeued]), Done)
  }

  function CompleteStep(db: Db, item: string, run: string, worker: string): (Db, Reply) {
    if !OwnsClaim(db, item, Owner(Some(run), Some(worker))) then (db, Rejected(MutationMismatch)) else
      (db.(items := db.items[item := Released(db.items[item], Completed)]), Done)
  }

  function DeadLetterStep(db: Db, item: string, owner: Owner, failure: string): (Db, Reply) {
    if !MayMutate(db, item, owner) then (db, Rejected(MutationMismatch)) else
      var it := db.items[item];
      var buried := Released(it, DeadLettered).(attempts := it.attempts + 1, lastFailure := Some(failure));
      (db.(items := db.items[item := buried],
           runs := if owner.run.Some? then SetStatus(db, owner.run.value, DeadLetter) else db.runs), Done)
  }

  // ----- operator recoveries

  function LinkedStatus(db: Db, item: string, status: RunStatus): map<string, RunRow> {
    if item in db.links then SetStatus(db, db.links[item], status) else db.runs
  }

  function RecoverDeadLetterStep(db: Db, item: string, availableAt: int): (Db, Reply) {
    if item !in db.items then (db, Rejected(NoSuchRow))
    else if db.items[item].state != DeadLettered then (db, Rejected(MutationMismatch))
    else
      (db.(items := db.items[item := Released(db.items[item], Queued).(availableAt := availableAt)],
           runs := LinkedStatus(db, item, RunQueued),
           audit := db.audit + [DeadLetterRecovered(item)]), Recovered(false))
  }

  /** Whole elapsed seconds, never negative. */
  function AgeSeconds(start: int, now: int): nat {
    if now < start then 0 else (now - start) / MICROS_PER_SECOND
  }

  /** A claim is judged by the worker's lease heartbeat while that lease is live, otherwise by the claim time. */
  predicate StaleClaim(it: Item, lease: Option<LeaseView>, now: int, staleAfter: int) {
    if lease.Some? && now < lease.value.expiresAt then
      var basis := if lease.value.heartbeatAt.Some? then lease.value.heartbeatAt.value else lease.value.leasedAt;
      AgeSeconds(basis, now) >= staleAfter
    else it.claimedAt == None || AgeSeconds(it.claimedAt.value, now) >= staleAfter
  }

  function RecoverStaleStep(
    db: Db, item: string, action: RecoveryAction, now: int, lease: Option<LeaseView>, staleAfter: int): (Db, Reply)
  {
    if item !in db.items then (db, Rejected(NoSuchRow))
    else
      var it := db.items[item];
      if it.state != Claimed then
        (db, if StaleRecovered(item, action) in db.audit then Recovered(true) else Rejected(RecoveryRejected))
      else if !StaleClaim(it, lease, now, staleAfter) then (db, Rejected(RecoveryRejected))
      else
        var target := if action == RetryClaim then Queued else DeadLettered;
        var status := if action == RetryClaim then RunQueued else DeadLetter;
        (db.(items := db.items[item := Released(it, target).(availableAt := now, lastFailure := Some("runner_host_unavailable"))],
             runs := LinkedStatus(db, item, status),
             audit := db.audit + [StaleRecovered(item, action)]), Recovered(false))
  }

  // ----- run status

  function TransitionStep(db: Db, run: string, to: RunStatus, pin: Option<nat>, expected: Option<RunStatus>): (Db, Reply) {
    if run !in db.runs then (db, Rejected(NoSuchRow))
    else if expected.Some? && db.runs[run].status != expected.value then (db, Rejected(StaleRunState))
    else
      var row := db.runs[run].(status := to, snapshot := if pin.Some? then pin else db.runs[run].snapshot);
      (db.(runs := db.runs[run := row]), Done)
  }

  function Apply(db: Db, op: Op): (Db, Reply) {
    match op
    case Reserve(key, digest, run) =>
      if key in db.keys then (db, Rejected(DuplicateKey)) else (db.(keys := db.keys[key := KeyRow(digest, run)]), Done)
    case Enqueue(id, row) =>
      if ItemConflicts(db, id, row) then (db, Rejected(IntegrityError)) else
        (db.(items := db.items[id := row.(claimedBy := None, claimedAt := None)]), Done)
    case StoreSnapshot(s) =>
      if (s.topic, s.version) in db.snapshots then (db, Rejected(IntegrityError)) else
        (db.(snapshots := db.snapshots[(s.topic, s.version) := s]), Done)
    case Claim(item, worker, run, mode, now) => ClaimStep(db, item, worker, run, mode, now)
    case Retry(item, owner, failure, nextAt) => RetryStep(db, item, owner, failure, nextAt)
    case Complete(item, run, worker) => CompleteStep(db, item, run, worker)
    case DeadLetterItem(item, owner, failure) => DeadLetterStep(db, item, owner, failure)
    case RecoverDeadLetter(item, availableAt) => RecoverDeadLetterStep(db, item, availableAt)
    case RecoverStale(item, action, now, lease, staleAfter) => RecoverStaleStep(db, item, action, now, lease, staleAfter)
    case Transition(run, to, pin, expected) => TransitionStep(db, run, to, pin, expected)
  }

  function Run(db: Db, ops: seq<Op>): Db {
    if |ops| == 0 then db else Apply(Run(db, ops[..|ops| - 1]), ops[|ops| - 1]).0
  }
}
