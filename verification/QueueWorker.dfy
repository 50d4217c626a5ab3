/** The queue worker: one queue item is started, handed to a handler, and acked, requeued with back-off or dead-lettered. */
module QueueWorker {
  import opened Prelude
  import opened LedgerModel
  import opened Ledger
  import opened Failures
  import Orchestrator

  function Pow2(n: nat): nat {
    if n == 0 then 1 else 2 * Pow2(n - 1)
  }

  function NextAvailableAt(policy: RetryPolicy, attempts: nat, now: int): int {
    match policy
    case Terminal => now
    case Backoff(seconds) => now + seconds * MICROS_PER_SECOND * Pow2(attempts)
  }

  /** How the handler, or the start before it, ends: which exception reaches the worker, if any. */
  datatype Outcome =
    | Succeeds
    | Retryable(code: FailureCode)
    | Fatal(code: FailureCode)
    | RuntimeFailure(code: FailureCode, retryable: bool)
    | Unusable
    | Mismatch
    | Crash

  datatype WorkerError = NoSuchItem | ClaimMismatch
  datatype Result =
    | Ignored(state: QueueState)
    | InProgress
    | Finished
    | Requeued(code: FailureCode)
    | Buried(code: FailureCode)
    | Raised(error: WorkerError)

  const JOB_KINDS := {
    "topic.bootstrap", "run.execute", "run.resume", "user_input.process", "topic.refresh_schedule", "graph.repair",
    "session.healthcheck"}
  const SUPPORTED_KINDS := {"run.execute", "run.resume", "user_input.process", "topic.refresh_schedule", "graph.repair"}

  function LinkedRun(db: Db, item: string): Option<string> {
    if item in db.links then Some(db.links[item]) else None
  }

  function AsBuried(applied: (Db, Reply), code: FailureCode): (Db, Result) {
    (applied.0, if applied.1 == Done then Buried(code) else Raised(ClaimMismatch))
  }

  /** A dead-letter names its claimant only while the item is claimed. */
  function BuryStep(db: Db, item: string, run: Option<string>, worker: string, code: FailureCode): (Db, Result) {
    var claimed := item in db.items && db.items[item].state == Claimed;
    var owner := if claimed then Owner(run, Some(worker)) else Owner(None, None);
    AsBuried(Apply(db, DeadLetterItem(item, owner, Name(code))), code)
  }

  function NackStep(db: Db, item: string, run: string, worker: string, code: FailureCode, now: int): (Db, Result) {
    if item !in db.items then (db, Raised(NoSuchItem)) else
      var it := db.items[item];
      if PolicyOf(code) == Terminal || it.attempts + 1 >= it.maxAttempts then BuryStep(db, item, Some(run), worker, code)
      else
        var nextAt := NextAvailableAt(PolicyOf(code), it.attempts, now);
        var (after, reply) := RetryStep(db, item, Owner(Some(run), Some(worker)), Name(code), nextAt);
        (after, if reply == Done then Requeued(code) else Raised(ClaimMismatch))
  }

  function SettleStep(db: Db, item: string, run: string, worker: string, outcome: Outcome, now: int): (Db, Result) {
    match outcome
    case Succeeds =>
      var (after, reply) := CompleteStep(db, item, run, worker);
      (after, if reply == Done then Finished else Raised(ClaimMismatch))
    case Retryable(code) => NackStep(db, item, run, worker, code, now)
    case Fatal(code) => BuryStep(db, item, Some(run), worker, code)
    case RuntimeFailure(code, retryable) =>
      if retryable then NackStep(db, item, run, worker, code, now) else BuryStep(db, item, Some(run), worker, code)
    case Unusable => BuryStep(db, item, LinkedRun(db, item), worker, QueueMutationMismatch)
    case Mismatch => (db, Raised(ClaimMismatch))
    case Crash => NackStep(db, item, run, worker, RunnerHostUnavailable, now)
  }

  function OutcomeOf(failure: Orchestrator.Failure): Outcome {
    match failure
    case LedgerRefused(e) => if e == DuplicateRunStart then Unusable else Crash
    case MissingSnapshot => Unusable
    case StaleSnapshot => Unusable
    case InvalidSnapshot => Unusable
    case MalformedInput => Unusable
    case _ => Crash
  }

  /** What is decided before the handler ends: an answer at once, or an execution, possibly one doomed by its start. */
  datatype Begun = Answered(result: Result) | Running(doomed: Option<Outcome>)

  ghost function BeginStep(db: Db, item: string, run: string, worker: string, now: int): (Db, Begun) {
    if item !in db.items then (db, Answered(Raised(NoSuchItem))) else
      var it := db.items[item];
      if it.state == Completed || it.state == DeadLettered then (db, Answered(Ignored(it.state)))
      else if it.state == Claimed then (db, Answered(InProgress))
      else if it.kind !in JOB_KINDS then (db, Running(Some(Crash)))
      else if it.kind !in SUPPORTED_KINDS then (db, Running(Some(Fatal(QueueMutationMismatch))))
      else
        var (after, answer) := Orchestrator.StartStep(db, item, run, worker, Scheduled, None, now);
        (after, Running(if answer.Ok? then None else Some(OutcomeOf(answer.failure))))
  }

  ghost function ExecuteStep(
    db: Db, item: string, run: string, worker: string, handled: Outcome, claimedAt: int, now: int): (Db, Result)
  {
    var (begun, b) := BeginStep(db, item, run, worker, claimedAt);
    match b
    case Answered(result) => (begun, result)
    case Running(doomed) => SettleStep(begun, item, run, worker, if doomed.Some? then doomed.value else handled, now)
  }

  class Worker {
    const ledger: SqliteLedger
    const id: string

    constructor (ledger: SqliteLedger, id: string)
      ensures this.ledger == ledger && this.id == id
    {
      this.ledger, this.id := ledger, id;
    }

    method DeadLetter(item: string, run: Option<string>, code: FailureCode) returns (result: Result)
      modifies ledger
      ensures (ledger.View(), result) == BuryStep(old(ledger.View()), item, run, id, code)
    {
      var claimed := item in ledger.items && ledger.items[item].state == Claimed;
      var owner := if claimed then Owner(run, Some(id)) else Owner(None, None);
      var reply := ledger.RecordQueueDeadLetter(item, owner, Name(code));
      result := if reply == Done then Buried(code) else Raised(ClaimMismatch);
    }

    method Nack(item: string, run: string, code: FailureCode, now: int) returns (result: Result)
      modifies ledger
      ensures (ledger.View(), result) == NackStep(old(ledger.View()), item, run, id, code, now)
    {
      if item !in ledger.items {
        return Raised(NoSuchItem);
      }
      var attempts := ledger.items[item].attempts;
      var policy := PolicyOf(code);
      if policy == Terminal || attempts + 1 >= ledger.items[item].maxAttempts {
        result := DeadLetter(item, Some(run), code);
        return;
      }
      var nextAt := NextAvailableAt(policy, attempts, now);
      var reply := ledger.RecordQueueRetry(item, Owner(Some(run), Some(id)), Name(code), nextAt);
      result := if reply == Done then Requeued(code) else Raised(ClaimMismatch);
    }

    method Settle(item: string, run: string, outcome: Outcome, now: int) returns (result: Result)
      modifies ledger
      ensures (ledger.View(), result) == SettleStep(old(ledger.View()), item, run, id, outcome, now)
    {
      match outcome
      case Succeeds =>
        var reply := ledger.CompleteQueueItem(item, run, id);
        result := if reply == Done then Finished else Raised(ClaimMismatch);
      case Retryable(code) => result := Nack(item, run, code, now);
      case Fatal(code) => result := DeadLetter(item, Some(run), code);
      case RuntimeFailure(code, retryable) =>
        if retryable { result := Nack(item, run, code, now); } else { result := DeadLetter(item, Some(run), code); }
      case Unusable =>
        var linked := if item in ledger.links then Some(ledger.links[item]) else None;
        result := DeadLetter(item, linked, QueueMutationMismatch);
      case Mismatch => result := Raised(ClaimMismatch);
      case Crash => result := Nack(item, run, RunnerHostUnavailable, now);
    }

    method ExecuteItem(item: string, run: string, handled: Outcome, claimedAt: int, now: int) returns (result: Result)
      modifies ledger
      ensures (ledger.View(), result) == ExecuteStep(old(ledger.View()), item, run, id, handled, claimedAt, now)
    {
      if item !in ledger.items {
        return Raised(NoSuchItem);
      }
      var it := ledger.items[item];
      if it.state == Completed || it.state == DeadLettered {
        return Ignored(it.state);
      }
      if it.state == Claimed {
        return InProgress;
      }
      var ending := handled;
      if it.kind !in JOB_KINDS {
        ending := Crash;
      } else if it.kind !in SUPPORTED_KINDS {
        ending := Fatal(QueueMutationMismatch);
      } else {
        var answer := Orchestrator.StartQueuedRun(ledger, item, run, id, Scheduled, None, claimedAt);
        if answer.Err? {
          ending := OutcomeOf(answer.failure);
        }
      }
      result := Settle(item, run, ending, now);
    }
  }
}
