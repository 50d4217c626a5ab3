/** The scheduled service: preflight, a session lease around the execution, and its own retry and dead-letter decisions. */
module Scheduled {
  import opened Prelude
  import opened Failures
  import opened LedgerModel
  import opened Ledger
  import opened SessionLeases
  import Orchestrator
  import RunLifecycle
  import QueueWorker

  /** How an execution ends once its item was started: stored, quarantined (failed and reported already), or an exception. */
  datatype RunEnd = Stored | QuarantinedRun | RuntimeFailed(code: FailureCode, retryable: bool) | Uncompetitive

  datatype Decision =
    | DuplicateIgnored | Deferred(cause: Option<FailureCode>) | Retried(code: FailureCode) | Terminated(code: FailureCode)
    | Acknowledged | Escaped

  /** The session the service leases, and for how long. */
  datatype Seat = Seat(session: string, ttlSeconds: int)

  /** The service leaves alone what is done, buried or claimed. */
  predicate Schedulable(db: Db, item: string) {
    item in db.items && db.items[item].state !in {QueueState.Completed, DeadLettered, Claimed}
  }

  /** What is answered for the others. */
  function Unscheduled(db: Db, item: string): Decision {
    if item !in db.items then Escaped
    else
      match db.items[item].state
      case Completed => DuplicateIgnored
      case Claimed => Deferred(Some(DuplicateQueueDelivery))
      case _ => Deferred(None)
  }

  function Settled(applied: (Db, Reply), decision: Decision): (Db, Decision) {
    (applied.0, if applied.1 == Done then decision else Escaped)
  }

  /** Before the claim nothing names an owner; the item was seen QUEUED. */
  function PreclaimStep(db: Db, item: string, code: FailureCode, retryable: bool, now: int): (Db, Decision) {
    if retryable && item !in db.items then (db, Escaped)
    else if retryable && db.items[item].attempts + 1 < db.items[item].maxAttempts then
      var nextAt := QueueWorker.NextAvailableAt(PolicyOf(code), db.items[item].attempts, now);
      Settled(RetryStep(db, item, Owner(None, None), Name(code), nextAt), Deferred(Some(code)))
    else Settled(DeadLetterStep(db, item, Owner(None, None), Name(code)), Terminated(code))
  }

  function FailIfPossible(db: Db, run: string): Db {
    if run in db.runs && Failed in RunLifecycle.Next(db.runs[run].status) then Orchestrator.WithStatus(db, run, Failed, None)
    else db
  }

  function RuntimeRetryStep(db: Db, item: string, run: string, worker: string, code: FailureCode, now: int): (Db, Decision) {
    if item !in db.items then (db, Escaped)
    else if db.items[item].attempts + 1 >= db.items[item].maxAttempts then
      Settled(DeadLetterStep(FailIfPossible(db, run), item, Owner(Some(run), Some(worker)), Name(code)), Terminated(code))
    else
      var nextAt := QueueWorker.NextAvailableAt(PolicyOf(code), db.items[item].attempts, now);
      Settled(RetryStep(db, item, Owner(Some(run), Some(worker)), Name(code), nextAt), Retried(code))
  }

  function MutationOwner(db: Db, item: string, run: string, worker: string): Owner {
    var mine := item in db.items && db.items[item].state == Claimed && item in db.links && db.links[item] == run;
    if mine then Owner(Some(run), Some(worker)) else Owner(None, None)
  }

  function BuryStep(db: Db, item: string, run: string, worker: string, code: FailureCode): (Db, Decision) {
    Settled(DeadLetterStep(db, item, MutationOwner(db, item, run, worker), Name(code)), Terminated(code))
  }

  /** A terminal failure names its claim if the item is still claimed for this run; started tells whether there is an intent. */
  function TerminalStep(db: Db, item: string, run: string, worker: string, code: FailureCode, started: bool): (Db, Decision) {
    BuryStep(if started then FailIfPossible(db, run) else db, item, run, worker, code)
  }

  function EndStep(db: Db, item: string, run: string, worker: string, end: RunEnd, started: bool, now: int): (Db, Decision) {
    match end
    case Stored => Settled(CompleteStep(db, item, run, worker), Acknowledged)
    case QuarantinedRun =>
      Settled(DeadLetterStep(db, item, Owner(Some(run), Some(worker)), Name(MalformedProposal)), Terminated(MalformedProposal))
    case RuntimeFailed(code, retryable) =>
      if retryable then RuntimeRetryStep(db, item, run, worker, code, now) else TerminalStep(db, item, run, worker, code, started)
    case Uncompetitive => TerminalStep(db, item, run, worker, MalformedProposal, started)
  }

  /** What a failed start is handled as; None for exceptions the service does not catch. */
  function StartFailure(f: Orchestrator.Failure): Option<FailureCode> {
    match f
    case LedgerRefused(e) => if e == DuplicateRunStart then Some(QueueMutationMismatch) else None
    case MissingSnapshot => Some(QueueMutationMismatch)
    case StaleSnapshot => Some(QueueMutationMismatch)
    case InvalidSnapshot => Some(QueueMutationMismatch)
    case MalformedInput => Some(QueueMutationMismatch)
    case InvalidTransition => Some(MalformedProposal)
    case RunFailed => Some(MalformedProposal)
    case RunTerminal => Some(MalformedProposal)
    case NotReady => Some(MalformedProposal)
    case NotPinned => Some(MalformedProposal)
    case _ => None
  }

  /** The part under the lease. */
  ghost function LeasedStep(db: Db, item: string, run: string, worker: string, end: RunEnd, claimedAt: int, now: int): (Db, Decision) {
    var (started, answer) := Orchestrator.StartStep(db, item, run, worker, Scheduled, None, claimedAt);
    match answer
    case Ok(_) => EndStep(started, item, run, worker, end, true, now)
    case Err(f) =>
      match StartFailure(f)
      case Some(code) => TerminalStep(started, item, run, worker, code, false)
      case None => (started, Escaped)
  }

  class Service {
    const ledger: SqliteLedger
    const leases: LeaseTable
    const worker: string
    const seat: Seat

    constructor (ledger: SqliteLedger, leases: LeaseTable, worker: string, seat: Seat)
      ensures this.ledger == ledger && this.leases == leases && this.worker == worker && this.seat == seat
    {
      this.ledger, this.leases, this.worker, this.seat := ledger, leases, worker, seat;
    }

    method RecordPreclaimFailure(item: string, code: FailureCode, retryable: bool, now: int) returns (d: Decision)
      modifies ledger
      ensures (ledger.View(), d) == PreclaimStep(old(ledger.View()), item, code, retryable, now)
    {
      var reply;
      if retryable {
        if item !in ledger.items {
          return Escaped;
        }
        var attempts := ledger.items[item].attempts;
        if attempts + 1 < ledger.items[item].maxAttempts {
          var nextAt := QueueWorker.NextAvailableAt(PolicyOf(code), attempts, now);
          reply := ledger.RecordQueueRetry(item, Owner(None, None), Name(code), nextAt);
          return if reply == Done then Deferred(Some(code)) else Escaped;
        }
      }
      reply := ledger.RecordQueueDeadLetter(item, Owner(None, None), Name(code));
      d := if reply == Done then Terminated(code) else Escaped;
    }

    method FailRunIfPossible(run: string)
      modifies ledger`runs
      ensures ledger.View() == FailIfPossible(old(ledger.View()), run)
    {
      var ok := Orchestrator.Transition(ledger, run, Failed, None);
    }

    method RecordRuntimeRetry(item: string, run: string, code: FailureCode, now: int) returns (d: Decision)
      modifies ledger
      ensures (ledger.View(), d) == RuntimeRetryStep(old(ledger.View()), item, run, worker, code, now)
    {
      if item !in ledger.items {
        return Escaped;
      }
      var attempts := ledger.items[item].attempts;
      var reply;
      if attempts + 1 >= ledger.items[item].maxAttempts {
        FailRunIfPossible(run);
        reply := ledger.RecordQueueDeadLetter(item, Owner(Some(run), Some(worker)), Name(code));
        return if reply == Done then Terminated(code) else Escaped;
      }
      var nextAt := QueueWorker.NextAvailableAt(PolicyOf(code), attempts, now);
      reply := ledger.RecordQueueRetry(item, Owner(Some(run), Some(worker)), Name(code), nextAt);
      d := if reply == Done then Retried(code) else Escaped;
    }

    method ClaimedRunMutationOwner(item: string, run: string) returns (owner: Owner)
      ensures owner == MutationOwner(ledger.View(), item, run, worker)
    {
      owner := Owner(None, None);
      if item in ledger.items && ledger.items[item].state == Claimed && item in ledger.links && ledger.links[item] == run {
        owner := Owner(Some(run), Some(worker));
      }
    }

    method Bury(item: string, run: string, code: FailureCode) returns (d: Decision)
      modifies ledger
      ensures (ledger.View(), d) == BuryStep(old(ledger.View()), item, run, worker, code)
    {
      var owner := ClaimedRunMutationOwner(item, run);
      var reply := ledger.RecordQueueDeadLetter(item, owner, Name(code));
      d := if reply == Done then Terminated(code) else Escaped;
    }

    method HandleTerminalFailure(item: string, run: string, code: FailureCode, started: bool) returns (d: Decision)
      modifies ledger
      ensures (ledger.View(), d) == TerminalStep(old(ledger.View()), item, run, worker, code, started)
    {
      if started {
        FailRunIfPossible(run);
      }
      d := Bury(item, run, code);
    }

    method Finish(item: string, run: string, end: RunEnd, now: int) returns (d: Decision)
      modifies ledger
      ensures (ledger.View(), d) == EndStep(old(ledger.View()), item, run, worker, end, true, now)
    {
      var reply;
      match end
      case Stored =>
        reply := ledger.CompleteQueueItem(item, run, worker);
        d := if reply == Done then Acknowledged else Escaped;
      case QuarantinedRun =>
        reply := ledger.RecordQueueDeadLetter(item, Owner(Some(run), Some(worker)), Name(MalformedProposal));
        d := if reply == Done then Terminated(MalformedProposal) else Escaped;
      case RuntimeFailed(code, retryable) =>
        if retryable {
          d := RecordRuntimeRetry(item, run, code, now);
        } else {
          d := HandleTerminalFailure(item, run, code, true);
        }
      case Uncompetitive => d := HandleTerminalFailure(item, run, MalformedProposal, true);
    }

    method ExecuteUnderLease(item: string, run: string, end: RunEnd, claimedAt: int, now: int) returns (d: Decision)
      modifies ledger
      ensures (ledger.View(), d) == LeasedStep(old(ledger.View()), item, run, worker, end, claimedAt, now)
    {
      var answer := Orchestrator.StartQueuedRun(ledger, item, run, worker, Scheduled, None, claimedAt);
      if answer.Ok? {
        d := Finish(item, run, end, now);
        return;
      }
      var failure := StartFailure(answer.failure);
      if failure.None? {
        return Escaped;
      }
      d := HandleTerminalFailure(item, run, failure.value, false);
    }

    /** refusal is the failure of the trust, preflight or session checks made before a lease is asked for. A lease is asked for
        when there is none, on a schedulable item; a refusal or a lease conflict is recorded before the claim. Whatever
        happens under the lease, it is released. */
    method ExecuteItem(
      item: string, run: string, refusal: Option<(FailureCode, bool)>, end: RunEnd, claimedAt: int, now: int)
      returns (d: Decision, lease: Option<Lease>)
      modifies ledger, leases
      ensures lease ==
        if Schedulable(old(ledger.View()), item) && refusal.None?
        then AcquireStep(old(leases.View()), seat.session, worker, seat.ttlSeconds, None, claimedAt).1 else None
      ensures leases.View() ==
        if lease.Some? then Sessions(old(leases.leases) - {seat.session}, old(leases.counts)) else old(leases.View())
      ensures (ledger.View(), d) ==
        var db := old(ledger.View());
        if !Schedulable(db, item) then (db, Unscheduled(db, item))
        else if refusal.Some? then PreclaimStep(db, item, refusal.value.0, refusal.value.1, now)
        else if lease.None? then PreclaimStep(db, item, ConcurrentSessionMutation, true, now)
        else LeasedStep(db, item, run, worker, end, claimedAt, now)
    {
      if item !in ledger.items {
        return Escaped, None;
      }
      var state := ledger.items[item].state;
      if state == QueueState.Completed {
        return DuplicateIgnored, None;
      }
      if state == DeadLettered || state == Claimed {
        return Deferred(if state == Claimed then Some(DuplicateQueueDelivery) else None), None;
      }
      if refusal.Some? {
        d := RecordPreclaimFailure(item, refusal.value.0, refusal.value.1, now);
        return d, None;
      }
      lease := leases.AcquireSessionLease(seat.session, worker, seat.ttlSeconds, None, claimedAt);
      if lease.None? {
        d := RecordPreclaimFailure(item, ConcurrentSessionMutation, true, now);
        return;
      }
      d := ExecuteUnderLease(item, run, end, claimedAt, now);
      var released := leases.ReleaseSessionLease(seat.session, Some(lease.value.id));
      assert leases.leases == old(leases.leases) - {seat.session} && leases.counts == old(leases.counts);
    }
  }
}
