/** What the end of an execution does to the queue, transaction by transaction. The item is read to decide between an ack, a
    requeue and a dead-letter; a dead-letter reads the item again to see whom to name; then one ledger operation is issued.
    Other operations may come between any of these. */
module Settlement {
  import opened Prelude
  import opened Failures
  import opened LedgerModel
  import opened LedgerSafety
  import opened QueueWorker
  import S = Scheduled

  // ----- what is to be done

  /** Nothing for the queue; a dead-letter that still has to see whom to name, by the worker's rule (under this run) or by the
      scheduled service's; or an operation ready to be issued. */
  datatype Plan = Nothing | Bury(run: Option<string>, code: FailureCode) | Terminate(code: FailureCode) | Issue(op: Op)

  predicate LastAttempt(it: Item, code: FailureCode) {
    PolicyOf(code) == Terminal || it.attempts + 1 >= it.maxAttempts
  }

  /** The outcome leads to a dead-letter rather than to an ack or a requeue. */
  predicate WouldBury(it: Item, outcome: Outcome) {
    match outcome
    case Succeeds => false
    case Retryable(code) => LastAttempt(it, code)
    case Fatal(_) => true
    case RuntimeFailure(code, retryable) => !retryable || LastAttempt(it, code)
    case Unusable => true
    case Mismatch => false
    case Crash => LastAttempt(it, RunnerHostUnavailable)
  }

  /** The failure code an outcome is recorded under. */
  function CodeOf(outcome: Outcome): FailureCode {
    match outcome
    case Retryable(code) => code
    case Fatal(code) => code
    case RuntimeFailure(code, _) => code
    case Crash => RunnerHostUnavailable
    case _ => QueueMutationMismatch
  }

  /** What a worker decides from the ledger it reads. */
  function Decide(db: Db, item: string, run: string, worker: string, outcome: Outcome, now: int): Plan
    requires item in db.items
  {
    var it := db.items[item];
    if outcome.Mismatch? then Nothing
    else if outcome.Succeeds? then Issue(Complete(item, run, worker))
    else if WouldBury(it, outcome) then Bury(if outcome.Unusable? then LinkedRun(db, item) else Some(run), CodeOf(outcome))
    else
      var nextAt := NextAvailableAt(PolicyOf(CodeOf(outcome)), it.attempts, now);
      Issue(Op.Retry(item, Owner(Some(run), Some(worker)), Name(CodeOf(outcome)), nextAt))
  }

  /** A scheduled execution fails before its claim, escapes unrecorded, fails to start, or ends after its start. */
  datatype ScheduledEnding =
    | Preclaim(code: FailureCode, retryable: bool) | Unrecorded | StartFailed(code: FailureCode) | Ended(end: S.RunEnd)

  /** Endings recorded as a terminal failure, whose dead-letter names the claim only if it is this run's. */
  predicate TerminalEnding(e: ScheduledEnding) {
    e.StartFailed? || (e.Ended? && (e.end.Uncompetitive? || (e.end.RuntimeFailed? && !e.end.retryable)))
  }

  /** What the scheduled service decides from the ledger it reads. */
  function DecideScheduled(db: Db, item: string, run: string, worker: string, e: ScheduledEnding, now: int): Plan
    requires item in db.items
  {
    var it, mine := db.items[item], Owner(Some(run), Some(worker));
    match e
    case Preclaim(code, retryable) =>
      if retryable && it.attempts + 1 < it.maxAttempts
      then Issue(Op.Retry(item, Owner(None, None), Name(code), NextAvailableAt(PolicyOf(code), it.attempts, now)))
      else Issue(DeadLetterItem(item, Owner(None, None), Name(code)))
    case Unrecorded => Nothing
    case StartFailed(code) => Terminate(code)
    case Ended(end) =>
      match end
      case Stored => Issue(Complete(item, run, worker))
      case QuarantinedRun => Issue(DeadLetterItem(item, mine, Name(MalformedProposal)))
      case RuntimeFailed(code, retryable) =>
        if !retryable then Terminate(code)
        else if it.attempts + 1 >= it.maxAttempts then Issue(DeadLetterItem(item, mine, Name(code)))
        else Issue(Op.Retry(item, mine, Name(code), NextAvailableAt(PolicyOf(code), it.attempts, now)))
      case Uncompetitive => Terminate(MalformedProposal)
  }

  predicate ClaimedForRun(db: Db, item: string, run: string) {
    item in db.items && db.items[item].state == Claimed && item in db.links && db.links[item] == run
  }

  predicate IsClaimed(db: Db, item: string) {
    item in db.items && db.items[item].state == Claimed
  }

  /** Whom a dead-letter names, from the ledger read for that: a worker names its claim if the item is claimed by anybody, the
      scheduled service if it is claimed for its run. */
  function Identify(db: Db, item: string, run: string, worker: string, plan: Plan): Plan {
    match plan
    case Bury(named, code) =>
      var owner := if IsClaimed(db, item) then Owner(named, Some(worker)) else Owner(None, None);
      Issue(DeadLetterItem(item, owner, Name(code)))
    case Terminate(code) => Issue(DeadLetterItem(item, S.MutationOwner(db, item, run, worker), Name(code)))
    case _ => plan
  }

  function Commit(db: Db, plan: Plan): (Db, Reply) {
    match plan
    case Issue(op) => Apply(db, op)
    case _ => (db, Done)
  }

  // ----- uninterrupted, this is the worker's and the service's step

  lemma SettleIsItsPlan(db: Db, item: string, run: string, worker: string, outcome: Outcome, now: int)
    requires item in db.items
    ensures SettleStep(db, item, run, worker, outcome, now).0 ==
      Commit(db, Identify(db, item, run, worker, Decide(db, item, run, worker, outcome, now))).0
  {
  }

  function ScheduledSettleStep(db: Db, item: string, run: string, worker: string, e: ScheduledEnding, now: int): (Db, S.Decision) {
    match e
    case Preclaim(code, retryable) => S.PreclaimStep(db, item, code, retryable, now)
    case Unrecorded => (db, S.Escaped)
    case StartFailed(code) => S.TerminalStep(db, item, run, worker, code, false)
    case Ended(end) => S.EndStep(db, item, run, worker, end, true, now)
  }

  lemma FailingLeavesTheQueue(db: Db, run: string)
    ensures var failed := S.FailIfPossible(db, run);
      failed.items == db.items && failed.audit == db.audit && failed.links == db.links
  {
  }

  lemma TerminalItems(db: Db, item: string, run: string, worker: string, code: FailureCode, started: bool)
    requires item in db.items
    ensures S.TerminalStep(db, item, run, worker, code, started).0.items ==
      Apply(db, DeadLetterItem(item, S.MutationOwner(db, item, run, worker), Name(code))).0.items
  {
    FailingLeavesTheQueue(db, run);
  }

  lemma RuntimeRetryItems(db: Db, item: string, run: string, worker: string, code: FailureCode, now: int)
    requires item in db.items
    ensures S.RuntimeRetryStep(db, item, run, worker, code, now).0.items ==
      Commit(db, DecideScheduled(db, item, run, worker, Ended(S.RuntimeFailed(code, true)), now)).0.items
  {
    FailingLeavesTheQueue(db, run);
  }

  /** The run's status, which the service also sets to FAILED on the way, is not part of this. */
  lemma ScheduledIsItsPlan(db: Db, item: string, run: string, worker: string, e: ScheduledEnding, now: int)
    requires item in db.items
    ensures ScheduledSettleStep(db, item, run, worker, e, now).0.items ==
      Commit(db, Identify(db, item, run, worker, DecideScheduled(db, item, run, worker, e, now))).0.items
  {
    match e
    case Preclaim(_, _) =>
    case Unrecorded =>
    case StartFailed(code) => TerminalItems(db, item, run, worker, code, false);
    case Ended(end) =>
      match end
      case Stored =>
      case QuarantinedRun =>
      case RuntimeFailed(code, retryable) =>
        if retryable { RuntimeRetryItems(db, item, run, worker, code, now); }
        else { TerminalItems(db, item, run, worker, code, true); }
      case Uncompetitive => TerminalItems(db, item, run, worker, MalformedProposal, true);
  }

  // ----- when the operation issued names no owner

  /** A worker issues an owner-less mutation exactly when it decided on a dead-letter and then saw the item not claimed. */
  lemma WorkerIsOwnerlessIff(
    read: Db, seen: Db, item: string, run: string, worker: string, outcome: Outcome, now: int)
    requires item in read.items
    ensures var plan := Identify(seen, item, run, worker, Decide(read, item, run, worker, outcome, now));
      plan.Issue? && Ownerless(plan.op, item) <==> WouldBury(read.items[item], outcome) && !IsClaimed(seen, item)
  {
  }

  /** The scheduled service exactly before its claim, and for a terminal failure when it saw the item not claimed for its run. */
  lemma SchedulerIsOwnerlessIff(
    read: Db, seen: Db, item: string, run: string, worker: string, e: ScheduledEnding, now: int)
    requires item in read.items
    ensures var plan := Identify(seen, item, run, worker, DecideScheduled(read, item, run, worker, e, now));
      plan.Issue? && Ownerless(plan.op, item) <==> e.Preclaim? || (TerminalEnding(e) && !ClaimedForRun(seen, item, run))
  {
  }

  // ----- issued without the claim

  /** Issued on any later ledger in which the worker does not hold the claim: accepted, as an owner-less mutation of the item in
      whatever state it is now, even claimed by somebody else; or refused without effect. */
  ghost predicate CommitsOwnerless(db: Db, item: string, plan: Plan, ownerless: bool) {
    if ownerless then plan.Issue? && Commit(db, plan).1 == Done && Ownerless(plan.op, item)
    else Commit(db, plan).0 == db && (plan.Issue? ==> Commit(db, plan).1 == Rejected(MutationMismatch))
  }

  /** What a worker without the claim commits is decided by what it read, not by what it finds: it is accepted if and only if it
      had decided on a dead-letter and then saw the item not claimed. */
  lemma WorkerCommitsIff(
    read: Db, seen: Db, db: Db, item: string, run: string, worker: string, outcome: Outcome, now: int)
    requires item in read.items && item in db.items && db.items[item].claimedBy != Some(worker)
    ensures CommitsOwnerless(db, item, Identify(seen, item, run, worker, Decide(read, item, run, worker, outcome, now)),
                             WouldBury(read.items[item], outcome) && !IsClaimed(seen, item))
  {
  }

  lemma SchedulerCommitsIff(
    read: Db, seen: Db, db: Db, item: string, run: string, worker: string, e: ScheduledEnding, now: int)
    requires item in read.items && item in db.items && db.items[item].claimedBy != Some(worker)
    ensures CommitsOwnerless(db, item, Identify(seen, item, run, worker, DecideScheduled(read, item, run, worker, e, now)),
                             e.Preclaim? || (TerminalEnding(e) && !ClaimedForRun(seen, item, run)))
  {
  }
}
