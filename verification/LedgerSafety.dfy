/** What every history of ledger operations keeps, in any interleaving of any workers, crashes and operators: since
    each operation is one transaction, an interleaving is a sequence of operations. */
module LedgerSafety {
  import opened Prelude
  import opened LedgerModel

  /** Producers only ever enqueue items in the queued state. */
  ghost predicate ProperOp(op: Op) {
    op.Enqueue? ==> op.row.state == Queued
  }

  ghost predicate ProperHistory(ops: seq<Op>) {
    forall op :: op in ops ==> ProperOp(op)
  }

  /** The operations a worker performs on a queue item. */
  predicate Working(op: Op) {
    op.Claim? || op.Retry? || op.Complete? || op.DeadLetterItem?
  }

  lemma RunOneMore(ops: seq<Op>, op: Op)
    ensures Run(EmptyDb(), ops + [op]) == Apply(Run(EmptyDb(), ops), op).0
  {
    assert (ops + [op])[..|ops|] == ops;
  }

  // ----- ownership

  ghost predicate ItemsOk(db: Db) {
    forall i :: i in db.items ==>
      (db.items[i].state == Claimed <==> db.items[i].claimedBy.Some?) && (db.items[i].state == Claimed ==> i in db.links)
  }

  ghost predicate LinksOk(db: Db) {
    && (forall i :: i in db.links ==> i in db.items && db.links[i] in db.runs && db.runs[db.links[i]].item == i)
    && (forall r :: r in db.runs ==> db.runs[r].item in db.links && db.links[db.runs[r].item] == r)
  }

  ghost predicate KeysOk(db: Db) {
    forall r :: r in db.runs ==>
      && db.runs[r].item in db.items
      && db.runs[r].key == db.items[db.runs[r].item].key
      && db.runs[r].topic == db.items[db.runs[r].item].topic
      && db.runs[r].key in db.keys && db.keys[db.runs[r].key].run == Some(r)
  }

  ghost predicate Consistent(db: Db) {
    ItemsOk(db) && LinksOk(db) && KeysOk(db)
  }

  lemma StartRunKeepsLinks(db: Db, item: string, worker: string, run: string, mode: RunMode, now: int)
    requires Consistent(db) && item in db.items && item !in db.links && RunInsertable(db, item, run)
    ensures LinksOk(StartRun(db, item, worker, run, mode, now))
  {
  }

  lemma StartRunKeepsKeys(db: Db, item: string, worker: string, run: string, mode: RunMode, now: int)
    requires Consistent(db) && item in db.items && item !in db.links && RunInsertable(db, item, run)
    ensures KeysOk(StartRun(db, item, worker, run, mode, now))
  {
    var out := StartRun(db, item, worker, run, mode, now);
    forall r | r in db.runs ensures db.runs[r].key != db.items[item].key && out.keys[db.runs[r].key] == db.keys[db.runs[r].key] {
      assert !KeyHasRun(db, db.items[item].key);
    }
  }

  lemma ReclaimKeepsConsistent(db: Db, item: string, worker: string, now: int)
    requires Consistent(db) && item in db.items && item in db.links
    ensures Consistent(db.(items := db.items[item := MarkClaimed(db.items[item], worker, now)]))
  {
  }

  lemma StartRunKeepsConsistent(db: Db, item: string, worker: string, run: string, mode: RunMode, now: int)
    requires Consistent(db) && item in db.items && item !in db.links && RunInsertable(db, item, run)
    ensures Consistent(StartRun(db, item, worker, run, mode, now))
  {
    StartRunKeepsLinks(db, item, worker, run, mode, now);
    StartRunKeepsKeys(db, item, worker, run, mode, now);
  }

  lemma ClaimCases(db: Db, item: string, worker: string, run: string, mode: RunMode, now: int)
    ensures var after := ClaimStep(db, item, worker, run, mode, now).0;
      || after == db
      || (item in db.items && item in db.links && after == db.(items := db.items[item := MarkClaimed(db.items[item], worker, now)]))
      || (item in db.items && item !in db.links && RunInsertable(db, item, run) && after == StartRun(db, item, worker, run, mode, now))
  {
  }

  lemma ClaimKeepsConsistent(db: Db, item: string, worker: string, run: string, mode: RunMode, now: int)
    requires Consistent(db)
    ensures Consistent(ClaimStep(db, item, worker, run, mode, now).0)
  {
    ClaimCases(db, item, worker, run, mode, now);
    if item in db.items && item in db.links {
      ReclaimKeepsConsistent(db, item, worker, now);
    } else if item in db.items && RunInsertable(db, item, run) {
      StartRunKeepsConsistent(db, item, worker, run, mode, now);
    }
  }

  lemma StatusKeepsConsistent(db: Db, run: string, status: RunStatus)
    requires Consistent(db)
    ensures Consistent(db.(runs := SetStatus(db, run, status)))
  {
  }

  lemma SettleKeepsConsistent(db: Db, item: string, row: Item)
    requires Consistent(db) && item in db.items
    requires row.claimedBy == None && row.state != Claimed && row.key == db.items[item].key && row.topic == db.items[item].topic
    ensures Consistent(db.(items := db.items[item := row]))
  {
  }

  lemma DeadLetterKeepsConsistent(db: Db, item: string, owner: Owner, failure: string)
    requires Consistent(db)
    ensures Consistent(DeadLetterStep(db, item, owner, failure).0)
  {
    if MayMutate(db, item, owner) {
      var out := DeadLetterStep(db, item, owner, failure).0;
      var settled := db.(items := out.items);
      SettleKeepsConsistent(db, item, out.items[item]);
      if owner.run.Some? {
        StatusKeepsConsistent(settled, owner.run.value, DeadLetter);
        assert out == settled.(runs := SetStatus(settled, owner.run.value, DeadLetter));
      }
    }
  }

  lemma AuditKeepsConsistent(db: Db, entry: Audit)
    requires Consistent(db)
    ensures Consistent(db.(audit := db.audit + [entry]))
  {
  }

  lemma RecoveryKeepsConsistent(db: Db, item: string, row: Item, status: RunStatus, entry: Audit)
    requires Consistent(db) && item in db.items
    requires row.claimedBy == None && row.state != Claimed && row.key == db.items[item].key && row.topic == db.items[item].topic
    ensures Consistent(db.(items := db.items[item := row], runs := LinkedStatus(db, item, status), audit := db.audit + [entry]))
  {
    var settled := db.(items := db.items[item := row]);
    var moved := settled.(runs := LinkedStatus(db, item, status));
    SettleKeepsConsistent(db, item, row);
    if item in db.links {
      StatusKeepsConsistent(settled, db.links[item], status);
      assert moved == settled.(runs := SetStatus(settled, db.links[item], status));
    }
    assert Consistent(moved);
    AuditKeepsConsistent(moved, entry);
  }

  lemma RetryKeepsConsistent(db: Db, item: string, owner: Owner, failure: string, nextAt: int)
    requires Consistent(db)
    ensures Consistent(RetryStep(db, item, owner, failure, nextAt).0)
  {
    if MayMutate(db, item, owner) {
      SettleKeepsConsistent(db, item, RetryStep(db, item, owner, failure, nextAt).0.items[item]);
    }
  }

  lemma CompleteKeepsConsistent(db: Db, item: string, run: string, worker: string)
    requires Consistent(db)
    ensures Consistent(CompleteStep(db, item, run, worker).0)
  {
    if OwnsClaim(db, item, Owner(Some(run), Some(worker))) {
      SettleKeepsConsistent(db, item, CompleteStep(db, item, run, worker).0.items[item]);
    }
  }

  lemma RecoverDeadLetterKeepsConsistent(db: Db, item: string, availableAt: int)
    requires Consistent(db)
    ensures Consistent(RecoverDeadLetterStep(db, item, availableAt).0)
  {
    if item in db.items && db.items[item].state == DeadLettered {
      RecoveryKeepsConsistent(
        db, item, RecoverDeadLetterStep(db, item, availableAt).0.items[item], RunQueued, DeadLetterRecovered(item));
    }
  }

  lemma RecoverStaleKeepsConsistent(
    db: Db, item: string, action: RecoveryAction, now: int, lease: Option<LeaseView>, staleAfter: int)
    requires Consistent(db)
    ensures Consistent(RecoverStaleStep(db, item, action, now, lease, staleAfter).0)
  {
    var out := RecoverStaleStep(db, item, action, now, lease, staleAfter).0;
    if item in db.items && db.items[item].state == Claimed && StaleClaim(db.items[item], lease, now, staleAfter) {
      var status := if action == RetryClaim then RunQueued else DeadLetter;
      RecoveryKeepsConsistent(db, item, out.items[item], status, StaleRecovered(item, action));
    }
  }

  lemma EnqueueKeepsConsistent(db: Db, id: string, row: Item)
    requires Consistent(db) && row.state == Queued
    ensures Consistent(Apply(db, Enqueue(id, row)).0)
  {
    var out := Apply(db, Enqueue(id, row)).0;
    assert out.runs == db.runs && out.links == db.links && out.keys == db.keys;
    assert forall i :: i in db.items ==> i in out.items && out.items[i] == db.items[i];
  }

  lemma ReserveKeepsConsistent(db: Db, key: string, digest: string, run: Option<string>)
    requires Consistent(db)
    ensures Consistent(Apply(db, Reserve(key, digest, run)).0)
  {
  }

  lemma TransitionKeepsConsistent(db: Db, run: string, to: RunStatus, pin: Option<nat>, expected: Option<RunStatus>)
    requires Consistent(db)
    ensures Consistent(TransitionStep(db, run, to, pin, expected).0)
  {
  }

  lemma StepKeepsConsistent(db: Db, op: Op)
    requires Consistent(db) && ProperOp(op)
    ensures Consistent(Apply(db, op).0)
  {
    match op
    case Claim(item, worker, run, mode, now) => ClaimKeepsConsistent(db, item, worker, run, mode, now);
    case Retry(item, owner, failure, nextAt) => RetryKeepsConsistent(db, item, owner, failure, nextAt);
    case Complete(item, run, worker) => CompleteKeepsConsistent(db, item, run, worker);
    case DeadLetterItem(item, owner, failure) => DeadLetterKeepsConsistent(db, item, owner, failure);
    case RecoverDeadLetter(item, availableAt) => RecoverDeadLetterKeepsConsistent(db, item, availableAt);
    case RecoverStale(item, action, now, lease, staleAfter) =>
      RecoverStaleKeepsConsistent(db, item, action, now, lease, staleAfter);
    case Reserve(key, digest, run) => ReserveKeepsConsistent(db, key, digest, run);
    case Enqueue(id, row) => EnqueueKeepsConsistent(db, id, row);
    case Transition(run, to, pin, expected) => TransitionKeepsConsistent(db, run, to, pin, expected);
    case StoreSnapshot(_) =>
  }

  lemma {:induction false} ReachableIsConsistent(ops: seq<Op>)
    requires ProperHistory(ops)
    ensures Consistent(Run(EmptyDb(), ops))
  {
    if |ops| != 0 {
      ReachableIsConsistent(ops[..|ops| - 1]);
      StepKeepsConsistent(Run(EmptyDb(), ops[..|ops| - 1]), ops[|ops| - 1]);
    }
  }

  ghost predicate RunOf(db: Db, i: string, r: string) {
    r in db.runs && db.runs[r].item == i
  }

  /** In every reachable ledger an item is CLAIMED exactly when it has a claimant, a CLAIMED item has a run, no item has
      two runs, every run's idempotency key records that run, and no two runs share a key. */
  lemma OwnershipInEveryReachableLedger(ops: seq<Op>)
    requires ProperHistory(ops)
    ensures var db := Run(EmptyDb(), ops);
      && (forall i :: i in db.items ==> (db.items[i].state == Claimed <==> db.items[i].claimedBy.Some?))
      && (forall i :: i in db.items && db.items[i].state == Claimed ==> exists r :: RunOf(db, i, r))
      && (forall i, r, s :: RunOf(db, i, r) && RunOf(db, i, s) ==> r == s)
      && (forall r :: r in db.runs ==> db.runs[r].key in db.keys && db.keys[db.runs[r].key].run == Some(r))
      && (forall r, s :: r in db.runs && s in db.runs && db.runs[r].key == db.runs[s].key ==> r == s)
  {
    var db := Run(EmptyDb(), ops);
    ReachableIsConsistent(ops);
    forall i | i in db.items && db.items[i].state == Claimed ensures exists r :: RunOf(db, i, r) {
      assert RunOf(db, i, db.links[i]);
    }
  }

  // ----- fencing

  ghost predicate Ownerless(op: Op, i: string) {
    (op.Retry? || op.DeadLetterItem?) && op.item == i && !op.owner.Named()
  }

  /** A settling operation on item i that names the current claimant and run wherever it names any. */
  ghost predicate SettledByClaimant(db: Db, op: Op, i: string)
    requires i in db.items
  {
    || (op.Complete? && op.item == i && db.items[i].claimedBy == Some(op.worker) && i in db.links && db.links[i] == op.runId)
    || ((op.Retry? || op.DeadLetterItem?) && op.item == i && op.owner.Named() && OwnsClaim(db, i, op.owner))
  }

  ghost predicate RecoversStale(db: Db, op: Op, i: string)
    requires i in db.items
  {
    op.RecoverStale? && op.item == i && StaleClaim(db.items[i], op.lease, op.now, op.staleAfter)
  }

  /** The operation leaves the item as it is, or changes it by one of these rights. */
  ghost predicate ChangesByRight(db: Db, op: Op, i: string)
    requires i in db.items
  {
    && i in Apply(db, op).0.items
    && (Apply(db, op).0.items[i] != db.items[i] ==> SettledByClaimant(db, op, i) || RecoversStale(db, op, i) || Ownerless(op, i))
  }

  lemma WorkChangesByRight(db: Db, op: Op, i: string)
    requires Working(op) && i in db.items && db.items[i].state == Claimed
    ensures ChangesByRight(db, op, i)
  {
    match op
    case Claim(_, _, _, _, _) =>
    case Retry(_, _, _, _) =>
    case Complete(_, _, _) =>
    case DeadLetterItem(_, _, _) =>
  }

  /** A CLAIMED item changes only by its claimant settling it, by an operator recovering a stale claim, or by a mutation
      that names no owner. */
  lemma OnlyClaimantChangesClaimed(db: Db, op: Op, i: string)
    requires i in db.items && db.items[i].state == Claimed
    ensures ChangesByRight(db, op, i)
  {
    match op
    case RecoverDeadLetter(_, _) =>
    case RecoverStale(_, _, _, _, _) =>
    case Reserve(_, _, _) =>
    case Enqueue(_, _) =>
    case StoreSnapshot(_) =>
    case Transition(_, _, _, _) =>
    case _ => WorkChangesByRight(db, op, i);
  }

  /** Whether op is a mutation of item i by worker w. */
  ghost predicate SettlesAs(op: Op, i: string, w: string) {
    || (op.Complete? && op.item == i && op.worker == w)
    || ((op.Retry? || op.DeadLetterItem?) && op.item == i && op.owner.worker == Some(w))
  }

  lemma ClaimantStaysOutStep(db: Db, op: Op, i: string, w: string)
    requires i in db.items && db.items[i].claimedBy != Some(w)
    requires !(op.Claim? && op.item == i && op.worker == w)
    ensures i in Apply(db, op).0.items && Apply(db, op).0.items[i].claimedBy != Some(w)
  {
    match op
    case Claim(_, _, _, _, _) =>
    case Retry(_, _, _, _) =>
    case Complete(_, _, _) =>
    case DeadLetterItem(_, _, _) =>
    case RecoverDeadLetter(_, _) =>
    case RecoverStale(_, _, _, _, _) =>
    case Reserve(_, _, _) =>
    case Enqueue(_, _) =>
    case StoreSnapshot(_) =>
    case Transition(_, _, _, _) =>
  }

  lemma {:induction false} ClaimantStaysOut(db: Db, ops: seq<Op>, i: string, w: string)
    requires i in db.items && db.items[i].claimedBy != Some(w)
    requires forall op :: op in ops ==> !(op.Claim? && op.item == i && op.worker == w)
    ensures i in Run(db, ops).items && Run(db, ops).items[i].claimedBy != Some(w)
  {
    if |ops| != 0 {
      ClaimantStaysOut(db, ops[..|ops| - 1], i, w);
      ClaimantStaysOutStep(Run(db, ops[..|ops| - 1]), ops[|ops| - 1], i, w);
    }
  }

  /** Once a stale claim of worker w has been recovered, whatever happens next, every mutation that names w is refused and
      changes nothing until w has claimed the item again. (Fencing says what w's executions do without naming it.) */
  lemma RecoveredWorkerIsFenced(db: Db, recovery: Op, ops: seq<Op>, late: Op, i: string, w: string)
    requires i in db.items && recovery.RecoverStale? && recovery.item == i
    requires Apply(db, recovery).1 == Recovered(false)
    requires forall op :: op in ops ==> !(op.Claim? && op.item == i && op.worker == w)
    requires SettlesAs(late, i, w)
    ensures var now := Run(Apply(db, recovery).0, ops); Apply(now, late) == (now, Rejected(MutationMismatch))
  {
    ClaimantStaysOut(Apply(db, recovery).0, ops, i, w);
  }

  lemma AuditGrowsStep(db: Db, op: Op)
    ensures db.audit <= Apply(db, op).0.audit
  {
  }

  lemma {:induction false} AuditGrows(db: Db, ops: seq<Op>, entry: Audit)
    requires entry in db.audit
    ensures entry in Run(db, ops).audit
  {
    if |ops| != 0 {
      AuditGrows(db, ops[..|ops| - 1], entry);
      AuditGrowsStep(Run(db, ops[..|ops| - 1]), ops[|ops| - 1]);
    }
  }

  /** Repeating a recovery that was carried out before is answered as a repetition and changes nothing, as long as the
      item is not claimed again. */
  lemma RepeatedRecoveryIsIdempotent(db: Db, recovery: Op, ops: seq<Op>, again: Op, i: string)
    requires recovery.RecoverStale? && again.RecoverStale? && recovery.item == again.item == i && recovery.action == again.action
    requires Apply(db, recovery).1 == Recovered(false)
    requires var now := Run(Apply(db, recovery).0, ops); i in now.items && now.items[i].state != Claimed
    ensures var now := Run(Apply(db, recovery).0, ops); Apply(now, again) == (now, Recovered(true))
  {
    AuditGrows(Apply(db, recovery).0, ops, StaleRecovered(i, recovery.action));
  }

  // ----- completions

  ghost function AcceptedCompletion(db: Db, op: Op, i: string): nat {
    if op.Complete? && op.item == i && Apply(db, op).1.Done? then 1 else 0
  }

  /** An owner-less mutation that takes item i out of COMPLETED. */
  ghost function Reopening(db: Db, op: Op, i: string): nat {
    if Ownerless(op, i) && i in db.items && db.items[i].state == Completed then 1 else 0
  }

  ghost function Completions(ops: seq<Op>, i: string): nat {
    if |ops| == 0 then 0 else
      var init := ops[..|ops| - 1];
      Completions(init, i) + AcceptedCompletion(Run(EmptyDb(), init), ops[|ops| - 1], i)
  }

  ghost function Reopenings(ops: seq<Op>, i: string): nat {
    if |ops| == 0 then 0 else
      var init := ops[..|ops| - 1];
      Reopenings(init, i) + Reopening(Run(EmptyDb(), init), ops[|ops| - 1], i)
  }

  ghost function IsCompleted(db: Db, i: string): nat {
    if i in db.items && db.items[i].state == Completed then 1 else 0
  }

  ghost predicate CompletionsBalance(db: Db, op: Op, i: string) {
    IsCompleted(Apply(db, op).0, i) + Reopening(db, op, i) == IsCompleted(db, i) + AcceptedCompletion(db, op, i)
  }

  lemma WorkBalances(db: Db, op: Op, i: string)
    requires Working(op)
    ensures CompletionsBalance(db, op, i)
  {
    match op
    case Claim(_, _, _, _, _) =>
    case Retry(_, _, _, _) =>
    case Complete(_, _, _) =>
    case DeadLetterItem(_, _, _) =>
  }

  lemma CompletionStep(db: Db, op: Op, i: string)
    requires ProperOp(op)
    ensures CompletionsBalance(db, op, i)
  {
    match op
    case RecoverDeadLetter(_, _) =>
    case RecoverStale(_, _, _, _, _) =>
    case Reserve(_, _, _) =>
    case Enqueue(_, _) =>
    case StoreSnapshot(_) =>
    case Transition(_, _, _, _) =>
    case _ => WorkBalances(db, op, i);
  }

  /** Over every history: completions accepted for an item = owner-less reopenings of it + 1 if it is COMPLETED now. */
  lemma {:induction false} CompletionsAreAccountedFor(ops: seq<Op>, i: string)
    requires ProperHistory(ops)
    ensures Completions(ops, i) == Reopenings(ops, i) + IsCompleted(Run(EmptyDb(), ops), i)
  {
    if |ops| != 0 {
      CompletionsAreAccountedFor(ops[..|ops| - 1], i);
      CompletionStep(Run(EmptyDb(), ops[..|ops| - 1]), ops[|ops| - 1], i);
    }
  }

  /** Owner-less mutations are confined to QUEUED items. Workers and the scheduled service do not guarantee this: Fencing
      says when they issue owner-less mutations, and that a completed item can be reopened by them. */
  ghost predicate Confined(ops: seq<Op>) {
    forall k :: 0 <= k < |ops| && (ops[k].Retry? || ops[k].DeadLetterItem?) && !ops[k].owner.Named() ==>
      var db := Run(EmptyDb(), ops[..k]);
      ops[k].item in db.items ==> db.items[ops[k].item].state == Queued
  }

  lemma {:induction false} ConfinedNeverReopens(ops: seq<Op>, i: string)
    requires Confined(ops)
    ensures Reopenings(ops, i) == 0
  {
    if |ops| != 0 {
      var init := ops[..|ops| - 1];
      forall k | 0 <= k < |init| ensures init[k] == ops[k] && init[..k] == ops[..k] {}
      assert Confined(init) by {
        forall k | 0 <= k < |init| && (init[k].Retry? || init[k].DeadLetterItem?) && !init[k].owner.Named()
          ensures var db := Run(EmptyDb(), init[..k]); init[k].item in db.items ==> db.items[init[k].item].state == Queued
        {
          assert ops[k] == init[k] && ops[..k] == init[..k];
        }
      }
      ConfinedNeverReopens(init, i);
      var k := |ops| - 1;
      assert ops[..k] == init;
    }
  }

  /** With owner-less mutations confined to QUEUED items, at most one completion of an item is ever accepted. */
  lemma AtMostOneCompletion(ops: seq<Op>, i: string)
    requires ProperHistory(ops) && Confined(ops)
    ensures Completions(ops, i) <= 1
  {
    CompletionsAreAccountedFor(ops, i);
    ConfinedNeverReopens(ops, i);
  }
}
