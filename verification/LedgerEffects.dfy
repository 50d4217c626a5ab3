/** What settling and recovering a claim do in every reachable ledger: when they are accepted, and what they leave of the
    item, its run and everything else. */
module LedgerEffects {
  import opened Prelude
  import opened LedgerModel
  import opened LedgerSafety

  const RUNNER_GONE := "runner_host_unavailable"

  // ----- staleness

  /** At least this many seconds lie between the instants; an instant ahead of the clock counts as just now. */
  ghost predicate Elapsed(start: int, now: int, seconds: int) {
    seconds <= 0 || now - start >= seconds * MICROS_PER_SECOND
  }

  lemma AgeReached(start: int, now: int, seconds: int)
    ensures AgeSeconds(start, now) >= seconds <==> Elapsed(start, now, seconds)
  {
  }

  /** A live lease vouches for the claim by its last heartbeat, or by its beginning; without one the claim time decides. */
  ghost predicate Stale(it: Item, lease: Option<LeaseView>, now: int, staleAfter: int) {
    match lease
    case Some(l) =>
      if now < l.expiresAt then
        (match l.heartbeatAt case Some(beat) => Elapsed(beat, now, staleAfter) case None => Elapsed(l.leasedAt, now, staleAfter))
      else it.claimedAt == None || Elapsed(it.claimedAt.value, now, staleAfter)
    case None => it.claimedAt == None || Elapsed(it.claimedAt.value, now, staleAfter)
  }

  lemma StaleIff(it: Item, lease: Option<LeaseView>, now: int, staleAfter: int)
    ensures StaleClaim(it, lease, now, staleAfter) <==> Stale(it, lease, now, staleAfter)
  {
    if it.claimedAt.Some? { AgeReached(it.claimedAt.value, now, staleAfter); }
    if lease.Some? {
      AgeReached(lease.value.leasedAt, now, staleAfter);
      if lease.value.heartbeatAt.Some? { AgeReached(lease.value.heartbeatAt.value, now, staleAfter); }
    }
  }

  /** A stale claim, and only that, is recovered. */
  lemma RecoversIff(db: Db, op: Op)
    requires op.RecoverStale?
    ensures Apply(db, op).1 == Recovered(false) <==>
      op.item in db.items && db.items[op.item].state == Claimed && Stale(db.items[op.item], op.lease, op.now, op.staleAfter)
    ensures Apply(db, op).1 != Recovered(false) ==> Apply(db, op).0 == db
  {
    if op.item in db.items { StaleIff(db.items[op.item], op.lease, op.now, op.staleAfter); }
  }

  // ----- what a recovery leaves

  /** Everything but the rows of one item and one run and the audit is as before. */
  ghost predicate RestUnchanged(before: Db, after: Db, i: string, r: string) {
    && after.items.Keys == before.items.Keys && (forall j :: j in before.items && j != i ==> after.items[j] == before.items[j])
    && after.runs.Keys == before.runs.Keys && (forall q :: q in before.runs && q != r ==> after.runs[q] == before.runs[q])
    && after.links == before.links && after.keys == before.keys && after.snapshots == before.snapshots
  }

  lemma LinkIsRun(db: Db, i: string, r: string)
    requires Consistent(db) && RunOf(db, i, r)
    ensures i in db.links && db.links[i] == r
  {
  }

  lemma ClaimedHasRun(db: Db, i: string) returns (r: string)
    requires Consistent(db) && i in db.items && db.items[i].state == Claimed
    ensures RunOf(db, i, r)
  {
    r := db.links[i];
  }

  lemma RecoveredRow(db: Db, op: Op)
    requires op.RecoverStale? && Apply(db, op).1 == Recovered(false)
    ensures op.item in db.items
    ensures var status := match op.action case RetryClaim => RunQueued case DeadLetterClaim => DeadLetter;
      Apply(db, op).0 == db.(
        items := db.items[op.item := db.items[op.item].(
          state := (match op.action case RetryClaim => Queued case DeadLetterClaim => DeadLettered),
          claimedBy := None, claimedAt := None, availableAt := op.now, lastFailure := Some(RUNNER_GONE))],
        runs := LinkedStatus(db, op.item, status), audit := db.audit + [StaleRecovered(op.item, op.action)])
  {
  }

  lemma LinkedRunMoves(db: Db, i: string, r: string, status: RunStatus)
    requires Consistent(db) && RunOf(db, i, r)
    ensures LinkedStatus(db, i, status) == db.runs[r := db.runs[r].(status := status)]
  {
    LinkIsRun(db, i, r);
  }

  /** A recovered claim is gone. A retry puts item and run back to QUEUED and the item to available; the other recovery
      leaves both in DEAD_LETTER. Attempts, topic, key and the run's other fields stay, and so does every other row. */
  lemma RecoveryMovesTheRun(ops: seq<Op>, op: Op, r: string)
    requires ProperHistory(ops) && op.RecoverStale? && Apply(Run(EmptyDb(), ops), op).1 == Recovered(false)
    requires RunOf(Run(EmptyDb(), ops), op.item, r)
    ensures var before, after := Run(EmptyDb(), ops), Apply(Run(EmptyDb(), ops), op).0;
      && RestUnchanged(before, after, op.item, r)
      && after.runs[r] == before.runs[r].(status := match op.action case RetryClaim => RunQueued case DeadLetterClaim => DeadLetter)
      && after.items[op.item] == before.items[op.item].(
           state := (match op.action case RetryClaim => Queued case DeadLetterClaim => DeadLettered),
           claimedBy := None, claimedAt := None, availableAt := op.now, lastFailure := Some(RUNNER_GONE))
      && after.audit == before.audit + [StaleRecovered(op.item, op.action)]
  {
    ReachableIsConsistent(ops);
    RecoveredRow(Run(EmptyDb(), ops), op);
    LinkedRunMoves(
      Run(EmptyDb(), ops), op.item, r, match op.action case RetryClaim => RunQueued case DeadLetterClaim => DeadLetter);
  }

  /** Every recovered claim had a run, so the previous result speaks of every recovery. */
  lemma RecoveryHasRun(ops: seq<Op>, op: Op) returns (r: string)
    requires ProperHistory(ops) && op.RecoverStale? && Apply(Run(EmptyDb(), ops), op).1 == Recovered(false)
    ensures RunOf(Run(EmptyDb(), ops), op.item, r)
  {
    ReachableIsConsistent(ops);
    r := ClaimedHasRun(Run(EmptyDb(), ops), op.item);
  }

  /** Recovering a dead-lettered item, and nothing else, is accepted; it leaves item and run QUEUED and every other row as
      it was. */
  lemma DeadLetterRecoveryMovesTheRun(ops: seq<Op>, op: Op, r: string)
    requires ProperHistory(ops) && op.RecoverDeadLetter? && RunOf(Run(EmptyDb(), ops), op.item, r)
    ensures var before, after := Run(EmptyDb(), ops), Apply(Run(EmptyDb(), ops), op).0;
      && op.item in before.items
      && (Apply(before, op).1 == Recovered(false) <==> before.items[op.item].state == DeadLettered)
      && (before.items[op.item].state == DeadLettered ==>
           && RestUnchanged(before, after, op.item, r)
           && after.runs[r] == before.runs[r].(status := RunQueued)
           && after.items[op.item] ==
                before.items[op.item].(state := Queued, claimedBy := None, claimedAt := None, availableAt := op.availableAt))
      && (before.items[op.item].state != DeadLettered ==> after == before)
  {
    ReachableIsConsistent(ops);
    LinkIsRun(Run(EmptyDb(), ops), op.item, r);
  }

  /** An item dead-lettered before it had a run is requeued, and no run changes. */
  lemma RunlessRecovery(ops: seq<Op>, op: Op)
    requires ProperHistory(ops) && op.RecoverDeadLetter? && op.item in Run(EmptyDb(), ops).items
    requires forall r :: !RunOf(Run(EmptyDb(), ops), op.item, r)
    ensures Apply(Run(EmptyDb(), ops), op).0.runs == Run(EmptyDb(), ops).runs
    ensures Run(EmptyDb(), ops).items[op.item].state == DeadLettered ==>
      Apply(Run(EmptyDb(), ops), op).0.items[op.item].state == Queued
  {
    var db := Run(EmptyDb(), ops);
    ReachableIsConsistent(ops);
    if op.item in db.links { assert RunOf(db, op.item, db.links[op.item]); }
  }

  // ----- settling

  /** The owner named holds the claim: the item is CLAIMED, by the worker if one is named, for the run if one is named. */
  ghost predicate HoldsClaim(db: Db, i: string, owner: Owner) {
    && i in db.items && db.items[i].state == Claimed
    && (forall w :: owner.worker == Some(w) ==> db.items[i].claimedBy == Some(w))
    && (forall r :: owner.run == Some(r) ==> RunOf(db, i, r))
  }

  lemma OwnsRead(db: Db, i: string, owner: Owner)
    requires Consistent(db)
    ensures OwnsClaim(db, i, owner) <==> HoldsClaim(db, i, owner)
  {
    forall r | RunOf(db, i, r) { LinkIsRun(db, i, r); }
  }

  ghost predicate OnlyItem(before: Db, after: Db, i: string) {
    && after.items.Keys == before.items.Keys && (forall j :: j in before.items && j != i ==> after.items[j] == before.items[j])
    && after.links == before.links && after.keys == before.keys && after.snapshots == before.snapshots
    && after.audit == before.audit
  }

  /** A retry is accepted from the holder of the claim, or from a caller that names no owner; it requeues the item at the cost
      of one attempt and touches no run. */
  lemma RetryLeaves(ops: seq<Op>, op: Op)
    requires ProperHistory(ops) && op.Retry?
    ensures var before, after := Run(EmptyDb(), ops), Apply(Run(EmptyDb(), ops), op).0;
      && (Apply(before, op).1 == Done <==>
           op.item in before.items && (op.owner != Owner(None, None) ==> HoldsClaim(before, op.item, op.owner)))
      && (Apply(before, op).1 != Done ==> Apply(before, op) == (before, Rejected(MutationMismatch)))
      && (Apply(before, op).1 == Done ==>
           && OnlyItem(before, after, op.item) && after.runs == before.runs
           && after.items[op.item] == before.items[op.item].(
                state := Queued, claimedBy := None, claimedAt := None, attempts := before.items[op.item].attempts + 1,
                availableAt := op.nextAt, lastFailure := Some(op.failure)))
  {
    ReachableIsConsistent(ops);
    OwnsRead(Run(EmptyDb(), ops), op.item, op.owner);
  }

  /** A completion is accepted from the claimant for the item's run, and from nobody else. */
  lemma CompleteLeaves(ops: seq<Op>, op: Op)
    requires ProperHistory(ops) && op.Complete?
    ensures var before, after := Run(EmptyDb(), ops), Apply(Run(EmptyDb(), ops), op).0;
      && (Apply(before, op).1 == Done <==>
           && op.item in before.items && before.items[op.item].state == Claimed
           && before.items[op.item].claimedBy == Some(op.worker) && RunOf(before, op.item, op.runId))
      && (Apply(before, op).1 != Done ==> Apply(before, op) == (before, Rejected(MutationMismatch)))
      && (Apply(before, op).1 == Done ==>
           && OnlyItem(before, after, op.item) && after.runs == before.runs
           && after.items[op.item] == before.items[op.item].(state := Completed, claimedBy := None, claimedAt := None))
  {
    ReachableIsConsistent(ops);
    OwnsRead(Run(EmptyDb(), ops), op.item, Owner(Some(op.runId), Some(op.worker)));
  }

  ghost predicate OnlyBuries(before: Db, after: Db, named: Option<string>) {
    && after.runs.Keys == before.runs.Keys
    && forall r :: r in before.runs ==>
         after.runs[r] == if named == Some(r) then before.runs[r].(status := DeadLetter) else before.runs[r]
  }

  /** A dead-letter is accepted on the same terms as a retry; it also costs an attempt, and it takes the run it names, and no
      other, to DEAD_LETTER. */
  lemma DeadLetterLeaves(ops: seq<Op>, op: Op)
    requires ProperHistory(ops) && op.DeadLetterItem?
    ensures var before, after := Run(EmptyDb(), ops), Apply(Run(EmptyDb(), ops), op).0;
      && (Apply(before, op).1 == Done <==>
           op.item in before.items && (op.owner != Owner(None, None) ==> HoldsClaim(before, op.item, op.owner)))
      && (Apply(before, op).1 != Done ==> Apply(before, op) == (before, Rejected(MutationMismatch)))
      && (Apply(before, op).1 == Done ==>
           && OnlyItem(before, after, op.item) && OnlyBuries(before, after, op.owner.run)
           && after.items[op.item] == before.items[op.item].(
                state := DeadLettered, claimedBy := None, claimedAt := None,
                attempts := before.items[op.item].attempts + 1, lastFailure := Some(op.failure)))
  {
    ReachableIsConsistent(ops);
    OwnsRead(Run(EmptyDb(), ops), op.item, op.owner);
  }

  // ----- the unique keys of the queue

  ghost predicate KeysDistinct(db: Db) {
    forall i, j :: i in db.items && j in db.items && i != j ==>
      db.items[i].dedupeKey != db.items[j].dedupeKey && db.items[i].key != db.items[j].key
  }

  ghost predicate SameKeys(before: Db, after: Db) {
    && after.items.Keys == before.items.Keys
    && forall i :: i in before.items ==>
         after.items[i].dedupeKey == before.items[i].dedupeKey && after.items[i].key == before.items[i].key
  }

  /** The operation leaves the items as they are, or changes one row except for its keys. */
  ghost predicate OneRowChanges(before: Db, after: Db, i: string) {
    || after.items == before.items
    || (i in before.items && i in after.items && after.items == before.items[i := after.items[i]]
        && after.items[i].dedupeKey == before.items[i].dedupeKey && after.items[i].key == before.items[i].key)
  }

  lemma ClaimChangesOneRow(db: Db, op: Op)
    requires op.Claim?
    ensures OneRowChanges(db, Apply(db, op).0, op.item)
  {
    ClaimCases(db, op.item, op.worker, op.runId, op.mode, op.now);
  }

  lemma SettlingChangesOneRow(db: Db, op: Op)
    requires op.Retry? || op.Complete? || op.DeadLetterItem?
    ensures OneRowChanges(db, Apply(db, op).0, op.item)
  {
  }

  lemma RecoveryChangesOneRow(db: Db, op: Op)
    requires op.RecoverDeadLetter? || op.RecoverStale?
    ensures OneRowChanges(db, Apply(db, op).0, op.item)
  {
  }

  lemma OneRowKeepsKeys(before: Db, after: Db, i: string)
    requires OneRowChanges(before, after, i)
    ensures SameKeys(before, after)
  {
  }

  lemma OthersKeepKeys(db: Db, op: Op)
    requires !op.Enqueue?
    ensures SameKeys(db, Apply(db, op).0)
  {
    if op.Claim? {
      ClaimChangesOneRow(db, op);
      OneRowKeepsKeys(db, Apply(db, op).0, op.item);
    } else if op.Retry? || op.Complete? || op.DeadLetterItem? {
      SettlingChangesOneRow(db, op);
      OneRowKeepsKeys(db, Apply(db, op).0, op.item);
    } else if op.RecoverDeadLetter? || op.RecoverStale? {
      RecoveryChangesOneRow(db, op);
      OneRowKeepsKeys(db, Apply(db, op).0, op.item);
    }
  }

  /** An item is enqueued exactly when its id and both its keys are new to the queue; it starts unclaimed. */
  lemma EnqueueLeaves(db: Db, op: Op)
    requires op.Enqueue?
    ensures var (after, reply) := Apply(db, op);
      && (reply == Done <==>
           && op.item !in db.items
           && forall i :: i in db.items ==> db.items[i].dedupeKey != op.row.dedupeKey && db.items[i].key != op.row.key)
      && (reply != Done ==> after == db)
      && (reply == Done ==>
           && after.items == db.items[op.item := op.row.(claimedBy := None, claimedAt := None)]
           && after == db.(items := after.items))
  {
  }

  /** In every history no two items share a dedupe key or an idempotency key. */
  lemma {:induction false} QueueKeysAreUnique(ops: seq<Op>)
    ensures KeysDistinct(Run(EmptyDb(), ops))
  {
    if |ops| != 0 {
      var db, op := Run(EmptyDb(), ops[..|ops| - 1]), ops[|ops| - 1];
      QueueKeysAreUnique(ops[..|ops| - 1]);
      if op.Enqueue? {
        EnqueueLeaves(db, op);
      } else {
        OthersKeepKeys(db, op);
      }
    }
  }
}
