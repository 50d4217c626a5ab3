/** How far fencing goes. A worker that has lost its claim has everything refused that names it. But whether its failure names it
    is decided by what it reads: if it then sees the item not claimed, the dead-letter names nobody, and is recorded whatever
    the item is by then: completed, or claimed by somebody else. */
module Fencing {
  import opened Prelude
  import opened Failures
  import opened LedgerModel
  import opened LedgerSafety
  import opened QueueWorker
  import opened Settlement
  import opened Executions
  import S = Scheduled

  // ----- after a recovery

  ghost predicate NoClaimBy(ops: seq<Op>, i: string, w: string) {
    forall op :: op in ops ==> !(op.Claim? && op.item == i && op.worker == w)
  }

  /** A worker whose stale claim was recovered and that has not claimed again, whenever it read the item: what it commits is
      accepted exactly when it had decided on a dead-letter and then saw the item not claimed, and changes nothing otherwise. */
  lemma RecoveredWorkerCommitsIff(
    db: Db, recovery: Op, ops: seq<Op>, read: Db, seen: Db, i: string, run: string, w: string, outcome: Outcome, t: int)
    requires i in db.items && recovery.RecoverStale? && recovery.item == i && Apply(db, recovery).1 == Recovered(false)
    requires NoClaimBy(ops, i, w) && i in read.items
    ensures CommitsOwnerless(Run(Apply(db, recovery).0, ops), i, Identify(seen, i, run, w, Decide(read, i, run, w, outcome, t)),
                             WouldBury(read.items[i], outcome) && !IsClaimed(seen, i))
  {
    ClaimantStaysOut(Apply(db, recovery).0, ops, i, w);
    WorkerCommitsIff(read, seen, Run(Apply(db, recovery).0, ops), i, run, w, outcome, t);
  }

  /** The same for the scheduled service, for each of its endings. */
  lemma RecoveredSchedulerCommitsIff(
    db: Db, recovery: Op, ops: seq<Op>, read: Db, seen: Db, i: string, run: string, w: string, e: ScheduledEnding, t: int)
    requires i in db.items && recovery.RecoverStale? && recovery.item == i && Apply(db, recovery).1 == Recovered(false)
    requires NoClaimBy(ops, i, w) && i in read.items
    ensures CommitsOwnerless(
      Run(Apply(db, recovery).0, ops), i, Identify(seen, i, run, w, DecideScheduled(read, i, run, w, e, t)),
      e.Preclaim? || (TerminalEnding(e) && !ClaimedForRun(seen, i, run)))
  {
    ClaimantStaysOut(Apply(db, recovery).0, ops, i, w);
    SchedulerCommitsIff(read, seen, Run(Apply(db, recovery).0, ops), i, run, w, e, t);
  }

  /** Right after any accepted recovery, a terminal failure of the recovered worker buries the item and costs an attempt. */
  lemma LateFailureBuries(db: Db, recovery: Op, i: string, run: string, w: string, code: FailureCode, t: int)
    requires i in db.items && recovery.RecoverStale? && recovery.item == i && Apply(db, recovery).1 == Recovered(false)
    ensures var (after, result) := SettleStep(Apply(db, recovery).0, i, run, w, Fatal(code), t);
      && result == Buried(code) && i in after.items && after.items[i].state == DeadLettered
      && after.items[i].attempts == db.items[i].attempts + 1
  {
  }

  /** The dead-letter a worker decides on, having just seen the item too. */
  function FailurePlan(db: Db, i: string, run: string, w: string, code: FailureCode, t: int): Plan
    requires i in db.items
  {
    Identify(db, i, run, w, Decide(db, i, run, w, Fatal(code), t))
  }

  ghost predicate TakenFrom(db: Db, after: Db, i: string, v: string) {
    && i in db.items && db.items[i].state == Claimed && db.items[i].claimedBy == Some(v)
    && i in after.items && after.items[i].state == DeadLettered && after.items[i].claimedBy == None
  }

  /** And it may take somebody else's claim: the recovered worker sees the item queued, another worker claims it, and then the
      dead-letter, which names nobody, is accepted. */
  lemma LateFailureTakesAnotherClaim(
    db: Db, recovery: Op, i: string, r: string, run: string, w: string, v: string, code: FailureCode, at: int)
    requires i in db.items && recovery.RecoverStale? && recovery.item == i && recovery.action == RetryClaim
    requires Apply(db, recovery).1 == Recovered(false) && i in db.links && db.links[i] == r && recovery.now <= at
    ensures var recovered := Apply(db, recovery).0;
      var claimed := Apply(recovered, Op.Claim(i, v, r, LedgerModel.Scheduled, at));
      var (after, reply) := Commit(claimed.0, FailurePlan(recovered, i, run, w, code, at));
      claimed.1.Granted? && reply == Done && TakenFrom(claimed.0, after, i, v)
  {
  }

  /** A failure the scheduled service records before its claim takes the claim of whoever has claimed since it read the item. */
  lemma PreclaimTakesTheClaim(
    read: Db, db: Db, i: string, run: string, w: string, v: string, code: FailureCode, retryable: bool, t: int)
    requires i in read.items && i in db.items && db.items[i].state == Claimed && db.items[i].claimedBy == Some(v)
    ensures var (after, reply) := Commit(db, DecideScheduled(read, i, run, w, Preclaim(code, retryable), t));
      reply == Done && i in after.items && after.items[i].state != Claimed && after.items[i].claimedBy == None
  {
  }

  // ----- a second completion

  function Reclaimed(i: string, r: string, v: string, code: FailureCode, at: int): seq<Op> {
    [DeadLetterItem(i, Owner(None, None), Name(code)), RecoverDeadLetter(i, at), Op.Claim(i, v, r, Scheduled, at), Complete(i, r, v)]
  }

  lemma CompletionsOneMore(ops: seq<Op>, op: Op, i: string)
    ensures Completions(ops + [op], i) == Completions(ops, i) + AcceptedCompletion(Run(EmptyDb(), ops), op, i)
    ensures Run(EmptyDb(), ops + [op]) == Apply(Run(EmptyDb(), ops), op).0
  {
    assert (ops + [op])[..|ops|] == ops;
  }

  /** A buried item can be recovered, claimed by its run and completed. */
  lemma RecoversAndCompletes(db: Db, i: string, r: string, v: string, at: int)
    requires i in db.items && db.items[i].state == DeadLettered && i in db.links && db.links[i] == r
    ensures var d1 := Apply(db, RecoverDeadLetter(i, at)).0;
      var d2 := Apply(d1, Op.Claim(i, v, r, Scheduled, at)).0;
      AcceptedCompletion(d2, Complete(i, r, v), i) == 1
  {
  }

  lemma BuryingKeepsLinks(db: Db, i: string, code: FailureCode)
    requires i in db.items
    ensures var d := Apply(db, DeadLetterItem(i, Owner(None, None), Name(code))).0;
      i in d.items && d.items[i].state == DeadLettered && d.links == db.links
  {
  }

  lemma ReclaimedAgain(ops: seq<Op>, i: string, r: string, v: string, code: FailureCode, at: int)
    requires var db := Run(EmptyDb(), ops); i in db.items && db.items[i].state == Completed && i in db.links && db.links[i] == r
    ensures Completions(ops + Reclaimed(i, r, v, code, at), i) == Completions(ops, i) + 1
  {
    var more := Reclaimed(i, r, v, code, at);
    CompletionsOneMore(ops, more[0], i);
    CompletionsOneMore(ops + [more[0]], more[1], i);
    CompletionsOneMore(ops + [more[0]] + [more[1]], more[2], i);
    CompletionsOneMore(ops + [more[0]] + [more[1]] + [more[2]], more[3], i);
    assert ops + more == ops + [more[0]] + [more[1]] + [more[2]] + [more[3]];
    BuryingKeepsLinks(Run(EmptyDb(), ops), i, code);
    RecoversAndCompletes(Run(EmptyDb(), ops + [more[0]]), i, r, v, at);
  }

  /** After any history that completed an item, a late terminal failure of any worker is an owner-less dead-letter; the
      operator recovers it, and the item is claimed and completed again. */
  lemma LateFailureAllowsAnotherCompletion(
    ops: seq<Op>, i: string, r: string, run: string, w: string, v: string, code: FailureCode, at: int)
    requires ProperHistory(ops)
    requires var db := Run(EmptyDb(), ops); i in db.items && db.items[i].state == Completed && i in db.links && db.links[i] == r
    ensures var db := Run(EmptyDb(), ops);
      SettleStep(db, i, run, w, Fatal(code), at) == (Apply(db, Reclaimed(i, r, v, code, at)[0]).0, Buried(code))
    ensures ProperHistory(ops + Reclaimed(i, r, v, code, at))
    ensures Completions(ops + Reclaimed(i, r, v, code, at), i) == Completions(ops, i) + 1 >= 2
  {
    ReclaimedAgain(ops, i, r, v, code, at);
    CompletionsAreAccountedFor(ops, i);
  }

  const ITEM := Item("t", "run.execute", Queued, "r", "d", "k", 0, 3, 0, Payload("objective", ["q"]), None, None, None)
  const CLAIMED: seq<Op> := [Reserve("k", "digest", None), Enqueue("q", ITEM), Op.Claim("q", "w", "r", Scheduled, 0)]
  const LOST: seq<Op> := [RecoverStale("q", RetryClaim, 60 * MICROS_PER_SECOND, None, 60)]
  const TAKEN: seq<Op> := [Op.Claim("q", "v", "r", Scheduled, 60 * MICROS_PER_SECOND), Complete("q", "r", "v")]

  /** Worker w claims, its stale claim is recovered, worker v claims and completes. */
  const RETAKEN := CLAIMED + LOST + TAKEN

  lemma ClaimedByW()
    ensures Run(EmptyDb(), CLAIMED) == Db(
      map["q" := MarkClaimed(ITEM, "w", 0)], map["r" := RunRow("t", "q", "k", Scheduled, RunQueued, None)],
      map["q" := "r"], map["k" := KeyRow("digest", Some("r"))], map[], [])
  {
    assert CLAIMED == [] + [CLAIMED[0]] + [CLAIMED[1]] + [CLAIMED[2]];
    RunOneMore([], CLAIMED[0]);
    RunOneMore([] + [CLAIMED[0]], CLAIMED[1]);
    RunOneMore([] + [CLAIMED[0]] + [CLAIMED[1]], CLAIMED[2]);
  }

  lemma RetakenLedger()
    ensures ProperHistory(RETAKEN)
    ensures var db := Run(EmptyDb(), RETAKEN);
      "q" in db.items && db.items["q"].state == Completed && "q" in db.links && db.links["q"] == "r"
  {
    ClaimedByW();
    assert RETAKEN == CLAIMED + [LOST[0]] + [TAKEN[0]] + [TAKEN[1]];
    RunOneMore(CLAIMED, LOST[0]);
    RunOneMore(CLAIMED + [LOST[0]], TAKEN[0]);
    RunOneMore(CLAIMED + [LOST[0]] + [TAKEN[0]], TAKEN[1]);
  }

  /** A reachable ledger in which one item has been completed twice: w's failure arrives after v's completion. */
  lemma SecondCompletionIsReachable()
    ensures exists ops: seq<Op> :: ProperHistory(ops) && RETAKEN <= ops && Completions(ops, "q") >= 2
  {
    RetakenLedger();
    LateFailureAllowsAnotherCompletion(RETAKEN, "q", "r", "r", "w", "v", BudgetExceeded, 120 * MICROS_PER_SECOND);
  }

  /** A reachable ledger in which v's claim was taken by the failure of w, whose own claim had been recovered. */
  lemma TakenClaimIsReachable(code: FailureCode)
    ensures var ops := CLAIMED + LOST;
      var lost := Run(EmptyDb(), ops);
      && ProperHistory(ops) && "q" in lost.items
      && var claimed := Run(EmptyDb(), ops + [TAKEN[0]]);
         TakenFrom(claimed, Commit(claimed, FailurePlan(lost, "q", "r", "w", code, 0)).0, "q", "v")
  {
    ClaimedByW();
    RunOneMore(CLAIMED, LOST[0]);
    RunOneMore(CLAIMED + LOST, TAKEN[0]);
    LateFailureTakesAnotherClaim(Run(EmptyDb(), CLAIMED), LOST[0], "q", "r", "r", "w", "v", code, 60 * MICROS_PER_SECOND);
    SameFailurePlan(Run(EmptyDb(), CLAIMED + LOST), "q", "r", "w", code, 0, 60 * MICROS_PER_SECOND);
  }

  lemma SameFailurePlan(db: Db, i: string, run: string, w: string, code: FailureCode, s: int, t: int)
    requires i in db.items
    ensures FailurePlan(db, i, run, w, code, s) == FailurePlan(db, i, run, w, code, t)
  {
  }

  // ----- completions of executions

  /** For any executions in flight and any operations between their transactions: the accepted completions of an item are its
      owner-less reopenings, plus one if it is completed now. */
  lemma ExecutionsAccountForCompletions(acts: seq<Activity>, i: string)
    requires ProperShift(acts)
    ensures Completions(Issued(acts), i) == Reopenings(Issued(acts), i) + IsCompleted(Shift(acts).db, i)
  {
    ShiftIsAHistory(acts);
    IssuedIsProper(acts);
    CompletionsAreAccountedFor(Issued(acts), i);
  }

  /** The activity takes item i out of COMPLETED: it commits an owner-less plan, or some other owner-less mutation happens. */
  ghost predicate Reopens(f: Floor, a: Activity, i: string) {
    i in f.db.items && f.db.items[i].state == Completed && IssuedBy(f, a) != [] && Ownerless(IssuedBy(f, a)[0], i)
  }

  lemma HistoryReopensOnce(ops: seq<Op>, op: Op, i: string)
    ensures Reopenings(ops + [op], i) == Reopenings(ops, i) + Reopening(Run(EmptyDb(), ops), op, i)
  {
    assert (ops + [op])[..|ops|] == ops;
  }

  lemma IssuedOneMore(acts: seq<Activity>, a: Activity)
    ensures Issued(acts + [a]) == Issued(acts) + IssuedBy(Shift(acts), a) && |IssuedBy(Shift(acts), a)| <= 1
  {
    assert (acts + [a])[..|acts|] == acts;
  }

  lemma ReopeningsOneMore(acts: seq<Activity>, a: Activity, i: string)
    ensures Reopenings(Issued(acts + [a]), i) == Reopenings(Issued(acts), i) + if Reopens(Shift(acts), a, i) then 1 else 0
  {
    var ops, issued := Issued(acts), IssuedBy(Shift(acts), a);
    IssuedOneMore(acts, a);
    ShiftIsAHistory(acts);
    if issued == [] {
      assert ops + issued == ops;
    } else {
      assert ops + issued == ops + [issued[0]];
      HistoryReopensOnce(ops, issued[0], i);
    }
  }

  ghost predicate NeverReopens(acts: seq<Activity>, i: string) {
    forall k :: 0 <= k < |acts| ==> !Reopens(Shift(acts[..k]), acts[k], i)
  }

  lemma {:induction false} NoReopenings(acts: seq<Activity>, i: string, n: nat)
    requires NeverReopens(acts, i) && n <= |acts|
    ensures Reopenings(Issued(acts[..n]), i) == 0
    decreases n
  {
    if n != 0 {
      NoReopenings(acts, i, n - 1);
      assert acts[..n - 1] + [acts[n - 1]] == acts[..n];
      ReopeningsOneMore(acts[..n - 1], acts[n - 1], i);
    } else {
      assert acts[..0] == [];
    }
  }

  lemma ProperShiftPrefix(acts: seq<Activity>, n: nat)
    requires ProperShift(acts) && n <= |acts|
    ensures ProperShift(acts[..n])
  {
    assert forall k :: 0 <= k < n ==> acts[..n][k] == acts[k];
  }

  /** So an item is completed at most once exactly when it was never reopened, or once without being completed again. */
  lemma CompletedOnceIff(acts: seq<Activity>, i: string)
    requires ProperShift(acts)
    ensures Completions(Issued(acts), i) <= 1 <==>
      Reopenings(Issued(acts), i) == 0 || (Reopenings(Issued(acts), i) == 1 && IsCompleted(Shift(acts).db, i) == 0)
  {
    ExecutionsAccountForCompletions(acts, i);
  }

  /** At this moment the accepted completions of the item are one if it is completed and none otherwise. */
  ghost predicate CountsItself(acts: seq<Activity>, i: string) {
    Completions(Issued(acts), i) == IsCompleted(Shift(acts).db, i)
  }

  lemma NeverReopenedCounts(acts: seq<Activity>, i: string, n: nat)
    requires ProperShift(acts) && NeverReopens(acts, i) && n <= |acts|
    ensures CountsItself(acts[..n], i)
  {
    NoReopenings(acts, i, n);
    ProperShiftPrefix(acts, n);
    ExecutionsAccountForCompletions(acts[..n], i);
  }

  lemma ReopenedMiscounts(acts: seq<Activity>, i: string, k: nat)
    requires ProperShift(acts) && k < |acts| && Reopens(Shift(acts[..k]), acts[k], i)
    ensures !CountsItself(acts[..k + 1], i)
  {
    assert acts[..k] + [acts[k]] == acts[..k + 1];
    ReopeningsOneMore(acts[..k], acts[k], i);
    ProperShiftPrefix(acts, k + 1);
    ExecutionsAccountForCompletions(acts[..k + 1], i);
  }

  /** An item is completed once and for good, its accepted completions being at all times one if it is completed and none
      otherwise, if and only if no owner-less mutation ever hits it while it is completed. */
  lemma CompletedForGoodIff(acts: seq<Activity>, i: string)
    requires ProperShift(acts)
    ensures (forall n :: 0 <= n <= |acts| ==> CountsItself(acts[..n], i)) <==> NeverReopens(acts, i)
  {
    if NeverReopens(acts, i) {
      forall n | 0 <= n <= |acts| ensures CountsItself(acts[..n], i) {
        NeverReopenedCounts(acts, i, n);
      }
    } else {
      var k :| 0 <= k < |acts| && Reopens(Shift(acts[..k]), acts[k], i);
      ReopenedMiscounts(acts, i, k);
    }
  }

  /** Whose plans are owner-less is settled when they see the item: a worker's exactly when nobody has claimed it then. */
  lemma SeesWhomToName(f: Floor, id: string, run: Option<string>, code: FailureCode)
    requires id in f.flights && f.flights[id].plan == Some(Bury(run, code))
    ensures var plan := Act(f, See(id)).flights[id].plan.value;
      plan.Issue? && (Ownerless(plan.op, f.flights[id].item) <==> !IsClaimed(f.db, f.flights[id].item))
  {
  }

  /** One execution in flight is enough to reopen: it ends with a terminal failure after somebody else completed its item. */
  lemma LateFailureReopens(f: Floor, id: string, code: FailureCode, now: int)
    requires Deciding(f, id) && f.db.items[f.flights[id].item].state == Completed
    ensures var i := f.flights[id].item;
      var g := Act(Act(f, DecideWorker(id, Fatal(code), now)), See(id));
      && Reopens(g, CommitPlan(id), i)
      && i in Act(g, CommitPlan(id)).db.items && Act(g, CommitPlan(id)).db.items[i].state == DeadLettered
  {
  }
}
