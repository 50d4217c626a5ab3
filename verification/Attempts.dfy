/** Attempt accounting: exact over every ledger history, bounded over every ledger history and hence for any executions in
    flight, and more tightly for executions that do not overlap on one item. */
module Attempts {
  import opened Prelude
  import opened LedgerModel
  import opened LedgerSafety
  import opened Failures
  import opened QueueWorker
  import opened Settlement
  import opened Executions
  import S = Scheduled
  import Orchestrator

  // ----- every history, exactly

  ghost function Charge(db: Db, op: Op, i: string): nat {
    if (op.Retry? || op.DeadLetterItem?) && op.item == i && Apply(db, op).1 == Done then 1 else 0
  }

  /** Recorded retries and dead-letters of item i. */
  ghost function Charges(ops: seq<Op>, i: string): nat {
    if |ops| == 0 then 0 else
      var init := ops[..|ops| - 1];
      Charges(init, i) + Charge(Run(EmptyDb(), init), ops[|ops| - 1], i)
  }

  /** The attempts item i was enqueued with. */
  ghost function Initial(ops: seq<Op>, i: string): nat {
    if |ops| == 0 then 0 else
      var init, op := ops[..|ops| - 1], ops[|ops| - 1];
      if op.Enqueue? && op.item == i && i !in Run(EmptyDb(), init).items then op.row.attempts else Initial(init, i)
  }

  /** The operation charges an existing item as counted, and only an enqueue adds one. */
  ghost predicate ChargedAsCounted(db: Db, op: Op, i: string) {
    var after := Apply(db, op).0;
    if i in db.items then
      && i in after.items && after.items[i].attempts == db.items[i].attempts + Charge(db, op, i)
      && after.items[i].maxAttempts == db.items[i].maxAttempts
    else
      && Charge(db, op, i) == 0
      && (i in after.items ==> op.Enqueue? && op.item == i && after.items[i].attempts == op.row.attempts)
  }

  lemma WorkCharges(db: Db, op: Op, i: string)
    requires Working(op)
    ensures ChargedAsCounted(db, op, i)
  {
    match op
    case Claim(_, _, _, _, _) =>
    case Retry(_, _, _, _) =>
    case Complete(_, _, _) =>
    case DeadLetterItem(_, _, _) =>
  }

  lemma ChargeStep(db: Db, op: Op, i: string)
    ensures ChargedAsCounted(db, op, i)
  {
    match op
    case RecoverDeadLetter(_, _) =>
    case RecoverStale(_, _, _, _, _) =>
    case Reserve(_, _, _) =>
    case Enqueue(_, _) =>
    case StoreSnapshot(_) =>
    case Transition(_, _, _, _) =>
    case _ => WorkCharges(db, op, i);
  }

  /** Attempts = the initial value plus the recorded retries and dead-letters, in every history of any callers. */
  lemma {:induction false} AttemptsAreAccountedFor(ops: seq<Op>, i: string)
    ensures i in Run(EmptyDb(), ops).items ==> Run(EmptyDb(), ops).items[i].attempts == Initial(ops, i) + Charges(ops, i)
    ensures i !in Run(EmptyDb(), ops).items ==> Charges(ops, i) == 0
  {
    if |ops| != 0 {
      AttemptsAreAccountedFor(ops[..|ops| - 1], i);
      ChargeStep(Run(EmptyDb(), ops[..|ops| - 1]), ops[|ops| - 1], i);
    }
  }

  // ----- every history, bounded

  /** Items are enqueued queued and below their limit. */
  ghost predicate ProperEnqueue(op: Op) {
    op.Enqueue? ==> op.row.state == Queued && op.row.attempts < op.row.maxAttempts
  }

  /** Dead-letter recoveries of item i so far. */
  ghost function Recoveries(db: Db, i: string): nat {
    multiset(db.audit)[DeadLetterRecovered(i)]
  }

  /** What a recorded mutation may take item i beyond its limit by: a retry recorded although no attempt is left, twice that
      if the item is dead-lettered, and a dead-letter of an item dead-lettered already. */
  ghost function Overrun(db: Db, op: Op, i: string): nat {
    if Charge(db, op, i) == 0 then 0
    else
      var it := db.items[i];
      if op.Retry? then (if it.attempts + 1 < it.maxAttempts then 0 else if it.state == DeadLettered then 2 else 1)
      else if it.state == DeadLettered then 1 else 0
  }

  ghost function Overruns(ops: seq<Op>, i: string): nat {
    if |ops| == 0 then 0 else
      var init := ops[..|ops| - 1];
      Overruns(init, i) + Overrun(Run(EmptyDb(), init), ops[|ops| - 1], i)
  }

  /** At most limit, and strictly below it unless dead-lettered. */
  ghost predicate Below(it: Item, limit: nat) {
    it.attempts <= limit && (it.state != DeadLettered ==> it.attempts < limit)
  }

  ghost predicate Bounded(db: Db, i: string, extra: nat) {
    i in db.items ==> Below(db.items[i], db.items[i].maxAttempts + Recoveries(db, i) + extra)
  }

  lemma ChargesKeepBound(db: Db, op: Op, i: string, extra: nat)
    requires Bounded(db, i, extra) && (op.Retry? || op.DeadLetterItem?)
    ensures Bounded(Apply(db, op).0, i, extra + Overrun(db, op, i))
  {
    match op
    case Retry(_, _, _, _) =>
    case DeadLetterItem(_, _, _) =>
  }

  lemma OthersKeepBound(db: Db, op: Op, i: string, extra: nat)
    requires Bounded(db, i, extra) && ProperEnqueue(op) && !op.Retry? && !op.DeadLetterItem?
    ensures Bounded(Apply(db, op).0, i, extra)
  {
    match op
    case Claim(_, _, _, _, _) =>
    case Complete(_, _, _) =>
    case RecoverDeadLetter(_, _) =>
    case RecoverStale(_, _, _, _, _) =>
    case Reserve(_, _, _) =>
    case Enqueue(_, _) =>
    case StoreSnapshot(_) =>
    case Transition(_, _, _, _) =>
  }

  lemma OpKeepsBound(db: Db, op: Op, i: string, extra: nat)
    requires Bounded(db, i, extra) && ProperEnqueue(op)
    ensures Bounded(Apply(db, op).0, i, extra + Overrun(db, op, i))
  {
    if op.Retry? || op.DeadLetterItem? {
      ChargesKeepBound(db, op, i, extra);
    } else {
      OthersKeepBound(db, op, i, extra);
    }
  }

  /** In every history of any callers, an item's attempts exceed its limit by at most its dead-letter recoveries and its
      overruns, and stay strictly below that while it is not dead-lettered. */
  lemma {:induction false} AttemptsAreBoundedInAnyHistory(ops: seq<Op>, i: string)
    requires forall op :: op in ops ==> ProperEnqueue(op)
    ensures Bounded(Run(EmptyDb(), ops), i, Overruns(ops, i))
  {
    if |ops| != 0 {
      AttemptsAreBoundedInAnyHistory(ops[..|ops| - 1], i);
      OpKeepsBound(Run(EmptyDb(), ops[..|ops| - 1]), ops[|ops| - 1], i, Overruns(ops[..|ops| - 1], i));
    }
  }

  // ----- executions that overlap

  ghost predicate EnqueuesBelowLimit(acts: seq<Activity>) {
    forall k :: 0 <= k < |acts| && acts[k].Meanwhile? ==> ProperEnqueue(acts[k].op)
  }

  lemma {:induction false} IssuedEnqueues(acts: seq<Activity>)
    requires EnqueuesBelowLimit(acts)
    ensures forall op :: op in Issued(acts) ==> ProperEnqueue(op)
  {
    if |acts| != 0 {
      var init := acts[..|acts| - 1];
      assert forall k :: 0 <= k < |init| ==> init[k] == acts[k];
      IssuedEnqueues(init);
      PlansAreOwn(init);
    }
  }

  /** However many executions of one item overlap, and wherever other operations fall between their transactions, the same
      bound holds with the overruns of what they issue. */
  lemma OverlappingAttemptsAreBounded(acts: seq<Activity>, i: string)
    requires EnqueuesBelowLimit(acts)
    ensures Bounded(Shift(acts).db, i, Overruns(Issued(acts), i))
  {
    ShiftIsAHistory(acts);
    IssuedEnqueues(acts);
    AttemptsAreBoundedInAnyHistory(Issued(acts), i);
  }

  /** A retry that was decided overruns only if the item was charged between the decision and its commit. */
  lemma OnlyStaleRetriesOverrun(
    read: Db, db: Db, item: string, run: string, worker: string, outcome: Outcome, e: ScheduledEnding, now: int)
    requires item in read.items && item in db.items && db.items[item].maxAttempts == read.items[item].maxAttempts
    requires db.items[item].attempts <= read.items[item].attempts
    ensures var plan := Decide(read, item, run, worker, outcome, now);
      plan.Issue? && plan.op.Retry? ==> Overrun(db, plan.op, item) == 0
    ensures var plan := DecideScheduled(read, item, run, worker, e, now);
      plan.Issue? && plan.op.Retry? ==> Overrun(db, plan.op, item) == 0
  {
  }

  /** Two scheduled executions fail before their claim, and both read the item before either records its retry. */
  function TwoFailures(item: string, a: string, b: string, code: FailureCode, t: int): seq<Activity> {
    [Begin(a, item, "r", "w"), Begin(b, item, "r", "w"), DecideScheduler(a, Preclaim(code, true), t)]
    + [DecideScheduler(b, Preclaim(code, true), t), CommitPlan(a), CommitPlan(b)]
  }

  /** And a third one. */
  function OneFailure(item: string, c: string, code: FailureCode, t: int): seq<Activity> {
    [Begin(c, item, "r", "w"), DecideScheduler(c, Preclaim(code, true), t), CommitPlan(c)]
  }

  ghost predicate QueuedWith(db: Db, i: string, attempts: nat, max: nat) {
    i in db.items && db.items[i].state == Queued && db.items[i].attempts == attempts && db.items[i].maxAttempts == max
  }

  lemma TwoRetriesFromOneRead(f: Floor, i: string, a: string, b: string, code: FailureCode, t: int, max: nat)
    requires a != b && a !in f.flights && b !in f.flights && max >= 2 && QueuedWith(f.db, i, max - 2, max)
    ensures var g := ActAll(f, TwoFailures(i, a, b, code, t)); QueuedWith(g.db, i, max, max) && g.flights == f.flights
  {
    var e := Preclaim(code, true);
    ThreeActs(f, Begin(a, i, "r", "w"), Begin(b, i, "r", "w"), DecideScheduler(a, e, t));
    var g := Act(Act(Act(f, Begin(a, i, "r", "w")), Begin(b, i, "r", "w")), DecideScheduler(a, e, t));
    ThreeActs(g, DecideScheduler(b, e, t), CommitPlan(a), CommitPlan(b));
    ActAllConcat(f, [Begin(a, i, "r", "w"), Begin(b, i, "r", "w"), DecideScheduler(a, e, t)],
                 [DecideScheduler(b, e, t), CommitPlan(a), CommitPlan(b)]);
    BothDecided(f, i, a, b, code, t, max);
  }

  lemma CommitsRetry(f: Floor, id: string, i: string, op: Op, n: nat, max: nat)
    requires id in f.flights && f.flights[id].plan == Some(Issue(op)) && QueuedWith(f.db, i, n, max)
    requires op.Retry? && op.item == i && !op.owner.Named()
    ensures var g := Act(f, CommitPlan(id)); QueuedWith(g.db, i, n + 1, max) && g.flights == f.flights - {id}
  {
  }

  lemma BothRead(f: Floor, i: string, a: string, b: string, e: ScheduledEnding, t: int)
    requires a != b && a !in f.flights && b !in f.flights && i in f.db.items && f.db.items[i].state == Queued
    ensures var g := Act(Act(Act(f, Begin(a, i, "r", "w")), Begin(b, i, "r", "w")), DecideScheduler(a, e, t));
      var h := Act(g, DecideScheduler(b, e, t));
      var planned := Flight(i, "r", "w", Some(DecideScheduled(f.db, i, "r", "w", e, t)));
      h.db == f.db && h.flights == f.flights[a := planned][b := planned]
  {
  }

  lemma BothDecided(f: Floor, i: string, a: string, b: string, code: FailureCode, t: int, max: nat)
    requires a != b && a !in f.flights && b !in f.flights && max >= 2 && QueuedWith(f.db, i, max - 2, max)
    ensures var e := Preclaim(code, true);
      var g := Act(Act(Act(f, Begin(a, i, "r", "w")), Begin(b, i, "r", "w")), DecideScheduler(a, e, t));
      var h := Act(Act(Act(g, DecideScheduler(b, e, t)), CommitPlan(a)), CommitPlan(b));
      QueuedWith(h.db, i, max, max) && h.flights == f.flights
  {
    var e := Preclaim(code, true);
    var g := Act(Act(Act(f, Begin(a, i, "r", "w")), Begin(b, i, "r", "w")), DecideScheduler(a, e, t));
    var h := Act(g, DecideScheduler(b, e, t));
    var plan := DecideScheduled(f.db, i, "r", "w", e, t);
    BothRead(f, i, a, b, e, t);
    CommitsRetry(h, a, i, plan.op, max - 2, max);
    CommitsRetry(Act(h, CommitPlan(a)), b, i, plan.op, max - 1, max);
    assert h.flights - {a} - {b} == f.flights;
  }

  lemma OneMoreFailure(f: Floor, i: string, c: string, code: FailureCode, t: int, max: nat)
    requires c !in f.flights && QueuedWith(f.db, i, max, max)
    ensures var g := ActAll(f, OneFailure(i, c, code, t));
      i in g.db.items && g.db.items[i].state == DeadLettered && g.db.items[i].attempts == max + 1
      && g.db.items[i].maxAttempts == max
  {
    ThreeActs(f, Begin(c, i, "r", "w"), DecideScheduler(c, Preclaim(code, true), t), CommitPlan(c));
  }

  const FRESH := Item("t", "run.execute", Queued, "r", "d", "k", 0, 2, 0, Payload("objective", ["q"]), None, None, None)

  function StaleRetries(code: FailureCode, t: int): seq<Activity> {
    [Meanwhile(Enqueue("q", FRESH))] + TwoFailures("q", "a", "b", code, t)
  }

  /** So the overruns are needed: without a recovery and without a dead-letter of a dead-lettered item, an item is queued at its
      limit, and its next failure takes it beyond. */
  lemma StaleRetriesExceedLimit(code: FailureCode, t: int)
    ensures EnqueuesBelowLimit(StaleRetries(code, t)) && QueuedWith(Shift(StaleRetries(code, t)).db, "q", 2, 2)
    ensures var after := Shift(StaleRetries(code, t) + OneFailure("q", "c", code, t)).db;
      && "q" in after.items && after.items["q"].attempts == after.items["q"].maxAttempts + 1
      && Recoveries(after, "q") == 0
  {
    var first := [Meanwhile(Enqueue("q", FRESH))];
    assert first[..0] == [] && Shift(first) == Act(Shift([]), first[0]);
    TwoRetriesFromOneRead(Shift(first), "q", "a", "b", code, t, 2);
    ShiftThen(first, TwoFailures("q", "a", "b", code, t));
    OneMoreFailure(Shift(StaleRetries(code, t)), "q", "c", code, t, 2);
    ShiftThen(StaleRetries(code, t), OneFailure("q", "c", code, t));
    NothingRecovered(StaleRetries(code, t) + OneFailure("q", "c", code, t), "q");
  }

  lemma RecoversNothing(f: Floor, a: Activity, i: string)
    requires OwnPlans(f) && (a.Meanwhile? ==> a.op.Enqueue?)
    ensures Act(f, a).db.audit == f.db.audit
  {
    if a.CommitPlan? && Ready(f, a.id) { assert OwnPlan(f.flights[a.id]); }
  }

  lemma {:induction false} NothingRecovered(acts: seq<Activity>, i: string)
    requires forall k :: 0 <= k < |acts| && acts[k].Meanwhile? ==> acts[k].op.Enqueue?
    ensures Recoveries(Shift(acts).db, i) == 0
  {
    if |acts| != 0 {
      var init := acts[..|acts| - 1];
      assert forall k :: 0 <= k < |init| ==> init[k] == acts[k];
      NothingRecovered(init, i);
      PlansAreOwn(init);
      RecoversNothing(Shift(init), acts[|acts| - 1], i);
    }
  }

  /** So is the dead-letter of an item dead-lettered already: a late failure takes it beyond its limit too. */
  lemma LateFailureExceedsLimit(f: Floor, id: string, code: FailureCode, now: int)
    requires Deciding(f, id)
    requires var it := f.db.items[f.flights[id].item]; it.state == DeadLettered && it.attempts == it.maxAttempts
    ensures var i, g := f.flights[id].item, ActAll(f, [DecideWorker(id, Fatal(code), now), See(id), CommitPlan(id)]);
      && i in g.db.items && g.db.items[i].attempts == g.db.items[i].maxAttempts + 1
      && Recoveries(g.db, i) == Recoveries(f.db, i)
  {
    ThreeActs(f, DecideWorker(id, Fatal(code), now), See(id), CommitPlan(id));
  }

  // ----- executions that do not overlap

  /** Besides executions, anything but a retry or dead-letter happens: claims, completions, recoveries, transitions. */
  ghost predicate ProperActivity(a: Activity) {
    a.Meanwhile? ==> !a.op.Retry? && !a.op.DeadLetterItem? && ProperEnqueue(a.op)
  }

  /** While an execution of the item is in flight, there is an attempt left for it, and a retry it has decided on is still due. */
  ghost predicate WithinLimit(f: Floor, i: string) {
    && (i in f.db.items ==>
          var it := f.db.items[i];
          && it.attempts <= it.maxAttempts + Recoveries(f.db, i)
          && (it.state != DeadLettered || InFlight(f, i) ==> it.attempts < it.maxAttempts + Recoveries(f.db, i)))
    && (forall id :: FlightOn(f, id, i) && RetryPlanned(f.flights[id]) ==>
          i in f.db.items && f.db.items[i].attempts + 1 < f.db.items[i].maxAttempts)
  }

  ghost predicate RetryPlanned(fl: Flight) {
    fl.plan.Some? && fl.plan.value.Issue? && fl.plan.value.op.Retry?
  }

  /** The flights are the same, and of item i's row only state, claim and times may differ. */
  ghost predicate RowKept(db: Db, after: Db, i: string) {
    && (i in db.items ==> i in after.items && after.items[i].attempts == db.items[i].attempts
                          && after.items[i].maxAttempts == db.items[i].maxAttempts)
    && Recoveries(after, i) >= Recoveries(db, i)
  }

  lemma AuditOnlyGrows(db: Db, op: Op, i: string)
    ensures Recoveries(Apply(db, op).0, i) >= Recoveries(db, i)
  {
  }

  lemma MeanwhileKeepsRow(db: Db, op: Op, i: string)
    requires !op.Retry? && !op.DeadLetterItem?
    ensures RowKept(db, Apply(db, op).0, i)
  {
    ChargeStep(db, op, i);
    AuditOnlyGrows(db, op, i);
  }

  lemma MeanwhileKeepsLimit(f: Floor, op: Op, i: string)
    requires WithinLimit(f, i) && ProperActivity(Meanwhile(op))
    ensures WithinLimit(Act(f, Meanwhile(op)), i)
  {
    var g := Act(f, Meanwhile(op));
    assert forall id :: FlightOn(f, id, i) <==> FlightOn(g, id, i);
    MeanwhileKeepsRow(f.db, op, i);
    MeanwhileKeepsState(f.db, op, i);
  }

  /** What leaves DEAD_LETTER was recovered, and what enters was not dead-lettered. */
  lemma MeanwhileKeepsState(db: Db, op: Op, i: string)
    requires ProperActivity(Meanwhile(op))
    ensures var after := Apply(db, op).0;
      if i in db.items then
        i in after.items && (db.items[i].state == DeadLettered && after.items[i].state != DeadLettered ==>
          Recoveries(after, i) == Recoveries(db, i) + 1)
      else i in after.items ==> after.items[i].attempts < after.items[i].maxAttempts
  {
    match op
    case Claim(_, _, _, _, _) =>
    case Complete(_, _, _) =>
    case RecoverDeadLetter(_, _) =>
    case RecoverStale(_, _, _, _, _) =>
    case Reserve(_, _, _) =>
    case Enqueue(_, _) =>
    case StoreSnapshot(_) =>
    case Transition(_, _, _, _) =>
  }

  lemma PlanningKeepsLimit(f: Floor, id: string, plan: Plan, i: string)
    requires WithinLimit(f, i) && id in f.flights
    requires f.flights[id].item == i && plan.Issue? && plan.op.Retry? ==>
      i in f.db.items && f.db.items[i].attempts + 1 < f.db.items[i].maxAttempts
    ensures WithinLimit(Planned(f, id, plan), i)
  {
    var g := Planned(f, id, plan);
    assert forall j :: FlightOn(f, j, i) <==> FlightOn(g, j, i);
  }

  lemma BeginKeepsLimit(f: Floor, a: Activity, i: string)
    requires WithinLimit(f, i) && a.Begin?
    ensures WithinLimit(Act(f, a), i)
  {
    var g := Act(f, a);
    forall id | FlightOn(g, id, i) ensures FlightOn(f, id, i) || (a.item == i && S.Schedulable(f.db, i) && g.flights[id].plan == None) {}
  }

  lemma OtherCommitsKeepRow(db: Db, op: Op, i: string)
    requires (op.Complete? || op.Retry? || op.DeadLetterItem?) && op.item != i
    ensures var after := Apply(db, op).0;
      after.audit == db.audit && (i in db.items <==> i in after.items) && (i in db.items ==> after.items[i] == db.items[i])
  {
    match op
    case Retry(_, _, _, _) =>
    case Complete(_, _, _) =>
    case DeadLetterItem(_, _, _) =>
  }

  lemma OwnCommitKeepsLimit(db: Db, op: Op, i: string)
    requires (op.Complete? || op.Retry? || op.DeadLetterItem?) && op.item == i && i in db.items
    requires db.items[i].attempts < db.items[i].maxAttempts + Recoveries(db, i)
    requires op.Retry? ==> db.items[i].attempts + 1 < db.items[i].maxAttempts
    ensures Bounded(Apply(db, op).0, i, 0)
  {
    match op
    case Retry(_, _, _, _) =>
    case Complete(_, _, _) =>
    case DeadLetterItem(_, _, _) =>
  }

  lemma CommitKeepsLimit(f: Floor, id: string, i: string)
    requires WithinLimit(f, i) && OneFlight(f, i) && OwnPlans(f) && Ready(f, id) && f.flights[id].plan.value.Issue?
    ensures WithinLimit(Act(f, CommitPlan(id)), i)
  {
    var g, op := Act(f, CommitPlan(id)), f.flights[id].plan.value.op;
    assert OwnPlan(f.flights[id]);
    assert forall j :: FlightOn(g, j, i) ==> FlightOn(f, j, i) && j != id;
    if op.item == i {
      assert FlightOn(f, id, i);
      if i in f.db.items { OwnCommitKeepsLimit(f.db, op, i); } else { ChargeStep(f.db, op, i); }
    } else {
      OtherCommitsKeepRow(f.db, op, i);
      assert forall j :: FlightOn(f, j, i) ==> FlightOn(g, j, i);
    }
  }

  lemma EmptyCommitKeepsLimit(f: Floor, id: string, i: string)
    requires WithinLimit(f, i) && Ready(f, id) && !f.flights[id].plan.value.Issue?
    ensures WithinLimit(Act(f, CommitPlan(id)), i)
  {
    var g := Act(f, CommitPlan(id));
    assert forall j :: FlightOn(g, j, i) ==> FlightOn(f, j, i);
  }

  lemma ActKeepsLimit(f: Floor, a: Activity, i: string)
    requires WithinLimit(f, i) && OneFlight(f, i) && OwnPlans(f) && ProperActivity(a)
    ensures WithinLimit(Act(f, a), i)
  {
    match a
    case Begin(_, _, _, _) => BeginKeepsLimit(f, a, i);
    case DecideWorker(id, outcome, now) =>
      if Deciding(f, id) {
        var fl := f.flights[id];
        PlanningKeepsLimit(f, id, Decide(f.db, fl.item, fl.run, fl.worker, outcome, now), i);
      }
    case DecideScheduler(id, e, now) =>
      if Deciding(f, id) {
        var fl := f.flights[id];
        PlanningKeepsLimit(f, id, DecideScheduled(f.db, fl.item, fl.run, fl.worker, e, now), i);
      }
    case See(id) => SeeingKeepsLimit(f, id, i);
    case CommitPlan(id) =>
      if Ready(f, id) {
        if f.flights[id].plan.value.Issue? { CommitKeepsLimit(f, id, i); } else { EmptyCommitKeepsLimit(f, id, i); }
      }
    case Meanwhile(op) => MeanwhileKeepsLimit(f, op, i);
  }

  lemma SeeingKeepsLimit(f: Floor, id: string, i: string)
    requires WithinLimit(f, i)
    ensures WithinLimit(Act(f, See(id)), i)
  {
    if id in f.flights && f.flights[id].plan.Some? {
      var fl := f.flights[id];
      if fl.item == i { assert FlightOn(f, id, i); }
      PlanningKeepsLimit(f, id, Identify(f.db, fl.item, fl.run, fl.worker, fl.plan.value), i);
    }
  }

  /** With one execution of the item at a time, attempts never exceed the limit by more than the operator's dead-letter
      recoveries, and stay strictly below that while the item is not dead-lettered or is being executed: recoveries, claims
      and completions may fall between an execution's transactions. */
  lemma {:induction false} AttemptsAreBounded(acts: seq<Activity>, i: string)
    requires forall k :: 0 <= k < |acts| ==> ProperActivity(acts[k])
    requires forall k :: 0 <= k <= |acts| ==> OneFlight(Shift(acts[..k]), i)
    ensures WithinLimit(Shift(acts), i)
  {
    if |acts| != 0 {
      var init := acts[..|acts| - 1];
      forall k | 0 <= k <= |init| ensures OneFlight(Shift(init[..k]), i) {
        assert init[..k] == acts[..k];
      }
      assert forall k :: 0 <= k < |init| ==> init[k] == acts[k];
      AttemptsAreBounded(init, i);
      PlansAreOwn(init);
      assert init[..|init|] == init;
      ActKeepsLimit(Shift(init), acts[|acts| - 1], i);
    }
  }

  // ----- back-off

  function UnitOf(code: FailureCode): nat {
    match PolicyOf(code)
    case Terminal => 0
    case Backoff(seconds) => seconds * MICROS_PER_SECOND
  }

  ghost predicate RequeuedAs(was: Item, it: Item, now: int, code: FailureCode) {
    && it.state == Queued && it.claimedBy == None && it.attempts == was.attempts + 1 < it.maxAttempts == was.maxAttempts
    && PolicyOf(code).Backoff?
    && it.availableAt == now + UnitOf(code) * Pow2(was.attempts)
  }

  lemma NackRequeues(db: Db, item: string, run: string, worker: string, code: FailureCode, now: int)
    requires NackStep(db, item, run, worker, code, now).1.Requeued?
    ensures NackStep(db, item, run, worker, code, now).1 == Requeued(code)
    ensures item in db.items && db.items[item].state == Claimed
    ensures item in NackStep(db, item, run, worker, code, now).0.items
    ensures RequeuedAs(db.items[item], NackStep(db, item, run, worker, code, now).0.items[item], now, code)
  {
  }

  lemma SettleRequeues(db: Db, item: string, run: string, worker: string, outcome: Outcome, now: int, code: FailureCode)
    requires SettleStep(db, item, run, worker, outcome, now).1 == Requeued(code)
    ensures item in db.items && db.items[item].state == Claimed
    ensures item in SettleStep(db, item, run, worker, outcome, now).0.items
    ensures RequeuedAs(db.items[item], SettleStep(db, item, run, worker, outcome, now).0.items[item], now, code)
  {
    match outcome
    case Retryable(c) => NackRequeues(db, item, run, worker, c, now);
    case RuntimeFailure(c, retryable) => if retryable { NackRequeues(db, item, run, worker, c, now); }
    case Crash => NackRequeues(db, item, run, worker, RunnerHostUnavailable, now);
    case _ =>
  }

  ghost predicate OnlyClaims(db: Db, item: string, worker: string, now: int, after: Db) {
    && after.audit == db.audit
    && (after.items == db.items
        || (item in db.items && db.items[item].state == Queued
            && after.items == db.items[item := MarkClaimed(db.items[item], worker, now)]))
  }

  lemma ClaimOnlyClaims(db: Db, item: string, worker: string, run: string, mode: RunMode, now: int)
    ensures OnlyClaims(db, item, worker, now, ClaimStep(db, item, worker, run, mode, now).0)
  {
  }

  lemma LaunchLeavesTheQueue(db: Db, item: string, run: string, mode: RunMode, latest: Option<nat>, expected: Option<nat>)
    requires run in db.runs && item in db.items
    requires latest.Some? ==> (db.items[item].topic, latest.value) in db.snapshots
    ensures var after := Orchestrator.Launched(db, item, run, mode, latest, expected).0;
      after.items == db.items && after.audit == db.audit
  {
  }

  lemma StartIsAClaim(db: Db, item: string, run: string, worker: string, mode: RunMode, expected: Option<nat>, now: int)
    ensures var after, claimed :=
      Orchestrator.StartStep(db, item, run, worker, mode, expected, now).0, ClaimStep(db, item, worker, run, mode, now).0;
      after.items == claimed.items && after.audit == claimed.audit
  {
    var (claimed, reply) := ClaimStep(db, item, worker, run, mode, now);
    if reply.Granted? && run in claimed.runs && claimed.runs[run].status == RunQueued {
      var latest := Orchestrator.Latest(claimed.snapshots, claimed.items[item].topic);
      LaunchLeavesTheQueue(claimed, item, run, mode, latest, expected);
    }
  }

  /** A start claims the item or leaves the queue as it is. */
  lemma StartOnlyClaims(db: Db, item: string, run: string, worker: string, now: int)
    ensures OnlyClaims(db, item, worker, now, BeginStep(db, item, run, worker, now).0)
  {
    StartIsAClaim(db, item, run, worker, LedgerModel.Scheduled, None, now);
    ClaimOnlyClaims(db, item, worker, run, LedgerModel.Scheduled, now);
  }

  lemma BeginClaims(db: Db, item: string, run: string, worker: string, now: int)
    requires BeginStep(db, item, run, worker, now).1.Running?
    requires item in BeginStep(db, item, run, worker, now).0.items
    requires BeginStep(db, item, run, worker, now).0.items[item].state == Claimed
    ensures item in db.items && db.items[item].state == Queued && db.items[item].availableAt <= now
    ensures BeginStep(db, item, run, worker, now).0.items[item] == MarkClaimed(db.items[item], worker, now)
  {
    StartOnlyClaims(db, item, run, worker, now);
    if now < db.items[item].availableAt { EarlyStart(db, item, run, worker, now); }
  }

  lemma EarlyStart(db: Db, item: string, run: string, worker: string, now: int)
    requires item in db.items && now < db.items[item].availableAt
    ensures BeginStep(db, item, run, worker, now).0 == db
  {
  }

  /** One execution: the ledger when it begins, when its ending is recorded, and after that. Anything may happen to the
      ledger while the handler runs. */
  datatype Execution = Execution(
    run: string, worker: string, handled: Outcome, claimedAt: int, now: int, before: Db, ending: Db, after: Db)

  /** The execution ends as requeued, and the item's row was left alone from its begin to its end. */
  ghost predicate RequeuedUndisturbed(e: Execution, item: string, code: FailureCode) {
    var (begun, b) := BeginStep(e.before, item, e.run, e.worker, e.claimedAt);
    && b.Running? && item in begun.items && item in e.ending.items && e.ending.items[item] == begun.items[item]
    && (e.after, Requeued(code)) ==
       SettleStep(e.ending, item, e.run, e.worker, if b.doomed.Some? then b.doomed.value else e.handled, e.now)
  }

  /** A requeued execution had claimed an available queued item; it counted one attempt and postponed the item by the
      doubled back-off of its failure code. */
  lemma RequeuedMeans(e: Execution, item: string, code: FailureCode)
    requires RequeuedUndisturbed(e, item, code)
    ensures item in e.before.items && item in e.after.items
    ensures e.before.items[item].state == Queued && e.before.items[item].availableAt <= e.claimedAt
    ensures RequeuedAs(e.before.items[item], e.after.items[item], e.now, code)
  {
    var (begun, b) := BeginStep(e.before, item, e.run, e.worker, e.claimedAt);
    SettleRequeues(e.ending, item, e.run, e.worker, if b.doomed.Some? then b.doomed.value else e.handled, e.now, code);
    BeginClaims(e.before, item, e.run, e.worker, e.claimedAt);
  }

  /** In particular an execution that nothing interrupts. */
  lemma UninterruptedIsUndisturbed(
    db: Db, item: string, run: string, worker: string, handled: Outcome, claimedAt: int, now: int, code: FailureCode)
    requires ExecuteStep(db, item, run, worker, handled, claimedAt, now).1 == Requeued(code)
    ensures var begun, after :=
      BeginStep(db, item, run, worker, claimedAt).0, ExecuteStep(db, item, run, worker, handled, claimedAt, now).0;
      RequeuedUndisturbed(Execution(run, worker, handled, claimedAt, now, db, begun, after), item, code)
  {
    var (begun, b) := BeginStep(db, item, run, worker, claimedAt);
    if b.Running? {
      SettleRequeues(begun, item, run, worker, if b.doomed.Some? then b.doomed.value else handled, now, code);
    }
  }

  /** An execution attempted before the item is available changes nothing, unless it would be the item's last attempt: then
      the item is dead-lettered without having been tried. */
  lemma EarlyExecution(db: Db, item: string, run: string, worker: string, handled: Outcome, claimedAt: int, now: int)
    requires item in db.items && db.items[item].state == Queued && db.items[item].kind in SUPPORTED_KINDS
    requires claimedAt < db.items[item].availableAt
    ensures ExecuteStep(db, item, run, worker, handled, claimedAt, now) == (
      if db.items[item].attempts + 1 < db.items[item].maxAttempts then (db, Raised(ClaimMismatch))
      else (DeadLetterStep(db, item, Owner(None, None), Name(RunnerHostUnavailable)).0, Buried(RunnerHostUnavailable)))
  {
  }

  /** Successive executions of the item, each requeued under the code and ended no earlier than it claimed, between which
      the item's row is left alone too: rows are its states before, between and after them. */
  ghost predicate RetriedAll(es: seq<Execution>, rows: seq<Item>, item: string, code: FailureCode) {
    && |rows| == |es| + 1
    && forall k :: 0 <= k < |es| ==>
      && RequeuedUndisturbed(es[k], item, code) && es[k].claimedAt <= es[k].now
      && item in es[k].before.items && es[k].before.items[item] == rows[k]
      && item in es[k].after.items && es[k].after.items[item] == rows[k + 1]
  }

  ghost predicate Postpones(was: Item, it: Item, e: Execution, code: FailureCode) {
    RequeuedAs(was, it, e.now, code) && was.availableAt <= e.claimedAt <= e.now
  }

  lemma {:induction false} PowerProduct(a: nat, k: nat)
    ensures Pow2(a + k) == Pow2(a) * Pow2(k)
  {
    if k != 0 { PowerProduct(a, k - 1); }
  }

  function Delay(code: FailureCode, attempts: nat): nat {
    UnitOf(code) * Pow2(attempts)
  }

  function Geometric(code: FailureCode, a: nat, k: nat): nat {
    if k == 0 then 0 else Geometric(code, a, k - 1) + Delay(code, a + (k - 1))
  }

  lemma {:induction false} GeometricSum(code: FailureCode, a: nat, k: nat)
    ensures Geometric(code, a, k) == UnitOf(code) * Pow2(a) * (Pow2(k) - 1)
  {
    if k != 0 {
      GeometricSum(code, a, k - 1);
      PowerProduct(a, k - 1);
      Doubling(UnitOf(code), Pow2(a), Pow2(k - 1));
    }
  }

  lemma Doubling(x: int, p: int, q: int)
    ensures x * p * (q - 1) + x * (p * q) == x * p * (2 * q - 1)
  {
    var y := x * p;
    assert x * (p * q) == y * q;
    assert y * (q - 1) == y * q - y;
    assert y * (2 * q - 1) == 2 * (y * q) - y;
  }

  /** The back-off imposed by the first k executions: how far each postponed the item beyond its own end. */
  ghost function TotalBackoff(es: seq<Execution>, rows: seq<Item>, k: nat): int
    requires k <= |es| == |rows| - 1
  {
    if k == 0 then 0 else TotalBackoff(es, rows, k - 1) + (rows[k].availableAt - es[k - 1].now)
  }

  lemma {:induction false} DelaysAddUp(es: seq<Execution>, rows: seq<Item>, code: FailureCode, k: nat)
    requires k <= |es| == |rows| - 1
    requires forall j :: 0 <= j < |es| ==> Postpones(rows[j], rows[j + 1], es[j], code)
    ensures rows[k].attempts == rows[0].attempts + k
    ensures TotalBackoff(es, rows, k) == Geometric(code, rows[0].attempts, k)
    ensures k > 0 ==> rows[k].availableAt >= es[0].now + Geometric(code, rows[0].attempts, k)
  {
    if k != 0 {
      DelaysAddUp(es, rows, code, k - 1);
      assert Postpones(rows[k - 1], rows[k], es[k - 1], code);
    }
  }

  ghost predicate Postponed(es: seq<Execution>, rows: seq<Item>, code: FailureCode) {
    |rows| == |es| + 1 && forall k :: 0 <= k < |es| ==> Postpones(rows[k], rows[k + 1], es[k], code)
  }

  lemma PostponedInAll(es: seq<Execution>, rows: seq<Item>, code: FailureCode)
    requires Postponed(es, rows, code)
    ensures TotalBackoff(es, rows, |es|) == UnitOf(code) * Pow2(rows[0].attempts) * (Pow2(|es|) - 1)
    ensures |es| > 0 ==> rows[|es|].availableAt >= es[0].now + TotalBackoff(es, rows, |es|)
  {
    DelaysAddUp(es, rows, code, |es|);
    GeometricSum(code, rows[0].attempts, |es|);
  }

  lemma RetriesArePostponed(es: seq<Execution>, rows: seq<Item>, item: string, code: FailureCode)
    requires RetriedAll(es, rows, item, code)
    ensures Postponed(es, rows, code)
  {
    forall k | 0 <= k < |es| ensures Postpones(rows[k], rows[k + 1], es[k], code) {
      RequeuedMeans(es[k], item, code);
    }
  }

  /** k successive retries from a attempts impose base * 2^a * (2^k - 1) of back-off in all, and all of it has to pass: the
      item is not available again sooner after the first of them ended. Whatever else happens to the ledger meanwhile. */
  lemma BackoffAddsUp(es: seq<Execution>, rows: seq<Item>, item: string, code: FailureCode)
    requires RetriedAll(es, rows, item, code)
    ensures TotalBackoff(es, rows, |es|) == UnitOf(code) * Pow2(rows[0].attempts) * (Pow2(|es|) - 1)
    ensures |es| > 0 ==> rows[|es|].availableAt >= es[0].now + TotalBackoff(es, rows, |es|)
  {
    RetriesArePostponed(es, rows, item, code);
    PostponedInAll(es, rows, code);
  }
}
