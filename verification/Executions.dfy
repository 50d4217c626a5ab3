/** Executions in flight: queue workers and the scheduled service begin executions, several of them possibly on one item, and
    end them in separate transactions, while any other ledger operations happen in between. */
module Executions {
  import opened Prelude
  import opened LedgerModel
  import opened LedgerSafety
  import opened Settlement
  import QueueWorker
  import S = Scheduled

  /** plan is None until the execution's ending has been decided. */
  datatype Flight = Flight(item: string, run: string, worker: string, plan: Option<Plan>)

  /** The ledger, and the executions that have begun and not ended. */
  datatype Floor = Floor(db: Db, flights: map<string, Flight>)

  /** An execution begins by reading its item; its claim and its run's transitions are among the operations that happen
      meanwhile. It ends by deciding, seeing whom to name, and committing. */
  datatype Activity =
    | Begin(id: string, item: string, run: string, worker: string)
    | DecideWorker(id: string, outcome: QueueWorker.Outcome, now: int)
    | DecideScheduler(id: string, ending: ScheduledEnding, now: int)
    | See(id: string)
    | CommitPlan(id: string)
    | Meanwhile(op: Op)

  function Planned(f: Floor, id: string, plan: Plan): Floor
    requires id in f.flights
  {
    f.(flights := f.flights[id := f.flights[id].(plan := Some(plan))])
  }

  predicate Deciding(f: Floor, id: string) {
    id in f.flights && f.flights[id].plan == None && f.flights[id].item in f.db.items
  }

  predicate Ready(f: Floor, id: string) {
    id in f.flights && f.flights[id].plan.Some? && (f.flights[id].plan.value.Issue? || f.flights[id].plan.value.Nothing?)
  }

  function Act(f: Floor, a: Activity): Floor {
    match a
    case Begin(id, item, run, worker) =>
      if id in f.flights || !S.Schedulable(f.db, item) then f
      else f.(flights := f.flights[id := Flight(item, run, worker, None)])
    case DecideWorker(id, outcome, now) =>
      if !Deciding(f, id) then f else
        var fl := f.flights[id];
        Planned(f, id, Decide(f.db, fl.item, fl.run, fl.worker, outcome, now))
    case DecideScheduler(id, ending, now) =>
      if !Deciding(f, id) then f else
        var fl := f.flights[id];
        Planned(f, id, DecideScheduled(f.db, fl.item, fl.run, fl.worker, ending, now))
    case See(id) =>
      if id !in f.flights || f.flights[id].plan == None then f else
        var fl := f.flights[id];
        Planned(f, id, Identify(f.db, fl.item, fl.run, fl.worker, fl.plan.value))
    case CommitPlan(id) =>
      if !Ready(f, id) then f else Floor(Commit(f.db, f.flights[id].plan.value).0, f.flights - {id})
    case Meanwhile(op) => f.(db := Apply(f.db, op).0)
  }

  function Shift(acts: seq<Activity>): Floor {
    if |acts| == 0 then Floor(EmptyDb(), map[]) else Act(Shift(acts[..|acts| - 1]), acts[|acts| - 1])
  }

  // ----- a shift is a ledger history

  /** The ledger operation the activity issues. */
  function IssuedBy(f: Floor, a: Activity): seq<Op> {
    match a
    case CommitPlan(id) => if Ready(f, id) && f.flights[id].plan.value.Issue? then [f.flights[id].plan.value.op] else []
    case Meanwhile(op) => [op]
    case _ => []
  }

  function Issued(acts: seq<Activity>): seq<Op> {
    if |acts| == 0 then [] else
      var init := acts[..|acts| - 1];
      Issued(init) + IssuedBy(Shift(init), acts[|acts| - 1])
  }

  lemma IssuesIts(f: Floor, a: Activity, ops: seq<Op>)
    requires f.db == Run(EmptyDb(), ops)
    ensures Act(f, a).db == Run(EmptyDb(), ops + IssuedBy(f, a))
  {
    var issued := IssuedBy(f, a);
    if issued == [] {
      assert ops + issued == ops;
    } else {
      assert ops + issued == ops + [issued[0]];
      RunOneMore(ops, issued[0]);
    }
  }

  /** So whatever holds of every ledger history holds of every interleaving of executions. */
  lemma {:induction false} ShiftIsAHistory(acts: seq<Activity>)
    ensures Shift(acts).db == Run(EmptyDb(), Issued(acts))
  {
    if |acts| != 0 {
      ShiftIsAHistory(acts[..|acts| - 1]);
      IssuesIts(Shift(acts[..|acts| - 1]), acts[|acts| - 1], Issued(acts[..|acts| - 1]));
    }
  }

  /** Operations other than the executions' own enqueue queued items only. */
  ghost predicate ProperShift(acts: seq<Activity>) {
    forall k :: 0 <= k < |acts| && acts[k].Meanwhile? ==> ProperOp(acts[k].op)
  }

  /** Executions only ever plan acks, requeues and dead-letters of their own item. */
  ghost predicate OwnPlan(fl: Flight) {
    fl.plan.Some? && fl.plan.value.Issue? ==>
      var op := fl.plan.value.op; (op.Complete? || op.Retry? || op.DeadLetterItem?) && op.item == fl.item
  }

  ghost predicate OwnPlans(f: Floor) {
    forall id :: id in f.flights ==> OwnPlan(f.flights[id])
  }

  lemma ActKeepsOwnPlans(f: Floor, a: Activity)
    requires OwnPlans(f)
    ensures OwnPlans(Act(f, a))
  {
  }

  lemma {:induction false} PlansAreOwn(acts: seq<Activity>)
    ensures OwnPlans(Shift(acts))
  {
    if |acts| != 0 {
      PlansAreOwn(acts[..|acts| - 1]);
      ActKeepsOwnPlans(Shift(acts[..|acts| - 1]), acts[|acts| - 1]);
    }
  }

  lemma {:induction false} IssuedIsProper(acts: seq<Activity>)
    requires ProperShift(acts)
    ensures ProperHistory(Issued(acts))
  {
    if |acts| != 0 {
      var init := acts[..|acts| - 1];
      assert forall k :: 0 <= k < |init| ==> init[k] == acts[k];
      IssuedIsProper(init);
      PlansAreOwn(init);
    }
  }

  // ----- flights on an item

  ghost predicate FlightOn(f: Floor, id: string, i: string) {
    id in f.flights && f.flights[id].item == i
  }

  ghost predicate InFlight(f: Floor, i: string) {
    exists id :: FlightOn(f, id, i)
  }

  /** No two executions of item i are in flight at once. */
  ghost predicate OneFlight(f: Floor, i: string) {
    forall a, b :: FlightOn(f, a, i) && FlightOn(f, b, i) ==> a == b
  }

  // ----- several activities in a row

  function ActAll(f: Floor, acts: seq<Activity>): Floor
    decreases |acts|
  {
    if |acts| == 0 then f else ActAll(Act(f, acts[0]), acts[1..])
  }

  lemma ThreeActs(f: Floor, a: Activity, b: Activity, c: Activity)
    ensures ActAll(f, [a, b, c]) == Act(Act(Act(f, a), b), c)
  {
    assert [a, b, c][1..] == [b, c] && [b, c][1..] == [c] && [c][1..] == [];
    assert ActAll(Act(f, a), [b, c]) == ActAll(Act(Act(f, a), b), [c]);
    assert ActAll(Act(Act(f, a), b), [c]) == ActAll(Act(Act(Act(f, a), b), c), []);
  }

  lemma {:induction false} ActAllConcat(f: Floor, x: seq<Activity>, y: seq<Activity>)
    ensures ActAll(f, x + y) == ActAll(ActAll(f, x), y)
    decreases |x|
  {
    if |x| == 0 {
      assert x + y == y;
    } else {
      assert (x + y)[1..] == x[1..] + y;
      ActAllConcat(Act(f, x[0]), x[1..], y);
    }
  }

  lemma {:induction false} ShiftThen(init: seq<Activity>, more: seq<Activity>)
    ensures Shift(init + more) == ActAll(Shift(init), more)
    decreases |more|
  {
    if |more| == 0 {
      assert init + more == init;
    } else {
      assert (init + [more[0]])[..|init + [more[0]]| - 1] == init;
      assert init + more == (init + [more[0]]) + more[1..];
      ShiftThen(init + [more[0]], more[1..]);
    }
  }
}
