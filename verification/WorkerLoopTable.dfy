/** The worker_loops table shared by all loops, and what its lease means for loops that have lost it. */
module WorkerLoopTable {
  import opened Prelude

  datatype RowState = Running | Ended(reason: string)

  datatype Row = Row(topic: string, worker: string, state: RowState, leaseExpiresAt: int)

  type Rows = map<string, Row>

  datatype Op =
    | Acquire(loopId: string, topic: string, worker: string, expiresAt: int, now: int)
    | Heartbeat(loopId: string, expiresAt: int)
    | Finish(loopId: string, reason: string)
    | FinishTopic(topic: string, reason: string)

  predicate RunsTopic(rows: Rows, l: string, topic: string) {
    l in rows && rows[l].state == Running && rows[l].topic == topic
  }

  /** At most one loop of a topic is running, so the row a query for it finds is this one. */
  ghost predicate OneRunning(rows: Rows) {
    forall l, m, topic :: RunsTopic(rows, l, topic) && RunsTopic(rows, m, topic) ==> l == m
  }

  /** The rows with the running loop of the topic, if any, ended. */
  function EndTopic(rows: Rows, topic: string, reason: string): Rows {
    map l | l in rows :: if RunsTopic(rows, l, topic) then rows[l].(state := Ended(reason)) else rows[l]
  }

  lemma EndsTheOne(rows: Rows, l: string, topic: string, reason: string)
    requires OneRunning(rows) && RunsTopic(rows, l, topic)
    ensures EndTopic(rows, topic, reason) == rows[l := rows[l].(state := Ended(reason))]
  {
  }

  lemma EndsNone(rows: Rows, topic: string, reason: string)
    requires forall l :: !RunsTopic(rows, l, topic)
    ensures EndTopic(rows, topic, reason) == rows
  {
  }

  class LoopTable {
    var rows: Rows

    constructor ()
      ensures rows == map[]
    {
      rows := map[];
    }

    method FetchRunning(topic: string) returns (found: Option<string>)
      ensures found.Some? ==> RunsTopic(rows, found.value, topic)
      ensures found.None? ==> forall l :: !RunsTopic(rows, l, topic)
    {
      found := None;
      var rest := rows.Keys;
      while rest != {} && found.None?
        invariant rest <= rows.Keys
        invariant found.Some? ==> RunsTopic(rows, found.value, topic)
        invariant found.None? ==> forall l :: l in rows.Keys - rest ==> !RunsTopic(rows, l, topic)
        decreases rest
      {
        var l :| l in rest;
        rest := rest - {l};
        if rows[l].state == Running && rows[l].topic == topic {
          found := Some(l);
        }
      }
    }

    /** An unexpired running loop of the topic wins; an expired one is ended. Inserting an id already used rolls back. */
    method AcquireWorkerLoop(loopId: string, topic: string, worker: string, expiresAt: int, now: int) returns (ok: bool)
      requires OneRunning(rows)
      modifies this
      ensures (rows, ok) == Step(old(rows), Acquire(loopId, topic, worker, expiresAt, now))
    {
      var saved := rows;
      var existing := FetchRunning(topic);
      if existing.Some? { EndsTheOne(rows, existing.value, topic, "lease_expired"); } else { EndsNone(rows, topic, "lease_expired"); }
      if existing.Some? && rows[existing.value].leaseExpiresAt > now && existing.value != loopId {
        return false;
      }
      if existing.Some? && rows[existing.value].leaseExpiresAt <= now {
        rows := rows[existing.value := rows[existing.value].(state := Ended("lease_expired"))];
      }
      if loopId in rows {
        rows := saved;
        return false;
      }
      rows := rows[loopId := Row(topic, worker, Running, expiresAt)];
      ok := true;
    }

    method HeartbeatWorkerLoop(loopId: string, expiresAt: int) returns (ok: bool)
      modifies this
      ensures (rows, ok) == Step(old(rows), Heartbeat(loopId, expiresAt))
    {
      ok := loopId in rows && rows[loopId].state == Running;
      if ok {
        rows := rows[loopId := rows[loopId].(leaseExpiresAt := expiresAt)];
      }
    }

    /** Ends the loop whatever its state: a loop that lost its lease overwrites the recorded reason. */
    method StopWorkerLoop(loopId: string, reason: string) returns (ok: bool)
      modifies this
      ensures (rows, ok) == Step(old(rows), Finish(loopId, reason))
    {
      ok := loopId in rows;
      if ok {
        rows := rows[loopId := rows[loopId].(state := Ended(reason))];
      }
    }

    method StopWorkerLoopForTopic(topic: string, reason: string) returns (ok: bool)
      requires OneRunning(rows)
      modifies this
      ensures (rows, ok) == Step(old(rows), FinishTopic(topic, reason))
    {
      var current := FetchRunning(topic);
      if current.Some? { EndsTheOne(rows, current.value, topic, reason); } else { EndsNone(rows, topic, reason); }
      ok := current.Some?;
      if ok {
        rows := rows[current.value := rows[current.value].(state := Ended(reason))];
      }
    }
  }

  function Step(rows: Rows, op: Op): (Rows, bool) {
    match op
    case Acquire(l, topic, worker, expiresAt, now) =>
      if (exists m | m in rows :: RunsTopic(rows, m, topic) && rows[m].leaseExpiresAt > now) || l in rows then (rows, false)
      else (EndTopic(rows, topic, "lease_expired")[l := Row(topic, worker, Running, expiresAt)], true)
    case Heartbeat(l, expiresAt) =>
      if l in rows && rows[l].state == Running then (rows[l := rows[l].(leaseExpiresAt := expiresAt)], true) else (rows, false)
    case Finish(l, reason) =>
      if l in rows then (rows[l := rows[l].(state := Ended(reason))], true) else (rows, false)
    case FinishTopic(topic, reason) =>
      if exists m | m in rows :: RunsTopic(rows, m, topic) then (EndTopic(rows, topic, reason), true) else (rows, false)
  }

  lemma RunningBefore(rows: Rows, op: Op, l: string, topic: string)
    requires RunsTopic(Step(rows, op).0, l, topic)
    ensures RunsTopic(rows, l, topic) || (op.Acquire? && op.loopId == l && op.topic == topic && Step(rows, op).1)
    ensures op.Acquire? && op.topic == topic && Step(rows, op).1 ==> l == op.loopId
  {
  }

  lemma StepKeepsOneRunning(rows: Rows, op: Op)
    requires OneRunning(rows)
    ensures OneRunning(Step(rows, op).0)
  {
    var after := Step(rows, op).0;
    forall l, m, topic | RunsTopic(after, l, topic) && RunsTopic(after, m, topic) ensures l == m {
      RunningBefore(rows, op, l, topic);
      RunningBefore(rows, op, m, topic);
    }
  }

  // ----- loops acting on the table

  /** A loop executes an item only after a heartbeat of its own was accepted since its last execution. */
  datatype Action = Table(op: Op) | Execute(loopId: string)

  function After(acts: seq<Action>): Rows {
    if |acts| == 0 then map[] else
      var before, a := After(acts[..|acts| - 1]), acts[|acts| - 1];
      if a.Table? then Step(before, a.op).0 else before
  }

  lemma {:induction false} AtMostOneRunning(acts: seq<Action>)
    ensures OneRunning(After(acts))
  {
    if |acts| > 0 {
      AtMostOneRunning(acts[..|acts| - 1]);
      if acts[|acts| - 1].Table? {
        StepKeepsOneRunning(After(acts[..|acts| - 1]), acts[|acts| - 1].op);
      }
    }
  }

  /** The loop's latest heartbeat was accepted and it has not executed since. */
  function Cleared(acts: seq<Action>, l: string): bool {
    if |acts| == 0 then false else
      var init, a := acts[..|acts| - 1], acts[|acts| - 1];
      match a
      case Execute(m) => m != l && Cleared(init, l)
      case Table(op) => if op.Heartbeat? && op.loopId == l then Step(After(init), op).1 else Cleared(init, l)
  }

  ghost predicate Disciplined(acts: seq<Action>, l: string) {
    forall k :: 0 <= k < |acts| && acts[k] == Execute(l) ==> Cleared(acts[..k], l)
  }

  /** Executions of loop l from position k on. */
  function Executions(acts: seq<Action>, l: string, k: nat): nat
    requires k <= |acts|
  {
    if |acts| == k then 0 else Executions(acts[..|acts| - 1], l, k) + if acts[|acts| - 1] == Execute(l) then 1 else 0
  }

  ghost predicate Lost(rows: Rows, l: string) {
    l in rows && rows[l].state != Running
  }

  lemma LostStays(rows: Rows, op: Op, l: string)
    requires Lost(rows, l)
    ensures Lost(Step(rows, op).0, l)
    ensures op.Heartbeat? && op.loopId == l ==> !Step(rows, op).1
  {
  }

  function Owed(cleared: bool): nat {
    if cleared then 1 else 0
  }

  /** A loop that is no longer running never runs again, its heartbeats all fail, and it executes at most the one item its
      last accepted heartbeat cleared, whatever all loops and operators do. */
  lemma {:induction false} LostLoopOnlyFinishesItsItem(acts: seq<Action>, l: string, k: nat)
    requires k <= |acts| && Disciplined(acts, l) && Lost(After(acts[..k]), l)
    ensures Lost(After(acts), l)
    ensures Executions(acts, l, k) + Owed(Cleared(acts, l)) <= Owed(Cleared(acts[..k], l))
    ensures forall h :: k <= h < |acts| && acts[h].Table? && acts[h].op.Heartbeat? && acts[h].op.loopId == l ==>
      !Step(After(acts[..h]), acts[h].op).1
  {
    if |acts| == k {
      assert acts[..k] == acts;
    } else {
      var init, a := acts[..|acts| - 1], acts[|acts| - 1];
      assert init[..k] == acts[..k];
      forall j | 0 <= j < |init| && init[j] == Execute(l) ensures Cleared(init[..j], l) {
        assert init[..j] == acts[..j];
      }
      LostLoopOnlyFinishesItsItem(init, l, k);
      if a.Table? { LostStays(After(init), a.op, l); }
      if a == Execute(l) { assert Cleared(acts[..|acts| - 1], l); }
      forall h | k <= h < |acts| && acts[h].Table? && acts[h].op.Heartbeat? && acts[h].op.loopId == l
        ensures !Step(After(acts[..h]), acts[h].op).1
      {
        if h < |init| { assert init[..h] == acts[..h] && init[h] == acts[h]; }
      }
    }
  }

  /** Taking a topic over ends whatever loop was running it. */
  lemma TakeoverEndsTheOther(rows: Rows, l: string, op: Op)
    requires op.Acquire? && Step(rows, op).1 && RunsTopic(rows, l, op.topic)
    ensures Lost(Step(rows, op).0, l) && RunsTopic(Step(rows, op).0, op.loopId, op.topic) && rows[l].leaseExpiresAt <= op.now
  {
  }

  // ----- what the table allows and leaves, loop by loop

  /** A new loop is let in exactly when its id is new and every running loop of the topic has reached its expiry. */
  lemma AcquiresIff(rows: Rows, op: Op)
    requires op.Acquire?
    ensures Step(rows, op).1 <==>
      && op.loopId !in rows
      && forall l :: l in rows && rows[l].state == Running && rows[l].topic == op.topic ==> rows[l].leaseExpiresAt <= op.now
    ensures !Step(rows, op).1 ==> Step(rows, op).0 == rows
  {
    if m :| m in rows && RunsTopic(rows, m, op.topic) && rows[m].leaseExpiresAt > op.now {
      assert rows[m].state == Running && rows[m].topic == op.topic;
    }
  }

  /** The row an accepted operation leaves of loop l: begun, extended, ended, or untouched. */
  ghost function RowAfter(rows: Rows, op: Op, l: string): Option<Row> {
    match op
    case Acquire(m, topic, worker, expiresAt, _) =>
      if l == m then Some(Row(topic, worker, Running, expiresAt))
      else if l in rows && rows[l].state == Running && rows[l].topic == topic
      then Some(Row(topic, rows[l].worker, Ended("lease_expired"), rows[l].leaseExpiresAt))
      else RowOf(rows, l)
    case Heartbeat(m, expiresAt) =>
      if l == m && l in rows then Some(Row(rows[l].topic, rows[l].worker, Running, expiresAt)) else RowOf(rows, l)
    case Finish(m, reason) =>
      if l == m && l in rows then Some(Row(rows[l].topic, rows[l].worker, Ended(reason), rows[l].leaseExpiresAt)) else RowOf(rows, l)
    case FinishTopic(topic, reason) =>
      if l in rows && rows[l].state == Running && rows[l].topic == topic
      then Some(Row(topic, rows[l].worker, Ended(reason), rows[l].leaseExpiresAt))
      else RowOf(rows, l)
  }

  ghost function RowOf(rows: Rows, l: string): Option<Row> {
    if l in rows then Some(rows[l]) else None
  }

  lemma StepLeaves(rows: Rows, op: Op, l: string)
    ensures RowOf(Step(rows, op).0, l) == if Step(rows, op).1 then RowAfter(rows, op, l) else RowOf(rows, l)
    ensures op.Heartbeat? ==> (Step(rows, op).1 <==> op.loopId in rows && rows[op.loopId].state == Running)
    ensures op.Finish? ==> (Step(rows, op).1 <==> op.loopId in rows)
    ensures op.FinishTopic? ==> (Step(rows, op).1 <==> exists m :: m in rows && RunsTopic(rows, m, op.topic))
  {
  }

  /** Nothing ends loop l or touches its lease. */
  ghost predicate Leaves(op: Op, l: string, topic: string, expiresAt: int) {
    match op
    case Acquire(_, t, _, _, now) => t == topic ==> now < expiresAt
    case Heartbeat(m, _) => m != l
    case Finish(m, _) => m != l
    case FinishTopic(t, _) => t != topic
  }

  function RunOps(rows: Rows, ops: seq<Op>): Rows {
    if |ops| == 0 then rows else Step(RunOps(rows, ops[..|ops| - 1]), ops[|ops| - 1]).0
  }

  lemma LeftAlone(rows: Rows, op: Op, l: string, row: Row)
    requires l in rows && rows[l] == row && row.state == Running && Leaves(op, l, row.topic, row.leaseExpiresAt)
    ensures l in Step(rows, op).0 && Step(rows, op).0[l] == row
    ensures op.Acquire? && op.topic == row.topic ==> !Step(rows, op).1
  {
    if op.Acquire? && op.topic == row.topic {
      AcquiresIff(rows, op);
    }
  }

  /** An accepted heartbeat keeps the topic for its loop until the expiry it names: no other loop is let in before, whatever
      else happens to the table. */
  lemma {:induction false} HeartbeatKeepsTheTopic(rows: Rows, beat: Op, ops: seq<Op>, next: Op)
    requires beat.Heartbeat? && Step(rows, beat).1 && beat.loopId in rows
    requires forall op :: op in ops + [next] ==> Leaves(op, beat.loopId, rows[beat.loopId].topic, beat.expiresAt)
    ensures var now, topic := RunOps(Step(rows, beat).0, ops), rows[beat.loopId].topic;
      && beat.loopId in now && now[beat.loopId] == Row(topic, rows[beat.loopId].worker, Running, beat.expiresAt)
      && (next.Acquire? && next.topic == topic ==> !Step(now, next).1)
  {
    assert next in ops + [next];
    if |ops| != 0 {
      var init, op := ops[..|ops| - 1], ops[|ops| - 1];
      assert op in ops + [next];
      forall o | o in init + [op] ensures o in ops + [next] {}
      HeartbeatKeepsTheTopic(rows, beat, init, op);
      LeftAlone(
        RunOps(Step(rows, beat).0, init), op, beat.loopId,
        Row(rows[beat.loopId].topic, rows[beat.loopId].worker, Running, beat.expiresAt));
    }
    LeftAlone(
      RunOps(Step(rows, beat).0, ops), next, beat.loopId,
      Row(rows[beat.loopId].topic, rows[beat.loopId].worker, Running, beat.expiresAt));
  }
}
