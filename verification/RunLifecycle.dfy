/** The run state machine under interference. A transition reads the status, checks the transition table, and only then
    compares-and-sets; any number of other callers and ledger operations may act between the two. */
module RunLifecycle {
  import opened Prelude
  import opened LedgerModel
  import opened LedgerSafety

  function Next(s: RunStatus): set<RunStatus> {
    match s
    case RunQueued => {LoadingState}
    case LoadingState => {SelectingFrontier, Failed}
    case SelectingFrontier => {Planning, Failed}
    case Planning => {AttackingCurrentBest}
    case AttackingCurrentBest => {GeneratingChallengers}
    case GeneratingChallengers => {CodexExecuting}
    case CodexExecuting => {Normalizing, Failed}
    case Normalizing => {Adjudicating, Failed}
    case Adjudicating => {RetiringWeakHypotheses, Persisting, Failed}
    case RetiringWeakHypotheses => {Persisting, Failed}
    case Persisting => {Summarizing, Failed}
    case Summarizing => {RunCompleted}
    case Failed => {RunQueued, DeadLetter}
    case RunCompleted => {}
    case DeadLetter => {}
  }

  /** A transition that has read the status but not yet swapped it. */
  datatype Pending = Pending(run: string, from: RunStatus, to: RunStatus, pin: Option<nat>)

  datatype World = World(db: Db, pending: map<string, Pending>)

  datatype Event =
    | Ledger(op: Op)
    | Read(actor: string, runId: string, to: RunStatus, pin: Option<nat>)
    | Swap(actor: string)

  function Step(w: World, ev: Event): World {
    match ev
    case Ledger(op) => w.(db := Apply(w.db, op).0)
    case Read(actor, run, to, pin) =>
      if run in w.db.runs && to in Next(w.db.runs[run].status)
      then w.(pending := w.pending[actor := Pending(run, w.db.runs[run].status, to, pin)])
      else w.(pending := w.pending - {actor})
    case Swap(actor) =>
      if actor !in w.pending then w else
        var t := w.pending[actor];
        World(TransitionStep(w.db, t.run, t.to, t.pin, Some(t.from)).0, w.pending - {actor})
  }

  function After(evs: seq<Event>): World {
    if |evs| == 0 then World(EmptyDb(), map[]) else Step(After(evs[..|evs| - 1]), evs[|evs| - 1])
  }

  /** How callers use the ledger: status is only written through the state machine or by the ledger's own dead-letter and
      recovery operations, and the one transition that pins a snapshot is SELECTING_FRONTIER, with a stored version. */
  ghost predicate ProperEvent(w: World, ev: Event) {
    match ev
    case Ledger(op) => ProperOp(op) && !op.Transition?
    case Read(_, run, to, pin) =>
      && (pin.Some? <==> to == SelectingFrontier)
      && (pin.Some? && run in w.db.runs ==> (w.db.runs[run].topic, pin.value) in w.db.snapshots)
    case Swap(_) => true
  }

  ghost predicate ProperTrace(evs: seq<Event>) {
    forall k :: 0 <= k < |evs| ==> ProperEvent(After(evs[..k]), evs[k])
  }

  lemma ProperPrefix(evs: seq<Event>)
    requires |evs| > 0 && ProperTrace(evs)
    ensures ProperTrace(evs[..|evs| - 1])
    ensures ProperEvent(After(evs[..|evs| - 1]), evs[|evs| - 1])
  {
    var init := evs[..|evs| - 1];
    forall k | 0 <= k < |init| ensures ProperEvent(After(init[..k]), init[k]) {
      assert init[..k] == evs[..k] && init[k] == evs[k];
    }
  }

  // ----- what never changes about rows

  ghost predicate Grows(a: Db, b: Db) {
    && (forall r :: r in a.runs ==> r in b.runs && SameIdentity(a.runs[r], b.runs[r]))
    && (forall i :: i in a.items ==> i in b.items && SameRequest(a.items[i], b.items[i]))
    && (forall k :: k in a.snapshots ==> k in b.snapshots && b.snapshots[k] == a.snapshots[k])
  }

  ghost predicate SameIdentity(a: RunRow, b: RunRow) {
    a.topic == b.topic && a.item == b.item && a.key == b.key && a.mode == b.mode
  }

  ghost predicate SameRequest(a: Item, b: Item) {
    a.topic == b.topic && a.key == b.key && a.payload == b.payload && a.kind == b.kind && a.requestedRun == b.requestedRun
  }

  lemma RunIdentityIsFixed(db: Db, op: Op, r: string)
    requires r in db.runs
    ensures r in Apply(db, op).0.runs && SameIdentity(db.runs[r], Apply(db, op).0.runs[r])
  {
    match op
    case Claim(_, _, _, _, _) =>
    case Retry(_, _, _, _) =>
    case Complete(_, _, _) =>
    case DeadLetterItem(_, _, _) =>
    case RecoverDeadLetter(_, _) =>
    case RecoverStale(_, _, _, _, _) =>
    case Reserve(_, _, _) =>
    case Enqueue(_, _) =>
    case StoreSnapshot(_) =>
    case Transition(_, _, _, _) =>
  }

  ghost predicate KeepsRequest(db: Db, op: Op, i: string)
    requires i in db.items
  {
    i in Apply(db, op).0.items && SameRequest(db.items[i], Apply(db, op).0.items[i])
  }

  lemma WorkKeepsRequest(db: Db, op: Op, i: string)
    requires Working(op) && i in db.items
    ensures KeepsRequest(db, op, i)
  {
    match op
    case Claim(_, _, _, _, _) =>
    case Retry(_, _, _, _) =>
    case Complete(_, _, _) =>
    case DeadLetterItem(_, _, _) =>
  }

  lemma RequestIsFixed(db: Db, op: Op, i: string)
    requires i in db.items
    ensures KeepsRequest(db, op, i)
  {
    match op
    case RecoverDeadLetter(_, _) =>
    case RecoverStale(_, _, _, _, _) =>
    case Reserve(_, _, _) =>
    case Enqueue(_, _) =>
    case StoreSnapshot(_) =>
    case Transition(_, _, _, _) =>
    case _ => WorkKeepsRequest(db, op, i);
  }

  lemma SnapshotIsFixed(db: Db, op: Op, k: (string, nat))
    requires k in db.snapshots
    ensures k in Apply(db, op).0.snapshots && Apply(db, op).0.snapshots[k] == db.snapshots[k]
  {
    match op
    case Claim(_, _, _, _, _) =>
    case Retry(_, _, _, _) =>
    case Complete(_, _, _) =>
    case DeadLetterItem(_, _, _) =>
    case RecoverDeadLetter(_, _) =>
    case RecoverStale(_, _, _, _, _) =>
    case Reserve(_, _, _) =>
    case Enqueue(_, _) =>
    case StoreSnapshot(_) =>
    case Transition(_, _, _, _) =>
  }

  lemma ApplyGrows(db: Db, op: Op)
    ensures Grows(db, Apply(db, op).0)
  {
    var after := Apply(db, op).0;
    forall r | r in db.runs ensures r in after.runs && SameIdentity(db.runs[r], after.runs[r]) { RunIdentityIsFixed(db, op, r); }
    forall i | i in db.items ensures i in after.items && SameRequest(db.items[i], after.items[i]) { RequestIsFixed(db, op, i); }
    forall k | k in db.snapshots ensures k in after.snapshots && after.snapshots[k] == db.snapshots[k] { SnapshotIsFixed(db, op, k); }
  }

  lemma StepGrows(w: World, ev: Event)
    ensures Grows(w.db, Step(w, ev).db)
  {
    match ev
    case Ledger(op) => ApplyGrows(w.db, op);
    case Read(_, _, _, _) =>
    case Swap(actor) =>
  }

  // ----- one event moves a status along the table, to DEAD_LETTER, or back to QUEUED

  ghost predicate PendingOk(w: World) {
    forall a :: a in w.pending ==>
      var t := w.pending[a];
      && t.to in Next(t.from)
      && (t.pin.Some? <==> t.to == SelectingFrontier)
      && t.run in w.db.runs
      && (t.pin.Some? ==> (w.db.runs[t.run].topic, t.pin.value) in w.db.snapshots)
  }

  lemma StepKeepsPending(w: World, ev: Event)
    requires PendingOk(w) && ProperEvent(w, ev)
    ensures PendingOk(Step(w, ev))
  {
    StepGrows(w, ev);
  }

  /** What a ledger operation other than a transition does to a run row. */
  ghost predicate LedgerMoves(a: RunRow, b: RunRow) {
    b.snapshot == a.snapshot && (b.status == a.status || b.status == DeadLetter || b.status == RunQueued)
  }

  /** The operation moves a run row as a ledger operation may, and adds none but a QUEUED one without a pin. */
  ghost predicate MovesRun(db: Db, op: Op, r: string) {
    var after := Apply(db, op).0;
    if r in db.runs then r in after.runs && LedgerMoves(db.runs[r], after.runs[r])
    else r in after.runs ==> after.runs[r].status == RunQueued && after.runs[r].snapshot == None
  }

  lemma WorkMoves(db: Db, op: Op, r: string)
    requires Working(op)
    ensures MovesRun(db, op, r)
  {
    match op
    case Claim(_, _, _, _, _) =>
    case Retry(_, _, _, _) =>
    case Complete(_, _, _) =>
    case DeadLetterItem(_, _, _) =>
  }

  lemma ApplyMoves(db: Db, op: Op, r: string)
    requires !op.Transition?
    ensures MovesRun(db, op, r)
  {
    match op
    case RecoverDeadLetter(_, _) =>
    case RecoverStale(_, _, _, _, _) =>
    case Reserve(_, _, _) =>
    case Enqueue(_, _) =>
    case StoreSnapshot(_) =>
    case _ => WorkMoves(db, op, r);
  }

  ghost predicate LegalPair(a: RunStatus, b: RunStatus) {
    b in Next(a) || b == DeadLetter || b == RunQueued
  }

  lemma StepMoves(w: World, ev: Event, r: string)
    requires PendingOk(w) && ProperEvent(w, ev)
    ensures r in w.db.runs ==> r in Step(w, ev).db.runs
    ensures r in w.db.runs && Step(w, ev).db.runs[r].status != w.db.runs[r].status ==>
      LegalPair(w.db.runs[r].status, Step(w, ev).db.runs[r].status)
    ensures r !in w.db.runs && r in Step(w, ev).db.runs ==> Step(w, ev).db.runs[r].status == RunQueued
  {
    match ev
    case Ledger(op) => ApplyGrows(w.db, op); ApplyMoves(w.db, op, r);
    case Read(_, _, _, _) =>
    case Swap(actor) =>
  }

  // ----- snapshots are pinned from SELECTING_FRONTIER on

  function Rank(s: RunStatus): nat {
    match s
    case RunQueued => 0
    case LoadingState => 1
    case SelectingFrontier => 2
    case Planning => 3
    case AttackingCurrentBest => 4
    case GeneratingChallengers => 5
    case CodexExecuting => 6
    case Normalizing => 7
    case Adjudicating => 8
    case RetiringWeakHypotheses => 9
    case Persisting => 10
    case Summarizing => 11
    case RunCompleted => 12
    case Failed => 13
    case DeadLetter => 14
  }

  ghost predicate Pinned(db: Db, r: string)
    requires r in db.runs
  {
    db.runs[r].snapshot.Some? && (db.runs[r].topic, db.runs[r].snapshot.value) in db.snapshots
  }

  ghost predicate PinsOk(db: Db) {
    forall r :: r in db.runs && Rank(SelectingFrontier) <= Rank(db.runs[r].status) <= Rank(RunCompleted) ==> Pinned(db, r)
  }

  lemma StepKeepsPin(w: World, ev: Event, r: string)
    requires PendingOk(w) && PinsOk(w.db) && ProperEvent(w, ev)
    requires r in Step(w, ev).db.runs
    requires Rank(SelectingFrontier) <= Rank(Step(w, ev).db.runs[r].status) <= Rank(RunCompleted)
    ensures Step(w, ev).db.runs[r].snapshot.Some?
    ensures (Step(w, ev).db.runs[r].topic, Step(w, ev).db.runs[r].snapshot.value) in w.db.snapshots
  {
    match ev
    case Ledger(op) =>
      ApplyMoves(w.db, op, r);
      if r in w.db.runs { RunIdentityIsFixed(w.db, op, r); assert Pinned(w.db, r); }
    case Read(_, _, _, _) => assert Pinned(w.db, r);
    case Swap(actor) =>
      if actor in w.pending && w.pending[actor].run == r {
        var t := w.pending[actor];
        if w.db.runs[r].status == t.from && t.pin.None? && t.from != LoadingState { assert Pinned(w.db, r); }
      }
  }

  lemma StepKeepsPins(w: World, ev: Event)
    requires PendingOk(w) && PinsOk(w.db) && ProperEvent(w, ev)
    ensures PinsOk(Step(w, ev).db)
  {
    var db := Step(w, ev).db;
    StepGrows(w, ev);
    forall r | r in db.runs && Rank(SelectingFrontier) <= Rank(db.runs[r].status) <= Rank(RunCompleted) ensures Pinned(db, r) {
      StepKeepsPin(w, ev, r);
    }
  }

  /** Any pin, at any status, is of a stored version of the run's topic. */
  ghost predicate PinsStored(db: Db) {
    forall r :: r in db.runs && db.runs[r].snapshot.Some? ==> Pinned(db, r)
  }

  lemma StepKeepsPinStored(w: World, ev: Event, r: string)
    requires PendingOk(w) && PinsStored(w.db) && ProperEvent(w, ev)
    requires r in Step(w, ev).db.runs && Step(w, ev).db.runs[r].snapshot.Some?
    ensures (Step(w, ev).db.runs[r].topic, Step(w, ev).db.runs[r].snapshot.value) in w.db.snapshots
  {
    match ev
    case Ledger(op) =>
      ApplyMoves(w.db, op, r);
      if r in w.db.runs { RunIdentityIsFixed(w.db, op, r); assert Pinned(w.db, r); }
    case Read(_, _, _, _) => assert Pinned(w.db, r);
    case Swap(actor) => if w.db.runs[r].snapshot.Some? { assert Pinned(w.db, r); }
  }

  lemma StepKeepsPinsStored(w: World, ev: Event)
    requires PendingOk(w) && PinsStored(w.db) && ProperEvent(w, ev)
    ensures PinsStored(Step(w, ev).db)
  {
    var db := Step(w, ev).db;
    StepGrows(w, ev);
    forall r | r in db.runs && db.runs[r].snapshot.Some? ensures Pinned(db, r) {
      StepKeepsPinStored(w, ev, r);
    }
  }

  lemma EventKeepsConsistent(w: World, ev: Event)
    requires Consistent(w.db) && ProperEvent(w, ev)
    ensures Consistent(Step(w, ev).db)
  {
    match ev
    case Ledger(op) => StepKeepsConsistent(w.db, op);
    case Read(_, _, _, _) =>
    case Swap(actor) =>
      if actor in w.pending {
        var t := w.pending[actor];
        TransitionKeepsConsistent(w.db, t.run, t.to, t.pin, Some(t.from));
      }
  }

  ghost predicate WorldOk(w: World) {
    PendingOk(w) && PinsOk(w.db) && PinsStored(w.db) && Consistent(w.db)
  }

  lemma StepKeepsWorldOk(w: World, ev: Event)
    requires WorldOk(w) && ProperEvent(w, ev)
    ensures WorldOk(Step(w, ev))
  {
    StepKeepsPending(w, ev);
    StepKeepsPins(w, ev);
    StepKeepsPinsStored(w, ev);
    EventKeepsConsistent(w, ev);
  }

  lemma {:induction false} TraceInvariants(evs: seq<Event>)
    requires ProperTrace(evs)
    ensures WorldOk(After(evs))
  {
    if |evs| != 0 {
      ProperPrefix(evs);
      TraceInvariants(evs[..|evs| - 1]);
      StepKeepsWorldOk(After(evs[..|evs| - 1]), evs[|evs| - 1]);
    }
  }

  // ----- the pin of a pass

  ghost predicate InPass(db: Db, r: string) {
    r in db.runs && Rank(SelectingFrontier) <= Rank(db.runs[r].status) <= Rank(RunCompleted)
  }

  /** The event moves run r to SELECTING_FRONTIER and pins this version. */
  ghost predicate PinsRun(w: World, ev: Event, r: string, version: nat) {
    && ev.Swap? && ev.actor in w.pending && w.pending[ev.actor] == Pending(r, LoadingState, SelectingFrontier, Some(version))
    && r in w.db.runs && w.db.runs[r].status == LoadingState
  }

  /** The run's present pin was set at event k, when it was moved to SELECTING_FRONTIER; ever since it has been on its way
      from there to COMPLETED, in particular not QUEUED, with that pin. */
  ghost predicate PinnedSince(evs: seq<Event>, r: string, k: nat) {
    && k < |evs| && InPass(After(evs).db, r) && After(evs).db.runs[r].snapshot.Some?
    && PinsRun(After(evs[..k]), evs[k], r, After(evs).db.runs[r].snapshot.value)
    && forall j :: k < j <= |evs| ==>
         InPass(After(evs[..j]).db, r) && After(evs[..j]).db.runs[r].snapshot == After(evs).db.runs[r].snapshot
  }

  lemma PassKeepsPin(w: World, ev: Event, r: string)
    requires PendingOk(w) && ProperEvent(w, ev) && InPass(w.db, r) && InPass(Step(w, ev).db, r)
    ensures Step(w, ev).db.runs[r].snapshot == w.db.runs[r].snapshot
  {
    match ev
    case Ledger(op) => ApplyMoves(w.db, op, r);
    case Read(_, _, _, _) =>
    case Swap(actor) =>
  }

  lemma LedgerBeginsNoPass(db: Db, op: Op, r: string)
    requires !op.Transition? && !InPass(db, r)
    ensures !InPass(Apply(db, op).0, r)
  {
    ApplyMoves(db, op, r);
  }

  lemma SwapBeginsWithPin(w: World, actor: string, r: string)
    requires PendingOk(w) && !InPass(w.db, r) && InPass(Step(w, Swap(actor)).db, r)
    ensures var db := Step(w, Swap(actor)).db;
      db.runs[r].snapshot.Some? && PinsRun(w, Swap(actor), r, db.runs[r].snapshot.value)
  {
  }

  lemma PassBeginsWithPin(w: World, ev: Event, r: string)
    requires PendingOk(w) && ProperEvent(w, ev) && !InPass(w.db, r) && InPass(Step(w, ev).db, r)
    ensures Step(w, ev).db.runs[r].snapshot.Some? && PinsRun(w, ev, r, Step(w, ev).db.runs[r].snapshot.value)
  {
    if ev.Ledger? {
      LedgerBeginsNoPass(w.db, ev.op, r);
    } else if ev.Swap? {
      SwapBeginsWithPin(w, ev.actor, r);
    }
  }

  lemma PinnedSinceExtends(init: seq<Event>, ev: Event, r: string, k: nat)
    requires PinnedSince(init, r, k) && InPass(After(init + [ev]).db, r)
    requires After(init + [ev]).db.runs[r].snapshot == After(init).db.runs[r].snapshot
    ensures PinnedSince(init + [ev], r, k)
  {
    var evs := init + [ev];
    assert evs[..k] == init[..k] && evs[k] == init[k];
    forall j | k < j <= |evs|
      ensures InPass(After(evs[..j]).db, r) && After(evs[..j]).db.runs[r].snapshot == After(evs).db.runs[r].snapshot
    {
      if j < |evs| { assert evs[..j] == init[..j]; } else { assert evs[..j] == evs; }
    }
  }

  lemma PinnedSinceBegins(evs: seq<Event>, r: string)
    requires |evs| > 0 && InPass(After(evs).db, r) && After(evs).db.runs[r].snapshot.Some?
    requires PinsRun(After(evs[..|evs| - 1]), evs[|evs| - 1], r, After(evs).db.runs[r].snapshot.value)
    ensures PinnedSince(evs, r, |evs| - 1)
  {
    forall j | |evs| - 1 < j <= |evs|
      ensures InPass(After(evs[..j]).db, r) && After(evs[..j]).db.runs[r].snapshot == After(evs).db.runs[r].snapshot
    {
      assert evs[..j] == evs;
    }
  }

  /** A run between SELECTING_FRONTIER and COMPLETED works on the version pinned by this very pass. */
  lemma {:induction false} PinIsOfThisPass(evs: seq<Event>, r: string)
    requires ProperTrace(evs) && InPass(After(evs).db, r)
    ensures exists k: nat :: PinnedSince(evs, r, k)
  {
    if |evs| != 0 {
      var init, ev := evs[..|evs| - 1], evs[|evs| - 1];
      assert init + [ev] == evs;
      ProperPrefix(evs);
      TraceInvariants(init);
      if InPass(After(init).db, r) {
        PinIsOfThisPass(init, r);
        PassKeepsPin(After(init), ev, r);
        var k: nat :| PinnedSince(init, r, k);
        PinnedSinceExtends(init, ev, r, k);
      } else {
        PassBeginsWithPin(After(init), ev, r);
        PinnedSinceBegins(evs, r);
      }
    }
  }

  // ----- status histories

  /** The statuses a run has had, in order, repetitions dropped. */
  ghost function History(evs: seq<Event>, r: string): seq<RunStatus> {
    if |evs| == 0 then [] else
      var init := evs[..|evs| - 1];
      Recorded(History(init, r), After(init).db, After(evs).db, r)
  }

  /** The part of a history since the run was last QUEUED. */
  ghost function SinceQueued(h: seq<RunStatus>): seq<RunStatus> {
    if |h| == 0 then []
    else if h[|h| - 1] == RunQueued then [RunQueued]
    else SinceQueued(h[..|h| - 1]) + [h[|h| - 1]]
  }

  const MAIN_PATH := [RunQueued, LoadingState, SelectingFrontier, Planning, AttackingCurrentBest, GeneratingChallengers,
                      CodexExecuting, Normalizing, Adjudicating, Persisting, Summarizing, RunCompleted]
  const RETIRING_PATH := [RunQueued, LoadingState, SelectingFrontier, Planning, AttackingCurrentBest, GeneratingChallengers,
                          CodexExecuting, Normalizing, Adjudicating, RetiringWeakHypotheses, Persisting, Summarizing, RunCompleted]

  predicate Ended(s: RunStatus) {
    s == Failed || s == RunCompleted || s == DeadLetter
  }

  /** The transition table: one stage follows another, retirement may be skipped, every stage that reads a snapshot or handles a
      proposal may fail, and a failed run is requeued or dead-lettered. */
  lemma TableIs(a: RunStatus, b: RunStatus)
    ensures b in Next(a) <==>
      || (!Ended(a) && b != Failed && b != DeadLetter && (Rank(b) == Rank(a) + 1 || (a == Adjudicating && b == Persisting)))
      || (b == Failed && !Ended(a) && a !in {RunQueued, Planning, AttackingCurrentBest, GeneratingChallengers, Summarizing})
      || (a == Failed && (b == RunQueued || b == DeadLetter))
  {
  }

  ghost predicate OnPath(p: seq<RunStatus>) {
    && |p| > 0
    && (p <= MAIN_PATH || p <= RETIRING_PATH || p[|p| - 1] == Failed || p[|p| - 1] == DeadLetter)
    && forall i, j :: 0 <= i < j < |p| ==> Rank(p[i]) < Rank(p[j])
  }

  lemma OnPathStep(p: seq<RunStatus>, b: RunStatus)
    requires OnPath(p) && b != RunQueued && b != p[|p| - 1] && LegalPair(p[|p| - 1], b)
    ensures OnPath(p + [b])
  {
    assert Rank(p[|p| - 1]) < Rank(b);
    if b != Failed && b != DeadLetter {
      if p <= MAIN_PATH {
        MainStep(p, b);
      } else {
        if |p| <= 9 { SharedPrefix(p); }
        RetiringStep(p, b);
      }
    }
  }

  lemma MainStep(p: seq<RunStatus>, b: RunStatus)
    requires 0 < |p| && p <= MAIN_PATH && b in Next(p[|p| - 1]) && b != Failed && b != DeadLetter
    ensures p + [b] <= MAIN_PATH || p + [b] <= RETIRING_PATH
  {
    var n := |p|;
    assert p[n - 1] == MAIN_PATH[n - 1];
    assert p == MAIN_PATH[..n];
    if b == RetiringWeakHypotheses {
      assert n == 9;
      assert p + [b] == RETIRING_PATH[..10];
    } else {
      assert b == MAIN_PATH[n];
      assert p + [b] == MAIN_PATH[..n + 1];
    }
  }

  lemma SharedPrefix(p: seq<RunStatus>)
    requires p <= RETIRING_PATH && |p| <= 9
    ensures p <= MAIN_PATH
  {
    forall k | 0 <= k < |p| ensures p[k] == MAIN_PATH[k] {
      assert p[k] == RETIRING_PATH[k];
    }
  }

  lemma RetiringStep(p: seq<RunStatus>, b: RunStatus)
    requires 9 < |p| && p <= RETIRING_PATH && b in Next(p[|p| - 1]) && b != Failed && b != DeadLetter
    ensures p + [b] <= RETIRING_PATH
  {
    var n := |p|;
    assert p == RETIRING_PATH[..n];
    assert p[n - 1] == RETIRING_PATH[n - 1];
    assert b == RETIRING_PATH[n];
    assert p + [b] == RETIRING_PATH[..n + 1];
  }

  /** A history is recorded from QUEUED on, and its last entry is the current status. */
  ghost predicate Tracks(h: seq<RunStatus>, db: Db, r: string) {
    if r in db.runs then |h| > 0 && h[0] == RunQueued && h[|h| - 1] == db.runs[r].status else h == []
  }

  ghost function Recorded(h: seq<RunStatus>, before: Db, after: Db, r: string): seq<RunStatus> {
    if r in after.runs && (r !in before.runs || before.runs[r].status != after.runs[r].status)
    then h + [after.runs[r].status] else h
  }

  lemma TracksStep(h: seq<RunStatus>, before: Db, after: Db, r: string)
    requires Tracks(h, before, r)
    requires r in before.runs ==> r in after.runs
    requires r !in before.runs && r in after.runs ==> after.runs[r].status == RunQueued
    ensures Tracks(Recorded(h, before, after, r), after, r)
  {
  }

  lemma {:induction false} HistoryTracksStatus(evs: seq<Event>, r: string)
    requires ProperTrace(evs)
    ensures Tracks(History(evs, r), After(evs).db, r)
  {
    if |evs| != 0 {
      var init, ev := evs[..|evs| - 1], evs[|evs| - 1];
      ProperPrefix(evs);
      HistoryTracksStatus(init, r);
      TraceInvariants(init);
      StepMoves(After(init), ev, r);
      TracksStep(History(init, r), After(init).db, After(evs).db, r);
    }
  }

  /** Only transition-table edges, jumps to DEAD_LETTER and returns to QUEUED. */
  ghost predicate LegalHistory(h: seq<RunStatus>) {
    && (forall k :: 0 <= k < |h| - 1 ==> LegalPair(h[k], h[k + 1]) && h[k] != h[k + 1])
    && (|h| > 0 ==> OnPath(SinceQueued(h)) && SinceQueued(h)[|SinceQueued(h)| - 1] == h[|h| - 1])
  }

  lemma LegalFirst()
    ensures LegalHistory([RunQueued])
  {
    assert [RunQueued] == MAIN_PATH[..1];
  }

  lemma LegalHistoryStep(h: seq<RunStatus>, b: RunStatus)
    requires |h| > 0 && LegalHistory(h) && LegalPair(h[|h| - 1], b) && b != h[|h| - 1]
    ensures LegalHistory(h + [b])
  {
    var g := h + [b];
    assert g[..|g| - 1] == h;
    forall k | 0 <= k < |g| - 1 ensures LegalPair(g[k], g[k + 1]) && g[k] != g[k + 1] {}
    if b == RunQueued { LegalFirst(); } else { OnPathStep(SinceQueued(h), b); }
  }

  lemma RecordedStays(h: seq<RunStatus>, before: Db, after: Db, r: string)
    requires LegalHistory(h) && Tracks(h, before, r) && Tracks(Recorded(h, before, after, r), after, r)
    requires r in before.runs && r in after.runs && after.runs[r].status != before.runs[r].status ==>
      LegalPair(before.runs[r].status, after.runs[r].status)
    ensures LegalHistory(Recorded(h, before, after, r))
  {
    var g := Recorded(h, before, after, r);
    if g != h {
      var b := after.runs[r].status;
      if h == [] { LegalFirst(); } else { LegalHistoryStep(h, b); }
    }
  }

  /** Every status history is made of transition-table edges, jumps to DEAD_LETTER and returns to QUEUED only; since its
      last QUEUED a run follows one of the two paths up to a failure, with ever greater rank. */
  lemma {:induction false} HistoryIsLegal(evs: seq<Event>, r: string)
    requires ProperTrace(evs)
    ensures LegalHistory(History(evs, r)) && Tracks(History(evs, r), After(evs).db, r)
  {
    HistoryTracksStatus(evs, r);
    if |evs| != 0 {
      var init, ev := evs[..|evs| - 1], evs[|evs| - 1];
      ProperPrefix(evs);
      HistoryIsLegal(init, r);
      TraceInvariants(init);
      StepMoves(After(init), ev, r);
      RecordedStays(History(init, r), After(init).db, After(evs).db, r);
    }
  }

  lemma CompletedPath(p: seq<RunStatus>)
    requires OnPath(p) && p[|p| - 1] == RunCompleted
    ensures p == MAIN_PATH || p == RETIRING_PATH
  {
    var n := |p|;
    if p <= MAIN_PATH {
      assert p[n - 1] == MAIN_PATH[n - 1];
      assert n == 12;
    } else {
      assert p[n - 1] == RETIRING_PATH[n - 1];
      assert n == 13;
    }
  }

  lemma CompletedHistory(evs: seq<Event>, r: string)
    requires ProperTrace(evs) && r in After(evs).db.runs && After(evs).db.runs[r].status == RunCompleted
    ensures SinceQueued(History(evs, r)) == MAIN_PATH || SinceQueued(History(evs, r)) == RETIRING_PATH
  {
    HistoryIsLegal(evs, r);
    CompletedPath(SinceQueued(History(evs, r)));
  }

  /** A COMPLETED run has, since it was last QUEUED, passed in order every stage of one of the two paths, on a stored snapshot
      version that was pinned when it was moved to SELECTING_FRONTIER on that way. */
  lemma CompletedRunsTookAPath(evs: seq<Event>, r: string)
    requires ProperTrace(evs) && r in After(evs).db.runs && After(evs).db.runs[r].status == RunCompleted
    ensures SinceQueued(History(evs, r)) == MAIN_PATH || SinceQueued(History(evs, r)) == RETIRING_PATH
    ensures Pinned(After(evs).db, r) && exists k: nat :: PinnedSince(evs, r, k)
  {
    PinIsOfThisPass(evs, r);
    CompletedHistory(evs, r);
    TraceInvariants(evs);
  }

  lemma {:induction false} RankBoundsLength(p: seq<RunStatus>)
    requires forall i, j :: 0 <= i < j < |p| ==> Rank(p[i]) < Rank(p[j])
    ensures |p| > 0 ==> Rank(p[|p| - 1]) >= |p| - 1
  {
    if |p| > 1 {
      RankBoundsLength(p[..|p| - 1]);
      assert Rank(p[|p| - 2]) < Rank(p[|p| - 1]);
    }
  }

  lemma PathIsShort(p: seq<RunStatus>)
    requires OnPath(p)
    ensures |p| <= 15
  {
    RankBoundsLength(p);
  }

  /** Between two requeues a run changes status at most 14 times. */
  lemma StepsBetweenRequeuesAreBounded(evs: seq<Event>, r: string)
    requires ProperTrace(evs) && r in After(evs).db.runs
    ensures |SinceQueued(History(evs, r))| <= 15
  {
    HistoryIsLegal(evs, r);
    PathIsShort(SinceQueued(History(evs, r)));
  }
}
