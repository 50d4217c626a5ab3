/** What every history of lease operations keeps: exclusion, disjoint grants, harmless late releases and the count. */
module LeaseHistory {
  import opened Prelude
  import opened LedgerModel
  import opened SessionLeases

  /** The tables after one operation, and the lease it granted. */
  function Step(db: Sessions, op: LeaseOp): (Sessions, Option<Lease>) {
    match op
    case Register(s) => (if s in db.counts then db else db.(counts := db.counts[s := 0]), None)
    case Acquire(s, holder, ttl, id, now) => AcquireStep(db, s, holder, ttl, id, now)
    case Release(s, id) => (ReleaseStep(db, s, id).0, None)
    case Purge(now) => (PurgeStep(db, now).0, None)
  }

  function Table(ops: seq<LeaseOp>): Sessions {
    if |ops| == 0 then Sessions(map[], map[]) else Step(Table(ops[..|ops| - 1]), ops[|ops| - 1]).0
  }

  // ----- one operation, read off the tables

  /** The id asked for, or the one made of session, holder and the whole seconds of the clock, towards zero. */
  ghost predicate Identifies(id: LeaseId, session: string, holder: string, asked: Option<LeaseId>, now: int) {
    match asked
    case Some(chosen) => id == chosen
    case None => exists second ::
      && id == Derived(session, holder, second)
      && (now >= 0 ==> second * 1_000_000 <= now < (second + 1) * 1_000_000)
      && (now < 0 ==> (second - 1) * 1_000_000 < now <= second * 1_000_000)
  }

  lemma WholeSecondsTruncate(now: int)
    ensures now >= 0 ==> WholeSeconds(now) * 1_000_000 <= now < (WholeSeconds(now) + 1) * 1_000_000
    ensures now < 0 ==> (WholeSeconds(now) - 1) * 1_000_000 < now <= WholeSeconds(now) * 1_000_000
  {
  }

  /** A session can be leased when it is registered and free, which a lease past its expiry leaves it, under an id no other
      session's lease has. */
  ghost predicate CanLease(db: Sessions, session: string, id: LeaseId, now: int) {
    && session in db.counts && (session in db.leases ==> db.leases[session].expiresAt < now)
    && forall other :: other in db.leases && other != session ==> db.leases[other].id != id
  }

  /** What an acquisition grants and leaves. */
  lemma AcquireMeans(db: Sessions, session: string, holder: string, ttl: int, asked: Option<LeaseId>, now: int)
    ensures var (after, granted) := AcquireStep(db, session, holder, ttl, asked, now);
      && (granted.Some? ==>
           && Identifies(granted.value.id, session, holder, asked, now) && CanLease(db, session, granted.value.id, now)
           && granted.value == Lease(granted.value.id, holder, now, now + ttl * 1_000_000)
           && after == Sessions(db.leases[session := granted.value], db.counts[session := db.counts[session] + 1]))
      && (granted == None ==> after == db && forall id :: Identifies(id, session, holder, asked, now) ==> !CanLease(db, session, id, now))
  {
    WholeSecondsTruncate(now);
    var id := NewLease(session, holder, ttl, asked, now).id;
    assert Identifies(id, session, holder, asked, now);
    OneIdentity(session, holder, asked, now, id);
    var kept := if Expired(db.leases, session, now) then db.leases - {session} else db.leases;
    KeptIds(db, session, id, kept);
    assert db.leases[session := NewLease(session, holder, ttl, asked, now)] == kept[session := NewLease(session, holder, ttl, asked, now)];
  }

  lemma KeptIds(db: Sessions, session: string, id: LeaseId, kept: map<string, Lease>)
    requires kept == db.leases || kept == db.leases - {session}
    ensures session !in kept ==>
      (IdTaken(kept, id) <==> exists other :: other in db.leases && other != session && db.leases[other].id == id)
  {
    if other :| other in db.leases && other != session && db.leases[other].id == id { assert other in kept && kept[other].id == id; }
  }

  lemma OneIdentity(session: string, holder: string, asked: Option<LeaseId>, now: int, id: LeaseId)
    requires Identifies(id, session, holder, asked, now)
    ensures forall other :: Identifies(other, session, holder, asked, now) ==> other == id
  {
  }

  /** The session's count is one less, but not negative, and every other count is as before. */
  ghost predicate CountedDown(before: map<string, nat>, after: map<string, nat>, session: string) {
    && after.Keys == before.Keys && (forall s :: s in before && s != session ==> after[s] == before[s])
    && (session in before ==> after[session] == if before[session] == 0 then 0 else before[session] - 1)
  }

  /** Releasing removes the session's lease if it is the one named, or if none is named, and counts one less. */
  lemma ReleaseMeans(db: Sessions, session: string, named: Option<LeaseId>)
    ensures var (after, released) := ReleaseStep(db, session, named);
      && (released <==> session in db.leases && forall id :: named == Some(id) ==> db.leases[session].id == id)
      && (!released ==> after == db)
      && (released ==> after.leases == db.leases - {session} && CountedDown(db.counts, after.counts, session))
  {
  }

  /** Purging removes exactly the leases past their expiry, each counted one less on its session, and says how many. */
  lemma PurgeMeans(db: Sessions, now: int)
    ensures var (after, removed) := PurgeStep(db, now);
      && (forall s :: s in after.leases <==> s in db.leases && db.leases[s].expiresAt >= now)
      && (forall s :: s in after.leases ==> after.leases[s] == db.leases[s])
      && removed == |set s | s in db.leases && db.leases[s].expiresAt < now|
      && after.counts.Keys == db.counts.Keys
      && forall s :: s in db.counts ==>
           after.counts[s] == if s in db.leases && db.leases[s].expiresAt < now && db.counts[s] > 0 then db.counts[s] - 1 else db.counts[s]
  {
  }

  // ----- the count

  /** Whether the operation reclaims an expired lease of s while granting the next. */
  function Reclaim(db: Sessions, op: LeaseOp, s: string): nat {
    if op.Acquire? && op.session == s && Expired(db.leases, s, op.now) && Step(db, op).1.Some? then 1 else 0
  }

  function Reclaims(ops: seq<LeaseOp>, s: string): nat {
    if |ops| == 0 then 0 else
      var init := ops[..|ops| - 1];
      Reclaims(init, s) + Reclaim(Table(init), ops[|ops| - 1], s)
  }

  function Live(db: Sessions, s: string): nat {
    if s in db.leases then 1 else 0
  }

  /** The count is read as zero for a session that is not registered. */
  function Count(db: Sessions, s: string): nat {
    if s in db.counts then db.counts[s] else 0
  }

  lemma CountStep(db: Sessions, op: LeaseOp, s: string, reclaimed: nat)
    requires Count(db, s) == Live(db, s) + reclaimed && (s in db.leases ==> s in db.counts)
    ensures Count(Step(db, op).0, s) == Live(Step(db, op).0, s) + reclaimed + Reclaim(db, op, s)
    ensures s in Step(db, op).0.leases ==> s in Step(db, op).0.counts
  {
  }

  /** In every history, with any clocks, the lease count of a session is its live leases plus the leases reclaimed while
      acquiring; so a lease that is removed was counted, and the floor at zero is never reached from zero. */
  lemma {:induction false} CountIsLivePlusReclaimed(ops: seq<LeaseOp>, s: string)
    ensures Count(Table(ops), s) == Live(Table(ops), s) + Reclaims(ops, s)
    ensures s in Table(ops).leases ==> s in Table(ops).counts && Table(ops).counts[s] > 0
  {
    if |ops| != 0 {
      CountIsLivePlusReclaimed(ops[..|ops| - 1], s);
      CountStep(Table(ops[..|ops| - 1]), ops[|ops| - 1], s, Reclaims(ops[..|ops| - 1], s));
    }
  }

  // ----- disjoint grants

  /** The leases granted on s and never explicitly released, oldest first; a release ends the newest of them. */
  function Unreleased(ops: seq<LeaseOp>, s: string): seq<Lease> {
    if |ops| == 0 then [] else
      var init, op := ops[..|ops| - 1], ops[|ops| - 1];
      UnreleasedStep(Unreleased(init, s), Table(init), op, s)
  }

  function UnreleasedStep(u: seq<Lease>, db: Sessions, op: LeaseOp, s: string): seq<Lease> {
    match op
    case Acquire(t, _, _, _, _) =>
      var granted := Step(db, op).1;
      if t == s && granted.Some? then u + [granted.value] else u
    case Release(t, id) => if t == s && Releases(db, s, id) && |u| > 0 then u[..|u| - 1] else u
    case _ => u
  }

  /** The clock an operation reads that matters to session s. */
  function ClockFor(op: LeaseOp, s: string): Option<int> {
    match op
    case Acquire(t, _, _, _, now) => if t == s then Some(now) else None
    case Purge(now) => Some(now)
    case _ => None
  }

  predicate AcquiresOn(op: LeaseOp, s: string) {
    op.Acquire? && op.session == s
  }

  /** The clocks of the session's acquisitions never run backwards, and its leases last at least no time. */
  ghost predicate InOrder(ops: seq<LeaseOp>, s: string) {
    && (forall i, j :: 0 <= i < j < |ops| && AcquiresOn(ops[i], s) && AcquiresOn(ops[j], s) ==> ops[i].now <= ops[j].now)
    && (forall i :: 0 <= i < |ops| && AcquiresOn(ops[i], s) ==> ops[i].ttlSeconds >= 0)
  }

  predicate Grants(db: Sessions, op: LeaseOp, s: string) {
    AcquiresOn(op, s) && Step(db, op).1.Some?
  }

  /** The lease a purge removed from s, while nothing has been granted on s since. */
  function Purged(ops: seq<LeaseOp>, s: string): Option<Lease> {
    if |ops| == 0 then None else
      var init, op := ops[..|ops| - 1], ops[|ops| - 1];
      PurgedStep(Purged(init, s), Table(init), op, s)
  }

  function PurgedStep(l: Option<Lease>, db: Sessions, op: LeaseOp, s: string): Option<Lease> {
    match op
    case Purge(now) => if Expired(db.leases, s, now) then Some(db.leases[s]) else l
    case Acquire(_, _, _, _, _) => if Grants(db, op, s) then None else l
    case _ => l
  }

  /** If the operation grants the next lease after a purge that removed one, its clock is past that lease's expiry. */
  ghost predicate ClearsPurged(ops: seq<LeaseOp>, op: LeaseOp, s: string) {
    Grants(Table(ops), op, s) && Purged(ops, s).Some? ==> Purged(ops, s).value.expiresAt < op.now
  }

  ghost predicate GrantsClearPurged(ops: seq<LeaseOp>, s: string) {
    forall k :: 0 <= k < |ops| ==> ClearsPurged(ops[..k], ops[k], s)
  }

  ghost predicate Overlap(a: Lease, b: Lease) {
    a.leasedAt <= b.expiresAt && b.leasedAt <= a.expiresAt
  }

  ghost predicate Disjoint(u: seq<Lease>) {
    forall i, j :: 0 <= i < j < |u| ==> !Overlap(u[i], u[j])
  }

  ghost predicate Ordered(u: seq<Lease>) {
    forall i, j :: 0 <= i < j < |u| ==> u[i].expiresAt < u[j].leasedAt
  }

  // what holds with any purge clocks

  /** Some acquisition of the session read this clock, or a later one. */
  ghost predicate ReachedBy(t: int, ops: seq<LeaseOp>, s: string) {
    exists k :: 0 <= k < |ops| && AcquiresOn(ops[k], s) && t <= ops[k].now
  }

  lemma ReachedStays(t: int, ops: seq<LeaseOp>, op: LeaseOp, s: string)
    requires ReachedBy(t, ops, s) || (AcquiresOn(op, s) && t <= op.now)
    ensures ReachedBy(t, ops + [op], s)
  {
    if ReachedBy(t, ops, s) {
      var k :| 0 <= k < |ops| && AcquiresOn(ops[k], s) && t <= ops[k].now;
      assert (ops + [op])[k] == ops[k];
    } else {
      assert (ops + [op])[|ops|] == op;
    }
  }

  lemma ReachedBefore(t: int, ops: seq<LeaseOp>, op: LeaseOp, s: string)
    requires ReachedBy(t, ops, s) && InOrder(ops + [op], s) && AcquiresOn(op, s)
    ensures t <= op.now
  {
    var k :| 0 <= k < |ops| && AcquiresOn(ops[k], s) && t <= ops[k].now;
    assert (ops + [op])[k] == ops[k] && (ops + [op])[|ops|] == op;
  }

  /** The newest unreleased lease is the live one, or the one a purge removed last. */
  ghost predicate Lined(u: seq<Lease>, db: Sessions, purged: Option<Lease>, s: string) {
    && (s in db.leases ==> |u| > 0 && u[|u| - 1] == db.leases[s])
    && (purged.Some? ==> s !in db.leases && |u| > 0 && u[|u| - 1] == purged.value)
  }

  ghost predicate Begun(u: seq<Lease>, ops: seq<LeaseOp>, s: string) {
    forall i :: 0 <= i < |u| ==> u[i].leasedAt <= u[i].expiresAt && ReachedBy(u[i].leasedAt, ops, s)
  }

  lemma LinedStep(ops: seq<LeaseOp>, op: LeaseOp, s: string)
    requires Lined(Unreleased(ops, s), Table(ops), Purged(ops, s), s)
    ensures Lined(UnreleasedStep(Unreleased(ops, s), Table(ops), op, s), Step(Table(ops), op).0,
                  PurgedStep(Purged(ops, s), Table(ops), op, s), s)
  {
  }

  lemma GrantedStep(ops: seq<LeaseOp>, op: LeaseOp, s: string)
    requires InOrder(ops + [op], s) && Begun(Unreleased(ops, s), ops, s)
    ensures Begun(UnreleasedStep(Unreleased(ops, s), Table(ops), op, s), ops + [op], s)
  {
    var v := UnreleasedStep(Unreleased(ops, s), Table(ops), op, s);
    assert (ops + [op])[|ops|] == op;
    forall i | 0 <= i < |v| ensures v[i].leasedAt <= v[i].expiresAt && ReachedBy(v[i].leasedAt, ops + [op], s) {
      ReachedStays(v[i].leasedAt, ops, op, s);
    }
  }

  lemma InOrderPrefix(ops: seq<LeaseOp>, n: nat, s: string)
    requires n <= |ops| && InOrder(ops, s)
    ensures InOrder(ops[..n], s)
  {
    forall i | 0 <= i < n ensures ops[..n][i] == ops[i] {}
  }

  lemma {:induction false} UnreleasedFacts(ops: seq<LeaseOp>, s: string)
    requires InOrder(ops, s)
    ensures Lined(Unreleased(ops, s), Table(ops), Purged(ops, s), s) && Begun(Unreleased(ops, s), ops, s)
  {
    if |ops| != 0 {
      var init, op := ops[..|ops| - 1], ops[|ops| - 1];
      assert init + [op] == ops;
      InOrderPrefix(ops, |init|, s);
      UnreleasedFacts(init, s);
      LinedStep(init, op, s);
      GrantedStep(init, op, s);
    }
  }

  // disjointness from clearing what was purged

  /** All but the newest lease, if that is live or was purged, expired before some acquisition's clock. */
  ghost predicate Overtaken(u: seq<Lease>, db: Sessions, purged: Option<Lease>, ops: seq<LeaseOp>, s: string) {
    forall i :: 0 <= i < (if s in db.leases || purged.Some? then |u| - 1 else |u|) ==> ReachedBy(u[i].expiresAt + 1, ops, s)
  }

  /** Everything unreleased has expired before a new lease is granted. */
  lemma ExpiredBeforeGrant(ops: seq<LeaseOp>, op: LeaseOp, s: string, i: nat)
    requires InOrder(ops + [op], s) && Grants(Table(ops), op, s) && ClearsPurged(ops, op, s)
    requires Lined(Unreleased(ops, s), Table(ops), Purged(ops, s), s)
    requires Overtaken(Unreleased(ops, s), Table(ops), Purged(ops, s), ops, s) && i < |Unreleased(ops, s)|
    ensures Unreleased(ops, s)[i].expiresAt < op.now
  {
    var u := Unreleased(ops, s);
    if i < |u| - 1 || (s !in Table(ops).leases && Purged(ops, s).None?) {
      ReachedBefore(u[i].expiresAt + 1, ops, op, s);
    }
  }

  lemma OvertakenStep(ops: seq<LeaseOp>, op: LeaseOp, s: string)
    requires InOrder(ops + [op], s) && ClearsPurged(ops, op, s)
    requires Lined(Unreleased(ops, s), Table(ops), Purged(ops, s), s)
    requires Overtaken(Unreleased(ops, s), Table(ops), Purged(ops, s), ops, s)
    ensures Overtaken(UnreleasedStep(Unreleased(ops, s), Table(ops), op, s), Step(Table(ops), op).0,
                      PurgedStep(Purged(ops, s), Table(ops), op, s), ops + [op], s)
  {
    var u, db := Unreleased(ops, s), Table(ops);
    var v, after, purged := UnreleasedStep(u, db, op, s), Step(db, op).0, PurgedStep(Purged(ops, s), db, op, s);
    forall i | 0 <= i < (if s in after.leases || purged.Some? then |v| - 1 else |v|)
      ensures ReachedBy(v[i].expiresAt + 1, ops + [op], s)
    {
      if Grants(db, op, s) { ExpiredBeforeGrant(ops, op, s, i); }
      ReachedStays(v[i].expiresAt + 1, ops, op, s);
    }
  }

  lemma OrderedStep(ops: seq<LeaseOp>, op: LeaseOp, s: string)
    requires InOrder(ops + [op], s) && ClearsPurged(ops, op, s)
    requires Lined(Unreleased(ops, s), Table(ops), Purged(ops, s), s)
    requires Overtaken(Unreleased(ops, s), Table(ops), Purged(ops, s), ops, s) && Ordered(Unreleased(ops, s))
    ensures Ordered(UnreleasedStep(Unreleased(ops, s), Table(ops), op, s))
  {
    var u := Unreleased(ops, s);
    if Grants(Table(ops), op, s) {
      forall i | 0 <= i < |u| ensures u[i].expiresAt < op.now {
        ExpiredBeforeGrant(ops, op, s, i);
      }
    }
  }

  lemma ClearsPrefix(ops: seq<LeaseOp>, n: nat, s: string)
    requires n <= |ops| && GrantsClearPurged(ops, s)
    ensures GrantsClearPurged(ops[..n], s)
  {
    forall k | 0 <= k < n ensures ClearsPurged(ops[..n][..k], ops[..n][k], s) {
      assert ops[..n][..k] == ops[..k] && ops[..n][k] == ops[k];
    }
  }

  lemma {:induction false} ClearedGrantsAreOrdered(ops: seq<LeaseOp>, s: string)
    requires InOrder(ops, s) && GrantsClearPurged(ops, s)
    ensures Ordered(Unreleased(ops, s)) && Overtaken(Unreleased(ops, s), Table(ops), Purged(ops, s), ops, s)
  {
    if |ops| != 0 {
      var init, op := ops[..|ops| - 1], ops[|ops| - 1];
      assert init + [op] == ops;
      InOrderPrefix(ops, |init|, s);
      ClearsPrefix(ops, |init|, s);
      ClearedGrantsAreOrdered(init, s);
      UnreleasedFacts(init, s);
      OvertakenStep(init, op, s);
      OrderedStep(init, op, s);
    }
  }

  /** A grant that does not clear what was purged overlaps it. */
  lemma UnclearedGrantOverlaps(ops: seq<LeaseOp>, op: LeaseOp, s: string)
    requires InOrder(ops + [op], s) && !ClearsPurged(ops, op, s)
    ensures !Disjoint(Unreleased(ops + [op], s))
  {
    assert (ops + [op])[..|ops|] == ops && (ops + [op])[|ops|] == op;
    InOrderPrefix(ops + [op], |ops|, s);
    UnreleasedFacts(ops, s);
    var u, v := Unreleased(ops, s), Unreleased(ops + [op], s);
    ReachedBefore(u[|u| - 1].leasedAt, ops, op, s);
    assert v == u + [Step(Table(ops), op).1.value];
    assert Overlap(v[|u| - 1], v[|u|]);
  }

  lemma ClearedIsDisjoint(ops: seq<LeaseOp>, s: string, n: nat)
    requires InOrder(ops, s) && GrantsClearPurged(ops, s) && n <= |ops|
    ensures Disjoint(Unreleased(ops[..n], s))
  {
    InOrderPrefix(ops, n, s);
    ClearsPrefix(ops, n, s);
    ClearedGrantsAreOrdered(ops[..n], s);
    UnreleasedFacts(ops[..n], s);
  }

  lemma UnclearedIsNot(ops: seq<LeaseOp>, s: string, k: nat)
    requires InOrder(ops, s) && k < |ops| && !ClearsPurged(ops[..k], ops[k], s)
    ensures !Disjoint(Unreleased(ops[..k + 1], s))
  {
    assert ops[..k] + [ops[k]] == ops[..k + 1];
    InOrderPrefix(ops, k + 1, s);
    UnclearedGrantOverlaps(ops[..k], ops[k], s);
  }

  /** With acquisition clocks in order, the unreleased leases of a session are pairwise disjoint at all times if and only if
      after every purge that removes its lease, the next grant's clock is past that lease's expiry. */
  lemma DisjointAlwaysIff(ops: seq<LeaseOp>, s: string)
    requires InOrder(ops, s)
    ensures (forall n :: 0 <= n <= |ops| ==> Disjoint(Unreleased(ops[..n], s))) <==> GrantsClearPurged(ops, s)
  {
    if GrantsClearPurged(ops, s) {
      forall n | 0 <= n <= |ops| ensures Disjoint(Unreleased(ops[..n], s)) {
        ClearedIsDisjoint(ops, s, n);
      }
    } else {
      var k :| 0 <= k < |ops| && !ClearsPurged(ops[..k], ops[k], s);
      UnclearedIsNot(ops, s, k);
    }
  }

  // with any clocks at all

  /** What the operation grants overlaps nothing that is unreleased. */
  ghost predicate GrantsApart(ops: seq<LeaseOp>, op: LeaseOp, s: string) {
    Grants(Table(ops), op, s) ==>
      forall i :: 0 <= i < |Unreleased(ops, s)| ==> !Overlap(Unreleased(ops, s)[i], Step(Table(ops), op).1.value)
  }

  lemma ApartStep(ops: seq<LeaseOp>, op: LeaseOp, s: string)
    requires Disjoint(Unreleased(ops, s))
    ensures Disjoint(Unreleased(ops + [op], s)) <==> GrantsApart(ops, op, s)
  {
    assert (ops + [op])[..|ops|] == ops && (ops + [op])[|ops|] == op;
    var u, v := Unreleased(ops, s), Unreleased(ops + [op], s);
    assert v == UnreleasedStep(u, Table(ops), op, s);
    if Grants(Table(ops), op, s) {
      assert v == u + [Step(Table(ops), op).1.value];
      if Disjoint(v) {
        forall i | 0 <= i < |u| ensures !Overlap(u[i], Step(Table(ops), op).1.value) {
          assert u[i] == v[i] && v[|u|] == Step(Table(ops), op).1.value;
        }
      }
    }
  }

  ghost predicate AllGrantsApart(ops: seq<LeaseOp>, s: string) {
    forall k :: 0 <= k < |ops| ==> GrantsApart(ops[..k], ops[k], s)
  }

  lemma {:induction false} ApartUpTo(ops: seq<LeaseOp>, s: string, n: nat)
    requires n <= |ops| && AllGrantsApart(ops, s)
    ensures Disjoint(Unreleased(ops[..n], s))
    decreases n
  {
    if n > 0 {
      ApartUpTo(ops, s, n - 1);
      assert ops[..n - 1] + [ops[n - 1]] == ops[..n];
      ApartStep(ops[..n - 1], ops[n - 1], s);
    }
  }

  lemma DisjointIsApart(ops: seq<LeaseOp>, s: string, k: nat)
    requires k < |ops| && Disjoint(Unreleased(ops[..k], s)) && Disjoint(Unreleased(ops[..k + 1], s))
    ensures GrantsApart(ops[..k], ops[k], s)
  {
    assert ops[..k] + [ops[k]] == ops[..k + 1];
    ApartStep(ops[..k], ops[k], s);
  }

  /** Without any order of clocks the unreleased leases are disjoint at all times exactly when each grant is apart from all of
      them; that it clears what was purged last is then not enough. */
  lemma DisjointAlwaysIffApart(ops: seq<LeaseOp>, s: string)
    ensures (forall n :: 0 <= n <= |ops| ==> Disjoint(Unreleased(ops[..n], s))) <==> AllGrantsApart(ops, s)
  {
    if AllGrantsApart(ops, s) {
      forall n | 0 <= n <= |ops| ensures Disjoint(Unreleased(ops[..n], s)) {
        ApartUpTo(ops, s, n);
      }
    }
    if forall n :: 0 <= n <= |ops| ==> Disjoint(Unreleased(ops[..n], s)) {
      forall k | 0 <= k < |ops| ensures GrantsApart(ops[..k], ops[k], s) {
        DisjointIsApart(ops, s, k);
      }
    }
  }

  /** Nothing is purged, but the third acquisition's clock is behind: it is granted after the second lease was released, and
      overlaps the first, which the second had reclaimed. */
  const BACKWARDS: seq<LeaseOp> := [
    Register("s"), Acquire("s", "h", 1, Some(Chosen("a")), 0), Acquire("s", "h", 1, Some(Chosen("b")), 2 * MICROS_PER_SECOND),
    Release("s", None), Acquire("s", "h", 1, Some(Chosen("c")), 0)]

  lemma BackwardsUnreleased()
    ensures Unreleased(BACKWARDS, "s") == [
      Lease(Chosen("a"), "h", 0, MICROS_PER_SECOND), Lease(Chosen("c"), "h", 0, MICROS_PER_SECOND)]
  {
    var ops := BACKWARDS;
    var a, b := Lease(Chosen("a"), "h", 0, MICROS_PER_SECOND), Lease(Chosen("b"), "h", 2 * MICROS_PER_SECOND, 3 * MICROS_PER_SECOND);
    assert ops[..4][..3] == ops[..3] && ops[..3][..2] == ops[..2] && ops[..2][..1] == ops[..1] && ops[..1][..0] == [];
    assert Table(ops[..1]) == Sessions(map[], map["s" := 0]) && Unreleased(ops[..1], "s") == [];
    assert Table(ops[..2]).leases == map["s" := a] && Unreleased(ops[..2], "s") == [a];
    assert Table(ops[..3]).leases == map["s" := b] && Unreleased(ops[..3], "s") == [a, b];
    assert Table(ops[..4]).leases == map[] && Unreleased(ops[..4], "s") == [a];
    assert "s" in Table(ops[..4]).counts && ops[..5] == ops;
  }

  lemma {:induction false} NothingPurged(ops: seq<LeaseOp>, s: string)
    requires forall k :: 0 <= k < |ops| ==> !ops[k].Purge?
    ensures Purged(ops, s) == None
  {
    if |ops| != 0 { NothingPurged(ops[..|ops| - 1], s); }
  }

  /** So the order of acquisition clocks is needed in DisjointAlwaysIff. */
  lemma OrderIsNeeded()
    ensures !InOrder(BACKWARDS, "s") && GrantsClearPurged(BACKWARDS, "s") && !Disjoint(Unreleased(BACKWARDS, "s"))
  {
    BackwardsUnreleased();
    assert Overlap(Unreleased(BACKWARDS, "s")[0], Unreleased(BACKWARDS, "s")[1]);
    assert AcquiresOn(BACKWARDS[2], "s") && AcquiresOn(BACKWARDS[4], "s");
    forall k | 0 <= k < |BACKWARDS| ensures ClearsPurged(BACKWARDS[..k], BACKWARDS[k], "s") {
      NothingPurged(BACKWARDS[..k], "s");
    }
  }

  // a condition on clocks alone

  /** Clocks that matter to s, of purges too, never run backwards, and leases last at least no time. */
  ghost predicate Timely(ops: seq<LeaseOp>, s: string) {
    && (forall i, j :: 0 <= i < j < |ops| && ClockFor(ops[i], s).Some? && ClockFor(ops[j], s).Some? ==>
          ClockFor(ops[i], s).value <= ClockFor(ops[j], s).value)
    && (forall i :: 0 <= i < |ops| && ops[i].Acquire? ==> ops[i].ttlSeconds >= 0)
  }

  ghost predicate ExpiredBySomeClock(lease: Lease, ops: seq<LeaseOp>, s: string) {
    exists k :: 0 <= k < |ops| && ClockFor(ops[k], s).Some? && lease.expiresAt < ClockFor(ops[k], s).value
  }

  lemma {:induction false} PurgedIsExpired(ops: seq<LeaseOp>, s: string)
    requires Purged(ops, s).Some?
    ensures ExpiredBySomeClock(Purged(ops, s).value, ops, s)
  {
    var init, op := ops[..|ops| - 1], ops[|ops| - 1];
    if op.Purge? && Expired(Table(init).leases, s, op.now) {
      assert ClockFor(ops[|ops| - 1], s) == Some(op.now);
    } else {
      PurgedIsExpired(init, s);
      var k :| 0 <= k < |init| && ClockFor(init[k], s).Some? && Purged(init, s).value.expiresAt < ClockFor(init[k], s).value;
      assert ops[k] == init[k];
    }
  }

  lemma TimelyGrantsClear(ops: seq<LeaseOp>, s: string)
    requires Timely(ops, s)
    ensures InOrder(ops, s) && GrantsClearPurged(ops, s)
  {
    assert forall i :: 0 <= i < |ops| && AcquiresOn(ops[i], s) ==> ClockFor(ops[i], s) == Some(ops[i].now);
    forall k | 0 <= k < |ops| ensures ClearsPurged(ops[..k], ops[k], s) {
      if Purged(ops[..k], s).Some? && AcquiresOn(ops[k], s) {
        PurgedIsExpired(ops[..k], s);
        var lease := Purged(ops[..k], s).value;
        var j :| 0 <= j < k && ClockFor(ops[..k][j], s).Some? && lease.expiresAt < ClockFor(ops[..k][j], s).value;
        assert ops[..k][j] == ops[j] && ClockFor(ops[k], s) == Some(ops[k].now);
      }
    }
  }

  /** The unreleased leases of a session never overlap, as closed intervals, as long as its clocks do not run backwards. */
  lemma UnreleasedLeasesAreDisjoint(ops: seq<LeaseOp>, s: string)
    requires Timely(ops, s)
    ensures Disjoint(Unreleased(ops, s))
  {
    TimelyGrantsClear(ops, s);
    DisjointAlwaysIff(ops, s);
    assert ops[..|ops|] == ops;
  }

  const PURGE_HOLDER := "runner"

  /** The shortest history in which a purge comes between two grants, of leases of any length. */
  function GrantPurgeGrant(t: int, ttl: nat, cutoff: int, u: int): seq<LeaseOp> {
    [Register("s"), Acquire("s", PURGE_HOLDER, ttl, Some(Chosen("a")), t), Purge(cutoff),
     Acquire("s", PURGE_HOLDER, ttl, Some(Chosen("b")), u)]
  }

  lemma GrantPurgeGrantTables(t: int, ttl: nat, cutoff: int, u: int)
    requires t + ttl * MICROS_PER_SECOND < cutoff
    ensures Unreleased(GrantPurgeGrant(t, ttl, cutoff, u), "s") ==
      [Lease(Chosen("a"), PURGE_HOLDER, t, t + ttl * MICROS_PER_SECOND),
       Lease(Chosen("b"), PURGE_HOLDER, u, u + ttl * MICROS_PER_SECOND)]
  {
    var ops := GrantPurgeGrant(t, ttl, cutoff, u);
    var lease := Lease(Chosen("a"), PURGE_HOLDER, t, t + ttl * MICROS_PER_SECOND);
    assert ops[..3][..2] == ops[..2] && ops[..2][..1] == ops[..1] && ops[..1][..0] == [];
    assert Table(ops[..1]) == Sessions(map[], map["s" := 0]);
    assert Unreleased(ops[..1], "s") == [];
    assert Unreleased(ops[..2], "s") == [lease];
    assert Table(ops[..2]).leases == map["s" := lease];
    assert Table(ops[..3]).leases == map[] && "s" in Table(ops[..3]).counts;
    assert ops[..4] == ops;
  }

  /** Clocks of purges matter, for leases of any length: when a purge is ahead, a grant between the first lease's start and its
      expiry is accepted and overlaps it. */
  lemma PurgeAheadBreaksDisjointness(t: int, ttl: nat, cutoff: int, u: int)
    requires t + ttl * MICROS_PER_SECOND < cutoff && t <= u
    ensures var v := Unreleased(GrantPurgeGrant(t, ttl, cutoff, u), "s");
      |v| == 2 && (Overlap(v[0], v[1]) <==> u <= t + ttl * MICROS_PER_SECOND)
  {
    GrantPurgeGrantTables(t, ttl, cutoff, u);
  }

  lemma GrantPurgeGrantLive(t: int, ttl: nat, cutoff: int, u: int)
    requires t + ttl * MICROS_PER_SECOND < cutoff
    ensures "s" in Table(GrantPurgeGrant(t, ttl, cutoff, u)).leases
  {
    var ops := GrantPurgeGrant(t, ttl, cutoff, u);
    var lease := Lease(Chosen("a"), PURGE_HOLDER, t, t + ttl * MICROS_PER_SECOND);
    assert ops[..3][..2] == ops[..2] && ops[..2][..1] == ops[..1] && ops[..1][..0] == [];
    assert Table(ops[..1]) == Sessions(map[], map["s" := 0]);
    assert Table(ops[..2]).leases == map["s" := lease];
    assert Table(ops[..3]).leases == map[] && "s" in Table(ops[..3]).counts;
    assert ops[..4] == ops;
  }

  lemma GrantPurgeGrantInOrder(t: int, ttl: nat, cutoff: int, u: int)
    requires t <= u
    ensures InOrder(GrantPurgeGrant(t, ttl, cutoff, u) + [Release("s", None)], "s")
  {
  }

  lemma GrantPurgeGrantUncleared(t: int, ttl: nat, cutoff: int, u: int)
    requires t + ttl * MICROS_PER_SECOND < cutoff && t <= u <= t + ttl * MICROS_PER_SECOND
    ensures !GrantsClearPurged(GrantPurgeGrant(t, ttl, cutoff, u), "s")
  {
    var ops := GrantPurgeGrant(t, ttl, cutoff, u);
    PurgeAheadBreaksDisjointness(t, ttl, cutoff, u);
    assert ops[..|ops|] == ops;
    assert !Disjoint(Unreleased(ops[..|ops|], "s"));
    DisjointAlwaysIff(ops, "s");
  }

  /** It takes the unreleased leases at all times: once the overlapping lease is released, what is left is disjoint again. */
  lemma ReleaseHidesOverlap(t: int, ttl: nat, cutoff: int, u: int)
    requires t + ttl * MICROS_PER_SECOND < cutoff && t <= u <= t + ttl * MICROS_PER_SECOND
    ensures var ops := GrantPurgeGrant(t, ttl, cutoff, u) + [Release("s", None)];
      InOrder(ops, "s") && Disjoint(Unreleased(ops, "s")) && !GrantsClearPurged(ops, "s")
  {
    var init := GrantPurgeGrant(t, ttl, cutoff, u);
    var ops := init + [Release("s", None)];
    assert ops[..|init|] == init && ops[..|ops| - 1] == init;
    GrantPurgeGrantInOrder(t, ttl, cutoff, u);
    GrantPurgeGrantTables(t, ttl, cutoff, u);
    GrantPurgeGrantLive(t, ttl, cutoff, u);
    assert |Unreleased(ops, "s")| == 1;
    GrantPurgeGrantUncleared(t, ttl, cutoff, u);
    if GrantsClearPurged(ops, "s") { ClearsPrefix(ops, |init|, "s"); }
  }

  // ----- exclusion

  /** A live lease ends only by a release that matches it or by a clock past its expiry. */
  ghost predicate Spares(op: LeaseOp, s: string, lease: Lease) {
    && (op.Release? && op.session == s ==> op.id.Some? && op.id.value != lease.id)
    && (ClockFor(op, s).Some? ==> ClockFor(op, s).value <= lease.expiresAt)
  }

  function After(db: Sessions, ops: seq<LeaseOp>): Sessions {
    if |ops| == 0 then db else Step(After(db, ops[..|ops| - 1]), ops[|ops| - 1]).0
  }

  /** Until then the lease stays as granted and no other acquisition of the session succeeds. */
  lemma {:induction false} LeaseExcludesOthers(db: Sessions, ops: seq<LeaseOp>, s: string, next: LeaseOp)
    requires s in db.leases && forall op :: op in ops + [next] ==> Spares(op, s, db.leases[s])
    ensures s in After(db, ops).leases && After(db, ops).leases[s] == db.leases[s]
    ensures next.Acquire? && next.session == s ==> Step(After(db, ops), next) == (After(db, ops), None)
  {
    assert next in ops + [next];
    if |ops| != 0 {
      var init, op := ops[..|ops| - 1], ops[|ops| - 1];
      assert op in ops + [next];
      forall o | o in init + [op] ensures Spares(o, s, db.leases[s]) {
        assert o in ops + [next];
      }
      LeaseExcludesOthers(db, init, s, op);
    }
  }

  // ----- late releases

  function Granted(ops: seq<LeaseOp>, k: nat): Option<Lease>
    requires k < |ops|
  {
    Step(Table(ops[..k]), ops[k]).1
  }

  ghost predicate GrantedOn(ops: seq<LeaseOp>, k: nat, s: string, lease: Lease) {
    k < |ops| && ops[k].Acquire? && ops[k].session == s && Granted(ops, k) == Some(lease)
  }

  lemma {:induction false} LiveWasGranted(ops: seq<LeaseOp>, s: string)
    requires s in Table(ops).leases
    ensures exists k :: GrantedOn(ops, k, s, Table(ops).leases[s])
  {
    if |ops| != 0 {
      var init, op := ops[..|ops| - 1], ops[|ops| - 1];
      if op.Acquire? && op.session == s && Step(Table(init), op).1.Some? {
        assert GrantedOn(ops, |ops| - 1, s, Table(ops).leases[s]);
      } else {
        LiveWasGranted(init, s);
        var k: nat :| GrantedOn(init, k, s, Table(init).leases[s]);
        assert init[..k] == ops[..k];
        assert GrantedOn(ops, k, s, Table(ops).leases[s]);
      }
    }
  }

  /** No two grants of the history carry one id. */
  ghost predicate DistinctIds(ops: seq<LeaseOp>, s: string) {
    forall i, j, a, b :: GrantedOn(ops, i, s, a) && GrantedOn(ops, j, s, b) && a.id == b.id ==> i == j
  }

  /** A holder that releases its lease by id after losing it removes nothing, whoever holds the session by then. */
  lemma LateReleaseIsHarmless(ops: seq<LeaseOp>, s: string, k: nat, lease: Lease)
    requires DistinctIds(ops, s) && GrantedOn(ops, k, s, lease)
    requires s in Table(ops).leases ==> Table(ops).leases[s] != lease
    ensures ReleaseStep(Table(ops), s, Some(lease.id)) == (Table(ops), false)
  {
    if s in Table(ops).leases {
      LiveWasGranted(ops, s);
      var j: nat :| GrantedOn(ops, j, s, Table(ops).leases[s]);
      assert j != k;
    }
  }

  /** One holder acquires, releases and acquires again a microsecond later, without choosing ids. */
  function QuickReacquisition(ttl: nat, t: nat): seq<LeaseOp> {
    [Register("s"), Acquire("s", "h", ttl, None, t), Release("s", None), Acquire("s", "h", ttl, None, t + 1)]
  }

  /** Derived ids are not distinct: within one second both grants carry one id, and releasing the first lease late removes
      the second. */
  lemma DerivedIdsCollide(ttl: nat, t: nat)
    requires WholeSeconds(t) == WholeSeconds(t + 1)
    ensures var ops := QuickReacquisition(ttl, t);
      && Granted(ops, 1).Some? && Granted(ops, 3).Some? && Granted(ops, 1).value != Granted(ops, 3).value
      && "s" in Table(ops).leases && Table(ops).leases["s"] == Granted(ops, 3).value
      && ReleaseStep(Table(ops), "s", Some(Granted(ops, 1).value.id)).1
  {
    var ops := QuickReacquisition(ttl, t);
    assert ops[..3][..2] == ops[..2] && ops[..2][..1] == ops[..1] && ops[..1][..0] == [];
    assert Table(ops[..1]) == Sessions(map[], map["s" := 0]);
    assert Table(ops[..2]).leases == map["s" := NewLease("s", "h", ttl, None, t)];
    assert Table(ops[..3]).leases == map[] && "s" in Table(ops[..3]).counts;
    assert ops[..4] == ops;
  }
}
