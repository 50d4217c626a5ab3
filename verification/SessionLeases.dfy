/** Session leases: one row per session, reclaimed when expired, with a running count on the session. */
module SessionLeases {
  import opened Prelude
  import opened LedgerModel

  /** A lease id the caller chose, or the one derived from session, holder and the second of acquisition. */
  datatype LeaseId = Chosen(name: string) | Derived(session: string, holder: string, second: int)

  datatype Lease = Lease(id: LeaseId, holder: string, leasedAt: int, expiresAt: int)

  datatype Sessions = Sessions(leases: map<string, Lease>, counts: map<string, nat>)

  datatype LeaseOp =
    | Register(session: string)
    | Acquire(session: string, holder: string, ttlSeconds: int, id: Option<LeaseId>, now: int)
    | Release(session: string, id: Option<LeaseId>)
    | Purge(now: int)

  function WholeSeconds(t: int): int {
    if t >= 0 then t / MICROS_PER_SECOND else -((-t) / MICROS_PER_SECOND)
  }

  function NewLease(session: string, holder: string, ttlSeconds: int, id: Option<LeaseId>, now: int): Lease {
    var leaseId := if id.Some? then id.value else Derived(session, holder, WholeSeconds(now));
    Lease(leaseId, holder, now, now + ttlSeconds * MICROS_PER_SECOND)
  }

  predicate Expired(leases: map<string, Lease>, session: string, now: int) {
    session in leases && leases[session].expiresAt < now
  }

  predicate IdTaken(leases: map<string, Lease>, id: LeaseId) {
    exists s | s in leases :: leases[s].id == id
  }

  /** Reclaims the session's expired lease, then inserts; a conflict rolls both back. Reclaiming does not touch the count. */
  function AcquireStep(db: Sessions, session: string, holder: string, ttlSeconds: int, id: Option<LeaseId>, now: int)
    : (Sessions, Option<Lease>)
  {
    var lease := NewLease(session, holder, ttlSeconds, id, now);
    var kept := if Expired(db.leases, session, now) then db.leases - {session} else db.leases;
    if session in kept || session !in db.counts || IdTaken(kept, lease.id) then (db, None)
    else (Sessions(kept[session := lease], db.counts[session := db.counts[session] + 1]), Some(lease))
  }

  function Less(n: nat): nat {
    if n > 0 then n - 1 else 0
  }

  predicate Releases(db: Sessions, session: string, id: Option<LeaseId>) {
    session in db.leases && (id.Some? ==> db.leases[session].id == id.value)
  }

  function ReleaseStep(db: Sessions, session: string, id: Option<LeaseId>): (Sessions, bool) {
    if !Releases(db, session, id) then (db, false) else
      (Sessions(db.leases - {session},
                if session in db.counts then db.counts[session := Less(db.counts[session])] else db.counts), true)
  }

  function StaleSessions(leases: map<string, Lease>, now: int): set<string> {
    set s | s in leases && leases[s].expiresAt < now
  }

  function Discounted(counts: map<string, nat>, sessions: set<string>): map<string, nat> {
    map s | s in counts :: if s in sessions then Less(counts[s]) else counts[s]
  }

  function PurgeStep(db: Sessions, now: int): (Sessions, nat) {
    var stale := StaleSessions(db.leases, now);
    (Sessions(db.leases - stale, Discounted(db.counts, stale)), |stale|)
  }

  class LeaseTable {
    var leases: map<string, Lease>
    var counts: map<string, nat>

    ghost function View(): Sessions
      reads this
    {
      Sessions(leases, counts)
    }

    constructor ()
      ensures View() == Sessions(map[], map[])
    {
      leases, counts := map[], map[];
    }

    method AcquireSessionLease(session: string, holder: string, ttlSeconds: int, id: Option<LeaseId>, now: int)
      returns (granted: Option<Lease>)
      modifies this
      ensures (View(), granted) == AcquireStep(old(View()), session, holder, ttlSeconds, id, now)
    {
      var saved := leases;
      var lease := NewLease(session, holder, ttlSeconds, id, now);
      if session in leases && leases[session].expiresAt < now {
        leases := leases - {session};
      }
      if session in leases || session !in counts || exists s | s in leases :: leases[s].id == lease.id {
        leases := saved;
        return None;
      }
      leases := leases[session := lease];
      counts := counts[session := counts[session] + 1];
      granted := Some(lease);
    }

    method ReleaseSessionLease(session: string, id: Option<LeaseId>) returns (released: bool)
      modifies this
      ensures (View(), released) == ReleaseStep(old(View()), session, id)
    {
      released := session in leases && (id.None? || leases[session].id == id.value);
      if released {
        leases := leases - {session};
        if session in counts {
          counts := counts[session := if counts[session] > 0 then counts[session] - 1 else 0];
        }
      }
    }

    method ReleaseStaleSessionLeases(now: int) returns (removed: nat)
      modifies this
      ensures (View(), removed) == PurgeStep(old(View()), now)
    {
      var stale := set s | s in leases && leases[s].expiresAt < now;
      leases := leases - stale;
      removed := |stale|;
      var rest := stale;
      while rest != {}
        invariant rest <= stale
        invariant counts == Discounted(old(counts), stale - rest)
        invariant leases == old(leases) - stale
        decreases rest
      {
        var s :| s in rest;
        rest := rest - {s};
        if s in counts {
          counts := counts[s := if counts[s] > 0 then counts[s] - 1 else 0];
        }
      }
      assert stale == StaleSessions(old(leases), now) == stale - rest;
    }
  }
}
