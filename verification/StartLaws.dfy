/** When starting a queue item succeeds, what the started run is told, and why a start fails: read off the tables, without
    the order in which the orchestrator looks at them. */
module StartLaws {
  import opened Prelude
  import opened Proposals
  import opened Competition
  import opened LedgerModel
  import opened LedgerSafety
  import opened RunLifecycle
  import opened Orchestrator
  import opened Resumption
  import opened LedgerEffects

  ghost predicate Sound(db: Db) {
    Consistent(db) && SelfKeyed(db.snapshots)
  }

  lemma {:induction false} ReachableIsSound(ops: seq<Op>)
    requires ProperHistory(ops)
    ensures Sound(Run(EmptyDb(), ops))
  {
    ReachableIsConsistent(ops);
    if |ops| != 0 {
      ReachableIsSound(ops[..|ops| - 1]);
      StepKeepsSelfKeyed(Run(EmptyDb(), ops[..|ops| - 1]), ops[|ops| - 1]);
    }
  }

  // ----- the claim

  ghost predicate Available(db: Db, i: string, now: int) {
    i in db.items && db.items[i].availableAt <= now
  }

  ghost predicate NeverRun(db: Db, i: string) {
    forall r :: !RunOf(db, i, r)
  }

  /** A first run needs a new run id and a reserved idempotency key that no run has used. */
  ghost predicate CanRunFirst(db: Db, i: string, r: string)
    requires i in db.items
  {
    r !in db.runs && db.items[i].key in db.keys && db.keys[db.items[i].key].run == None
  }

  ghost predicate MayClaim(db: Db, i: string, r: string, now: int) {
    && Available(db, i, now)
    && (RunOf(db, i, r) || (NeverRun(db, i) && db.items[i].state == Queued && CanRunFirst(db, i, r)))
  }

  lemma LinkRead(db: Db, i: string)
    requires Consistent(db)
    ensures i in db.links ==> RunOf(db, i, db.links[i])
    ensures forall r :: RunOf(db, i, r) ==> i in db.links && db.links[i] == r
    ensures i !in db.links ==> NeverRun(db, i)
  {
  }

  lemma InsertableRead(db: Db, i: string, r: string)
    requires Consistent(db) && i in db.items
    ensures RunInsertable(db, i, r) <==> CanRunFirst(db, i, r)
  {
  }

  /** The reply to a claim, in every state of the tables. */
  lemma ClaimAnswers(db: Db, i: string, w: string, r: string, mode: RunMode, now: int)
    requires Consistent(db)
    ensures var reply := ClaimStep(db, i, w, r, mode, now).1;
      && (reply.Granted? <==> MayClaim(db, i, r, now))
      && (reply == NotClaimable <==> !Available(db, i, now) || (NeverRun(db, i) && db.items[i].state != Queued))
      && (reply == Rejected(DuplicateRunStart) <==> Available(db, i, now) && exists other :: other != r && RunOf(db, i, other))
      && (reply == Rejected(IntegrityError) <==>
           Available(db, i, now) && NeverRun(db, i) && db.items[i].state == Queued && !CanRunFirst(db, i, r))
  {
    LinkRead(db, i);
    if i in db.items { InsertableRead(db, i, r); }
  }

  // ----- what a start works on

  ghost predicate Executing(db: Db, r: string) {
    r in db.runs && db.runs[r].status == CodexExecuting
  }

  /** A run that is new or QUEUED works on the topic's latest snapshot, one that is executing on the version it pinned. */
  ghost predicate WorksOn(db: Db, i: string, r: string, v: Option<nat>)
    requires i in db.items
  {
    || (Unstarted(db, r) && IsLatest(db.snapshots, db.items[i].topic, v))
    || (Executing(db, r) && v == db.runs[r].snapshot)
  }

  ghost predicate AsExpected(expected: Option<nat>, v: nat) {
    expected == None || expected == Some(v)
  }

  ghost predicate Stored(db: Db, i: string, v: nat)
    requires i in db.items
  {
    (db.items[i].topic, v) in db.snapshots
  }

  ghost predicate Attackable(db: Db, i: string, v: nat)
    requires i in db.items && Stored(db, i, v)
  {
    db.snapshots[(db.items[i].topic, v)].currentBest != []
  }

  /** What the run is told, field by field: the item's objective is both objective and selection summary. */
  ghost function Told(db: Db, i: string, r: string, mode: RunMode, v: nat): Intent
    requires i in db.items && Stored(db, i, v)
  {
    var it, s := db.items[i], db.snapshots[(db.items[i].topic, v)];
    Intent(
      Request(r, it.topic, if Executing(db, r) then db.runs[r].mode else mode, it.payload.objective, s,
              [Selection(i, it.kind, it.payload.objective)], it.key),
      i, v, CodexExecuting, Frontier(s, true, true, true, true))
  }

  ghost predicate StartsOn(db: Db, i: string, r: string, mode: RunMode, expected: Option<nat>, intent: Intent, v: nat)
    requires i in db.items
  {
    && WorksOn(db, i, r, Some(v)) && AsExpected(expected, v) && Stored(db, i, v) && Attackable(db, i, v)
    && i in db.items[i].payload.selected && intent == Told(db, i, r, mode, v)
  }

  ghost predicate Starts(db: Db, i: string, r: string, mode: RunMode, expected: Option<nat>, now: int, intent: Intent) {
    MayClaim(db, i, r, now) && exists v: nat :: StartsOn(db, i, r, mode, expected, intent, v)
  }

  lemma LatestRead(stored: Snapshots, topic: string, v: Option<nat>)
    requires IsLatest(stored, topic, Latest(stored, topic))
    ensures IsLatest(stored, topic, v) <==> v == Latest(stored, topic)
  {
  }

  /** Every topic of a finite table has a latest version or none. */
  lemma {:induction false} HasLatest(stored: Snapshots, topic: string) returns (v: Option<nat>)
    ensures IsLatest(stored, topic, v)
    decreases stored.Keys
  {
    if k :| k in stored.Keys {
      var rest := stored - {k};
      assert forall u: nat :: HasVersion(stored, topic, u) <==> HasVersion(rest, topic, u) || k == (topic, u);
      v := HasLatest(rest, topic);
      if k.0 == topic && (v == None || v.value < k.1) {
        v := Some(k.1);
      }
    } else {
      v := None;
    }
  }

  lemma LatestExists(stored: Snapshots, topic: string)
    ensures IsLatest(stored, topic, Latest(stored, topic))
  {
    var v := HasLatest(stored, topic);
  }

  // ----- what a claimed start answers

  /** Why the version it works on keeps a claimed start from succeeding. */
  ghost predicate Unusable(db: Db, i: string, r: string, expected: Option<nat>, f: Failure)
    requires i in db.items
  {
    match f
    case RunFailed => r in db.runs && db.runs[r].status == Failed
    case RunTerminal => r in db.runs && (db.runs[r].status == RunCompleted || db.runs[r].status == DeadLetter)
    case NotReady => r in db.runs && db.runs[r].status !in {RunQueued, CodexExecuting, Failed, RunCompleted, DeadLetter}
    case NotPinned => Executing(db, r) && WorksOn(db, i, r, None)
    case MissingSnapshot =>
      || (Unstarted(db, r) && WorksOn(db, i, r, None))
      || (exists v: nat :: WorksOn(db, i, r, Some(v)) && AsExpected(expected, v) && !Stored(db, i, v))
    case StaleSnapshot => exists v: nat :: WorksOn(db, i, r, Some(v)) && !AsExpected(expected, v)
    case InvalidSnapshot =>
      exists v: nat :: WorksOn(db, i, r, Some(v)) && AsExpected(expected, v) && Stored(db, i, v) && !Attackable(db, i, v)
    case MalformedInput =>
      && i !in db.items[i].payload.selected
      && exists v: nat :: WorksOn(db, i, r, Some(v)) && AsExpected(expected, v) && Stored(db, i, v) && Attackable(db, i, v)
    case _ => false
  }

  /** The one version a startable run works on. */
  ghost function Basis(db: Db, i: string, r: string): Option<nat>
    requires i in db.items
  {
    if Executing(db, r) then db.runs[r].snapshot else Latest(db.snapshots, db.items[i].topic)
  }

  lemma BasisRead(db: Db, i: string, r: string, v: Option<nat>)
    requires i in db.items && (Unstarted(db, r) || Executing(db, r))
    ensures WorksOn(db, i, r, v) <==> v == Basis(db, i, r)
  {
    LatestExists(db.snapshots, db.items[i].topic);
  }

  lemma BasisStored(db: Db, i: string, r: string)
    requires i in db.items && Unstarted(db, r) && Basis(db, i, r).Some?
    ensures Stored(db, i, Basis(db, i, r).value)
  {
  }

  ghost function LaunchOf(db: Db, i: string, r: string, mode: RunMode, expected: Option<nat>): (Db, Answer)
    requires i in db.items && r in db.runs
  {
    Launched(db, i, r, mode, Latest(db.snapshots, db.items[i].topic), expected)
  }

  lemma OnlyOnBasis(db: Db, i: string, r: string, mode: RunMode, expected: Option<nat>, intent: Intent)
    requires i in db.items && (Unstarted(db, r) || Executing(db, r))
    ensures (exists v: nat :: StartsOn(db, i, r, mode, expected, intent, v)) <==>
      Basis(db, i, r).Some? && StartsOn(db, i, r, mode, expected, intent, Basis(db, i, r).value)
  {
    if v: nat :| StartsOn(db, i, r, mode, expected, intent, v) { BasisRead(db, i, r, Some(v)); }
  }

  lemma LaunchAnswers(db: Db, i: string, r: string, mode: RunMode, expected: Option<nat>, intent: Intent)
    requires Sound(db) && i in db.items && r in db.runs && db.runs[r].status == RunQueued
    ensures LaunchOf(db, i, r, mode, expected).1 == Answer.Ok(intent) <==> exists v: nat :: StartsOn(db, i, r, mode, expected, intent, v)
  {
    OnlyOnBasis(db, i, r, mode, expected, intent);
    BasisRead(db, i, r, Basis(db, i, r));
  }

  /** What is the matter with the version a run works on, if anything. */
  ghost predicate BadVersion(db: Db, i: string, expected: Option<nat>, v: nat, f: Failure)
    requires i in db.items
  {
    match f
    case StaleSnapshot => !AsExpected(expected, v)
    case MissingSnapshot => AsExpected(expected, v) && !Stored(db, i, v)
    case InvalidSnapshot => AsExpected(expected, v) && Stored(db, i, v) && !Attackable(db, i, v)
    case MalformedInput =>
      AsExpected(expected, v) && Stored(db, i, v) && Attackable(db, i, v) && i !in db.items[i].payload.selected
    case _ => false
  }

  lemma UnusableBasis(db: Db, i: string, r: string, expected: Option<nat>, f: Failure)
    requires i in db.items && (Unstarted(db, r) || Executing(db, r))
    ensures Unusable(db, i, r, expected, f) <==>
      match Basis(db, i, r)
      case None => if Executing(db, r) then f == NotPinned else f == MissingSnapshot
      case Some(v) => BadVersion(db, i, expected, v, f)
  {
    forall v { BasisRead(db, i, r, v); }
    var b := Basis(db, i, r);
    if b.Some? {
      assert WorksOn(db, i, r, Some(b.value));
    } else {
      assert forall v: nat :: !WorksOn(db, i, r, Some(v));
    }
  }

  lemma LaunchFails(db: Db, i: string, r: string, mode: RunMode, expected: Option<nat>, f: Failure)
    requires Sound(db) && i in db.items && r in db.runs && db.runs[r].status == RunQueued
    ensures LaunchOf(db, i, r, mode, expected).1 == Answer.Err(f) <==> Unusable(db, i, r, expected, f)
  {
    UnusableBasis(db, i, r, expected, f);
    BasisRead(db, i, r, Basis(db, i, r));
  }

  lemma ResumeAnswers(db: Db, i: string, r: string, mode: RunMode, expected: Option<nat>, intent: Intent)
    requires Sound(db) && i in db.items && RunOf(db, i, r) && db.runs[r].status != RunQueued
    ensures Resume(db, r, expected) == Answer.Ok(intent) <==> exists v: nat :: StartsOn(db, i, r, mode, expected, intent, v)
  {
    if Executing(db, r) {
      OnlyOnBasis(db, i, r, mode, expected, intent);
      BasisRead(db, i, r, Basis(db, i, r));
    }
  }

  lemma IdleFails(db: Db, i: string, r: string, expected: Option<nat>, f: Failure)
    requires i in db.items && r in db.runs && db.runs[r].status != RunQueued && !Executing(db, r)
    ensures Resume(db, r, expected) == Answer.Err(f) <==> Unusable(db, i, r, expected, f)
  {
    assert forall v :: !WorksOn(db, i, r, v);
  }

  lemma ExecutingFails(db: Db, i: string, r: string, expected: Option<nat>, f: Failure)
    requires i in db.items && RunOf(db, i, r) && Executing(db, r) && db.runs[r].topic == db.items[i].topic
    ensures Resume(db, r, expected) == Answer.Err(f) <==> Unusable(db, i, r, expected, f)
  {
    UnusableBasis(db, i, r, expected, f);
  }

  lemma ResumeFails(db: Db, i: string, r: string, expected: Option<nat>, f: Failure)
    requires Sound(db) && i in db.items && RunOf(db, i, r) && db.runs[r].status != RunQueued
    ensures Resume(db, r, expected) == Answer.Err(f) <==> Unusable(db, i, r, expected, f)
  {
    if Executing(db, r) { ExecutingFails(db, i, r, expected, f); } else { IdleFails(db, i, r, expected, f); }
  }

  // ----- from the claimed tables back to those before the claim

  ghost predicate SameForStart(db: Db, claimed: Db, i: string, r: string) {
    && i in db.items && i in claimed.items && claimed.snapshots == db.snapshots
    && claimed.items[i].topic == db.items[i].topic && claimed.items[i].kind == db.items[i].kind
    && claimed.items[i].payload == db.items[i].payload && claimed.items[i].key == db.items[i].key
    && RunOf(claimed, i, r)
    && (if r in db.runs then claimed.runs[r] == db.runs[r] else claimed.runs[r].status == RunQueued)
  }

  lemma ClaimedIsSame(db: Db, i: string, w: string, r: string, mode: RunMode, now: int)
    requires Sound(db) && MayClaim(db, i, r, now)
    ensures ClaimStep(db, i, w, r, mode, now).1.Granted?
    ensures Sound(ClaimStep(db, i, w, r, mode, now).0) && SameForStart(db, ClaimStep(db, i, w, r, mode, now).0, i, r)
  {
    ClaimAnswers(db, i, w, r, mode, now);
    ClaimKeepsConsistent(db, i, w, r, mode, now);
    LinkRead(db, i);
  }

  lemma SameStarts(db: Db, claimed: Db, i: string, r: string, mode: RunMode, expected: Option<nat>, intent: Intent, v: nat)
    requires SameForStart(db, claimed, i, r)
    ensures StartsOn(claimed, i, r, mode, expected, intent, v) <==> StartsOn(db, i, r, mode, expected, intent, v)
  {
  }

  lemma SameWorksOn(db: Db, claimed: Db, i: string, r: string, v: Option<nat>)
    requires SameForStart(db, claimed, i, r)
    ensures WorksOn(claimed, i, r, v) <==> WorksOn(db, i, r, v)
  {
  }

  lemma SameUnusable(db: Db, claimed: Db, i: string, r: string, expected: Option<nat>, f: Failure)
    requires SameForStart(db, claimed, i, r)
    ensures Unusable(claimed, i, r, expected, f) <==> Unusable(db, i, r, expected, f)
  {
    forall v { SameWorksOn(db, claimed, i, r, v); }
  }

  // ----- the two results

  /** Starting succeeds with an intent exactly when the claim may be made, the version to work on is the expected one, stored
      and attackable, the item selects itself, and the intent is what the tables then tell the run. */
  lemma StartsIff(
    db: Db, i: string, r: string, w: string, mode: RunMode, expected: Option<nat>, now: int, intent: Intent)
    requires Sound(db)
    ensures StartStep(db, i, r, w, mode, expected, now).1 == Answer.Ok(intent) <==> Starts(db, i, r, mode, expected, now, intent)
  {
    ClaimAnswers(db, i, w, r, mode, now);
    if MayClaim(db, i, r, now) {
      var claimed := ClaimStep(db, i, w, r, mode, now).0;
      ClaimedIsSame(db, i, w, r, mode, now);
      forall v { SameStarts(db, claimed, i, r, mode, expected, intent, v); }
      if claimed.runs[r].status == RunQueued {
        LaunchAnswers(claimed, i, r, mode, expected, intent);
      } else {
        ResumeAnswers(claimed, i, r, mode, expected, intent);
      }
    }
  }

  ghost predicate Refuses(db: Db, i: string, r: string, e: Error)
    requires i in db.items
  {
    match e
    case DuplicateRunStart => exists other :: other != r && RunOf(db, i, other)
    case IntegrityError => NeverRun(db, i) && db.items[i].state == Queued && !CanRunFirst(db, i, r)
    case _ => false
  }

  /** Every failure to start, and exactly when it is the answer. */
  ghost predicate FailsWith(db: Db, i: string, r: string, expected: Option<nat>, now: int, f: Failure) {
    match f
    case NoSuchItem => !Available(db, i, now) || (NeverRun(db, i) && db.items[i].state != Queued)
    case LedgerRefused(e) => Available(db, i, now) && Refuses(db, i, r, e)
    case _ => MayClaim(db, i, r, now) && Unusable(db, i, r, expected, f)
  }

  lemma ClaimErrors(db: Db, i: string, w: string, r: string, mode: RunMode, now: int)
    ensures var reply := ClaimStep(db, i, w, r, mode, now).1;
      reply.Granted? || reply == NotClaimable || reply == Rejected(DuplicateRunStart) || reply == Rejected(IntegrityError)
  {
  }

  lemma UnclaimedStart(db: Db, i: string, r: string, w: string, mode: RunMode, expected: Option<nat>, now: int)
    requires !ClaimStep(db, i, w, r, mode, now).1.Granted?
    ensures StartStep(db, i, r, w, mode, expected, now) == (db, Answer.Err(
      match ClaimStep(db, i, w, r, mode, now).1 case Rejected(e) => LedgerRefused(e) case _ => NoSuchItem))
  {
  }

  lemma UnclaimedFails(db: Db, i: string, r: string, w: string, mode: RunMode, expected: Option<nat>, now: int, f: Failure)
    requires Sound(db) && !MayClaim(db, i, r, now)
    ensures StartStep(db, i, r, w, mode, expected, now).1 == Answer.Err(f) <==> FailsWith(db, i, r, expected, now, f)
  {
    ClaimAnswers(db, i, w, r, mode, now);
    ClaimErrors(db, i, w, r, mode, now);
    UnclaimedStart(db, i, r, w, mode, expected, now);
  }

  lemma ClaimedFailures(db: Db, i: string, r: string, expected: Option<nat>, now: int, f: Failure)
    requires Sound(db) && MayClaim(db, i, r, now)
    ensures FailsWith(db, i, r, expected, now, f) <==> Unusable(db, i, r, expected, f)
  {
    LinkRead(db, i);
    ClaimAnswers(db, i, "", r, Scheduled, now);
  }

  lemma ClaimedFails(db: Db, i: string, r: string, w: string, mode: RunMode, expected: Option<nat>, now: int, f: Failure)
    requires Sound(db) && MayClaim(db, i, r, now)
    ensures StartStep(db, i, r, w, mode, expected, now).1 == Answer.Err(f) <==> Unusable(db, i, r, expected, f)
  {
    var claimed := ClaimStep(db, i, w, r, mode, now).0;
    ClaimedIsSame(db, i, w, r, mode, now);
    SameUnusable(db, claimed, i, r, expected, f);
    if claimed.runs[r].status == RunQueued {
      LaunchFails(claimed, i, r, mode, expected, f);
    } else {
      ResumeFails(claimed, i, r, expected, f);
    }
  }

  /** Starting fails with exactly the failures that are due, so with no other answer than those and the intent above. */
  lemma FailsIff(db: Db, i: string, r: string, w: string, mode: RunMode, expected: Option<nat>, now: int, f: Failure)
    requires Sound(db)
    ensures StartStep(db, i, r, w, mode, expected, now).1 == Answer.Err(f) <==> FailsWith(db, i, r, expected, now, f)
  {
    if MayClaim(db, i, r, now) {
      ClaimedFailures(db, i, r, expected, now, f);
      ClaimedFails(db, i, r, w, mode, expected, now, f);
    } else {
      UnclaimedFails(db, i, r, w, mode, expected, now, f);
    }
  }

  // ----- what a start leaves

  /** The item is held by the worker, since before or from now. */
  ghost predicate Holds(before: Db, after: Db, i: string, w: string, now: int) {
    && i in before.items && after.items.Keys == before.items.Keys
    && (forall j :: j in before.items && j != i ==> after.items[j] == before.items[j])
    && after.items[i] ==
         if before.items[i].state == Queued
         then before.items[i].(state := Claimed, claimedBy := Some(w), claimedAt := Some(now))
         else before.items[i]
  }

  /** The run's row as the claim leaves it. */
  ghost function ClaimedRow(before: Db, i: string, r: string, mode: RunMode): RunRow
    requires i in before.items
  {
    if r in before.runs then before.runs[r]
    else RunRow(before.items[i].topic, i, before.items[i].key, mode, RunQueued, None)
  }

  /** A run that was already started stays as it is; any other ends in CODEX_EXECUTING on the latest version, or FAILED, then
      pinned only if the queue item was malformed. */
  ghost predicate RunStarted(before: Db, after: Db, i: string, r: string, mode: RunMode, answer: Answer)
    requires i in before.items
  {
    && r in after.runs
    && (!Unstarted(before, r) ==> after.runs[r] == before.runs[r])
    && (Unstarted(before, r) && (answer.Ok? || answer.failure == MalformedInput) ==> exists v: nat ::
          && IsLatest(before.snapshots, before.items[i].topic, Some(v))
          && after.runs[r] ==
               ClaimedRow(before, i, r, mode).(status := if answer.Ok? then CodexExecuting else Failed, snapshot := Some(v)))
    && (Unstarted(before, r) && answer.Err? && answer.failure != MalformedInput ==>
          after.runs[r] == ClaimedRow(before, i, r, mode).(status := Failed))
  }

  ghost predicate OtherRunsKept(before: Db, after: Db, i: string, r: string)
    requires i in before.items
  {
    && after.runs.Keys == before.runs.Keys + {r} && (forall q :: q in before.runs && q != r ==> after.runs[q] == before.runs[q])
    && after.snapshots == before.snapshots && after.audit == before.audit
    && before.items[i].key in before.keys
    && after.keys == before.keys[before.items[i].key := before.keys[before.items[i].key].(run := Some(r))]
    && RunOf(after, i, r)
  }

  /** The tables after a granted claim. */
  ghost function Claiming(db: Db, i: string, r: string, w: string, mode: RunMode, now: int): Db
    requires i in db.items && db.items[i].key in db.keys
  {
    if r !in db.runs then StartRun(db, i, w, r, mode, now)
    else if db.items[i].state == Queued then db.(items := db.items[i := MarkClaimed(db.items[i], w, now)])
    else db
  }

  lemma ClaimIsClaiming(db: Db, i: string, r: string, w: string, mode: RunMode, now: int)
    requires Sound(db) && MayClaim(db, i, r, now)
    ensures db.items[i].key in db.keys && ClaimStep(db, i, w, r, mode, now).0 == Claiming(db, i, r, w, mode, now)
  {
    ClaimAnswers(db, i, w, r, mode, now);
    LinkRead(db, i);
    if r in db.runs { assert RunOf(db, i, r); }
  }

  lemma ClaimingHolds(db: Db, i: string, r: string, w: string, mode: RunMode, now: int)
    requires i in db.items && db.items[i].key in db.keys && (r !in db.runs ==> db.items[i].state == Queued)
    ensures Holds(db, Claiming(db, i, r, w, mode, now), i, w, now)
  {
  }

  lemma ClaimingKeepsRuns(db: Db, i: string, r: string, w: string, mode: RunMode, now: int)
    requires i in db.items && db.items[i].key in db.keys
    requires r in db.runs ==> RunOf(db, i, r) && db.keys[db.items[i].key].run == Some(r)
    ensures OtherRunsKept(db, Claiming(db, i, r, w, mode, now), i, r)
    ensures Claiming(db, i, r, w, mode, now).runs[r] == ClaimedRow(db, i, r, mode)
  {
  }

  lemma ClaimLeaves(db: Db, i: string, r: string, w: string, mode: RunMode, now: int)
    requires Sound(db) && MayClaim(db, i, r, now)
    ensures var claimed := ClaimStep(db, i, w, r, mode, now).0;
      && Holds(db, claimed, i, w, now) && OtherRunsKept(db, claimed, i, r) && claimed.runs[r] == ClaimedRow(db, i, r, mode)
  {
    ClaimIsClaiming(db, i, r, w, mode, now);
    ClaimingHolds(db, i, r, w, mode, now);
    ClaimingKeepsRuns(db, i, r, w, mode, now);
  }

  lemma LaunchMovesOnlyTheRun(db: Db, i: string, r: string, mode: RunMode, expected: Option<nat>)
    requires i in db.items && r in db.runs
    ensures var after := LaunchOf(db, i, r, mode, expected).0;
      r in after.runs && after == db.(runs := db.runs[r := after.runs[r]])
  {
  }

  lemma LaunchLeaves(db: Db, i: string, r: string, mode: RunMode, expected: Option<nat>)
    requires SelfKeyed(db.snapshots) && i in db.items && r in db.runs && db.runs[r].status == RunQueued
    ensures var (after, answer) := LaunchOf(db, i, r, mode, expected); RunStarted(db, after, i, r, mode, answer)
  {
    LatestExists(db.snapshots, db.items[i].topic);
    var (after, answer) := LaunchOf(db, i, r, mode, expected);
    if answer.Ok? || answer.failure == MalformedInput {
      var v := Latest(db.snapshots, db.items[i].topic).value;
      assert IsLatest(db.snapshots, db.items[i].topic, Some(v));
      assert after.runs[r].snapshot == Some(v);
    }
  }

  /** Claim and launch, one after the other. */
  lemma LaunchAfterClaim(
    db: Db, claimed: Db, after: Db, i: string, r: string, w: string, mode: RunMode, now: int, answer: Answer)
    requires Holds(db, claimed, i, w, now) && OtherRunsKept(db, claimed, i, r) && claimed.runs[r] == ClaimedRow(db, i, r, mode)
    requires Unstarted(db, r) && r in after.runs && after == claimed.(runs := claimed.runs[r := after.runs[r]])
    requires after.runs[r].item == claimed.runs[r].item && RunStarted(claimed, after, i, r, mode, answer)
    ensures Holds(db, after, i, w, now)
    ensures OtherRunsKept(db, after, i, r)
    ensures RunStarted(db, after, i, r, mode, answer)
  {
    assert claimed.items[i].topic == db.items[i].topic && Unstarted(claimed, r);
  }

  ghost predicate Left(
    db: Db, after: Db, answer: Answer, i: string, r: string, w: string, mode: RunMode, now: int)
  {
    Holds(db, after, i, w, now) && OtherRunsKept(db, after, i, r) && RunStarted(db, after, i, r, mode, answer)
  }

  lemma StartIsClaimAndGo(db: Db, i: string, r: string, w: string, mode: RunMode, expected: Option<nat>, now: int)
    requires Sound(db) && MayClaim(db, i, r, now)
    ensures var claimed := ClaimStep(db, i, w, r, mode, now).0;
      && i in claimed.items && r in claimed.runs
      && StartStep(db, i, r, w, mode, expected, now) ==
           if claimed.runs[r].status == RunQueued then LaunchOf(claimed, i, r, mode, expected)
           else (claimed, Resume(claimed, r, expected))
  {
    ClaimedIsSame(db, i, w, r, mode, now);
  }

  lemma LaunchLeft(db: Db, claimed: Db, i: string, r: string, w: string, mode: RunMode, expected: Option<nat>, now: int)
    requires Sound(claimed) && Holds(db, claimed, i, w, now) && OtherRunsKept(db, claimed, i, r)
    requires claimed.runs[r] == ClaimedRow(db, i, r, mode) && claimed.runs[r].status == RunQueued && i in claimed.items
    ensures var (after, answer) := LaunchOf(claimed, i, r, mode, expected); Left(db, after, answer, i, r, w, mode, now)
  {
    var (after, answer) := LaunchOf(claimed, i, r, mode, expected);
    LaunchMovesOnlyTheRun(claimed, i, r, mode, expected);
    LaunchLeaves(claimed, i, r, mode, expected);
    LaunchAfterClaim(db, claimed, after, i, r, w, mode, now, answer);
  }

  lemma ResumeLeft(db: Db, claimed: Db, i: string, r: string, w: string, mode: RunMode, now: int, answer: Answer)
    requires Holds(db, claimed, i, w, now) && OtherRunsKept(db, claimed, i, r)
    requires claimed.runs[r] == ClaimedRow(db, i, r, mode) && claimed.runs[r].status != RunQueued
    ensures Left(db, claimed, answer, i, r, w, mode, now)
  {
  }

  /** What a claimed start changes: it holds the item, the key records the run, and only the run's row moves on. */
  lemma StartLeaves(db: Db, i: string, r: string, w: string, mode: RunMode, expected: Option<nat>, now: int)
    requires Sound(db) && MayClaim(db, i, r, now)
    ensures var (after, answer) := StartStep(db, i, r, w, mode, expected, now); Left(db, after, answer, i, r, w, mode, now)
  {
    var claimed := ClaimStep(db, i, w, r, mode, now).0;
    StartIsClaimAndGo(db, i, r, w, mode, expected, now);
    ClaimedIsSame(db, i, w, r, mode, now);
    ClaimLeaves(db, i, r, w, mode, now);
    if claimed.runs[r].status == RunQueued {
      LaunchLeft(db, claimed, i, r, w, mode, expected, now);
    } else {
      ResumeLeft(db, claimed, i, r, w, mode, now, Resume(claimed, r, expected));
    }
  }

  /** A start that may not claim changes nothing. */
  lemma RefusedStartLeaves(db: Db, i: string, r: string, w: string, mode: RunMode, expected: Option<nat>, now: int)
    requires Sound(db) && !MayClaim(db, i, r, now)
    ensures StartStep(db, i, r, w, mode, expected, now).0 == db && StartStep(db, i, r, w, mode, expected, now).1.Err?
  {
    ClaimAnswers(db, i, w, r, mode, now);
  }

  // ----- after a recovery

  /** An operation that sets no status of run r of item i. */
  ghost predicate LeavesStatus(op: Op, i: string, r: string) {
    && !(op.Transition? && op.runId == r)
    && !(op.DeadLetterItem? && op.owner.run == Some(r))
    && !(op.RecoverStale? && op.item == i && op.action == DeadLetterClaim)
  }

  lemma WorkLeavesStatus(db: Db, op: Op, i: string, r: string)
    requires r in db.runs && db.runs[r].status == RunQueued && LeavesStatus(op, i, r) && Working(op)
    ensures r in Apply(db, op).0.runs && Apply(db, op).0.runs[r].status == RunQueued
  {
    match op
    case Claim(_, _, _, _, _) =>
    case Retry(_, _, _, _) =>
    case Complete(_, _, _) =>
    case DeadLetterItem(_, _, _) =>
  }

  lemma RecoveryLeavesStatus(db: Db, op: Op, i: string, r: string)
    requires Consistent(db) && RunOf(db, i, r) && db.runs[r].status == RunQueued && LeavesStatus(op, i, r)
    requires op.RecoverStale? || op.RecoverDeadLetter?
    ensures r in Apply(db, op).0.runs && Apply(db, op).0.runs[r].status == RunQueued
  {
    LinkRead(db, i);
    if op.item in db.links && op.item != i {
      LinkRead(db, op.item);
      assert db.links[op.item] != r;
    }
  }

  lemma StaysQueuedStep(db: Db, op: Op, i: string, r: string)
    requires Consistent(db) && RunOf(db, i, r) && db.runs[r].status == RunQueued && LeavesStatus(op, i, r)
    ensures RunOf(Apply(db, op).0, i, r) && Apply(db, op).0.runs[r].status == RunQueued
  {
    RunIdentityIsFixed(db, op, r);
    if op.RecoverStale? || op.RecoverDeadLetter? {
      RecoveryLeavesStatus(db, op, i, r);
    } else if Working(op) {
      WorkLeavesStatus(db, op, i, r);
    }
  }

  lemma SoundStep(db: Db, op: Op)
    requires Sound(db) && ProperOp(op)
    ensures Sound(Apply(db, op).0)
  {
    StepKeepsConsistent(db, op);
    StepKeepsSelfKeyed(db, op);
  }

  lemma {:induction false} StaysQueued(db: Db, ops: seq<Op>, i: string, r: string)
    requires Sound(db) && RunOf(db, i, r) && db.runs[r].status == RunQueued && ProperHistory(ops)
    requires forall op :: op in ops ==> LeavesStatus(op, i, r)
    ensures Sound(Run(db, ops)) && RunOf(Run(db, ops), i, r) && Run(db, ops).runs[r].status == RunQueued
  {
    if |ops| != 0 {
      StaysQueued(db, ops[..|ops| - 1], i, r);
      StaysQueuedStep(Run(db, ops[..|ops| - 1]), ops[|ops| - 1], i, r);
      SoundStep(Run(db, ops[..|ops| - 1]), ops[|ops| - 1]);
    }
  }

  /** The run is on its way on the topic's latest version, or FAILED for want of a usable one; it was not resumed. */
  ghost predicate LaunchedAnew(before: Db, after: Db, i: string, r: string, mode: RunMode, answer: Answer)
    requires i in before.items
  {
    && r in after.runs
    && match answer
       case Ok(intent) => exists v: nat ::
         && IsLatest(before.snapshots, before.items[i].topic, Some(v)) && Stored(before, i, v)
         && after.runs[r].status == CodexExecuting && after.runs[r].snapshot == Some(v)
         && intent == Told(before, i, r, mode, v)
       case Err(f) =>
         (f == MissingSnapshot || f == StaleSnapshot || f == InvalidSnapshot || f == MalformedInput) && after.runs[r].status == Failed
  }

  lemma SuccessIsLaunchedAnew(
    db: Db, i: string, r: string, w: string, mode: RunMode, expected: Option<nat>, now: int, intent: Intent)
    requires Sound(db) && RunOf(db, i, r) && db.runs[r].status == RunQueued && Available(db, i, now)
    requires StartStep(db, i, r, w, mode, expected, now).1 == Answer.Ok(intent)
    ensures LaunchedAnew(db, StartStep(db, i, r, w, mode, expected, now).0, i, r, mode, Answer.Ok(intent))
  {
    var after := StartStep(db, i, r, w, mode, expected, now).0;
    StartLeaves(db, i, r, w, mode, expected, now);
    StartsIff(db, i, r, w, mode, expected, now, intent);
    var v: nat :| StartsOn(db, i, r, mode, expected, intent, v);
    var u: nat :| IsLatest(db.snapshots, db.items[i].topic, Some(u)) && after.runs[r].snapshot == Some(u);
    assert u == v;
  }

  lemma FailureIsLaunchedAnew(
    db: Db, i: string, r: string, w: string, mode: RunMode, expected: Option<nat>, now: int, f: Failure)
    requires Sound(db) && RunOf(db, i, r) && db.runs[r].status == RunQueued && Available(db, i, now)
    requires StartStep(db, i, r, w, mode, expected, now).1 == Answer.Err(f)
    ensures LaunchedAnew(db, StartStep(db, i, r, w, mode, expected, now).0, i, r, mode, Answer.Err(f))
  {
    StartLeaves(db, i, r, w, mode, expected, now);
    ClaimedFails(db, i, r, w, mode, expected, now, f);
    assert !Executing(db, r);
  }

  lemma QueuedIsLaunched(db: Db, i: string, r: string, w: string, mode: RunMode, expected: Option<nat>, now: int)
    requires Sound(db) && RunOf(db, i, r) && db.runs[r].status == RunQueued && Available(db, i, now)
    ensures var (after, answer) := StartStep(db, i, r, w, mode, expected, now); LaunchedAnew(db, after, i, r, mode, answer)
  {
    match StartStep(db, i, r, w, mode, expected, now).1
    case Ok(intent) => SuccessIsLaunchedAnew(db, i, r, w, mode, expected, now, intent);
    case Err(f) => FailureIsLaunchedAnew(db, i, r, w, mode, expected, now, f);
  }

  /** Once a claim has been recovered for retry, or a dead-lettered item requeued, the next granted start launches its run on
      the latest snapshot and never resumes the pass of the worker that is gone, whatever happened in between that did not
      itself move the run on. */
  lemma RecoveredRunIsLaunched(
    ops: seq<Op>, recovery: Op, later: seq<Op>, i: string, r: string, w: string, mode: RunMode, expected: Option<nat>, now: int)
    requires ProperHistory(ops) && ProperHistory(later)
    requires recovery.RecoverDeadLetter? || (recovery.RecoverStale? && recovery.action == RetryClaim)
    requires recovery.item == i && RunOf(Run(EmptyDb(), ops), i, r)
    requires Apply(Run(EmptyDb(), ops), recovery).1 == Recovered(false)
    requires forall op :: op in later ==> LeavesStatus(op, i, r)
    requires Available(Run(Apply(Run(EmptyDb(), ops), recovery).0, later), i, now)
    ensures var before := Run(Apply(Run(EmptyDb(), ops), recovery).0, later);
      var (after, answer) := StartStep(before, i, r, w, mode, expected, now);
      LaunchedAnew(before, after, i, r, mode, answer)
  {
    var recovered := Apply(Run(EmptyDb(), ops), recovery).0;
    ReachableIsSound(ops);
    SoundStep(Run(EmptyDb(), ops), recovery);
    if recovery.RecoverStale? {
      RecoveryMovesTheRun(ops, recovery, r);
    } else {
      DeadLetterRecoveryMovesTheRun(ops, recovery, r);
    }
    StaysQueued(recovered, later, i, r);
    QueuedIsLaunched(Run(recovered, later), i, r, w, mode, expected, now);
  }
}
