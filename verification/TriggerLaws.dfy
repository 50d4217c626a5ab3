/** What a trigger is answered and when, read off the tables. */
module TriggerLaws {
  import opened Prelude
  import opened Failures
  import opened Proposals
  import opened Competition
  import opened LedgerModel
  import opened LedgerSafety
  import opened StartLaws
  import opened Resumption
  import O = Orchestrator
  import opened Reports
  import I = Interactive
  import opened Endings
  import opened RunEndings

  // ----- a request seen before

  ghost predicate ReportedAs(st: Store, key: string, r: Report) {
    exists run :: run in st.reports && st.reports[run] == r && r.key == key
  }

  ghost predicate Unreported(st: Store, key: string) {
    forall run :: run in st.reports ==> st.reports[run].key != key
  }

  ghost predicate SeenBefore(db: Db, t: I.Trigger) {
    t.key in db.keys && db.keys[t.key].digest == t.digest
  }

  /** The run the key was used for, if it exists. */
  ghost predicate KeyRun(db: Db, t: I.Trigger, run: string) {
    t.key in db.keys && db.keys[t.key].run == Some(run) && run in db.runs
  }

  /** A queued run is not ready; any other is not resumed for the reasons it would not start. */
  ghost predicate NotReadyFor(db: Db, run: string, expected: Option<nat>, f: O.Failure)
    requires run in db.runs
  {
    if db.runs[run].status == RunQueued then f == O.NotReady
    else db.runs[run].item in db.items && Unusable(db, db.runs[run].item, run, expected, f)
  }

  /** Why the run of a request seen before cannot be resumed. */
  ghost predicate NotResumable(db: Db, t: I.Trigger, f: O.Failure) {
    || (f == O.NoSuchRun && forall run :: !KeyRun(db, t, run))
    || (exists run :: KeyRun(db, t, run) && NotReadyFor(db, run, t.expected, f))
  }

  lemma ReportRead(st: Store, key: string, r: Report)
    requires KeysUnique(st)
    ensures ReportWithKey(st, key) == Some(r) <==> ReportedAs(st, key, r)
  {
  }

  lemma UnreportedRead(st: Store, key: string)
    ensures ReportWithKey(st, key) == None <==> Unreported(st, key)
  {
  }

  /** A key reserved with another digest: a mismatch, whatever else is known of the request. */
  lemma MismatchIff(db: Db, st: Store, t: I.Trigger, end: I.RuntimeEnd, w: string, now: int)
    ensures I.TriggerStep(db, st, t, end, w, now).2 == I.DigestMismatch <==> t.key in db.keys && db.keys[t.key].digest != t.digest
    ensures t.key in db.keys && db.keys[t.key].digest != t.digest ==>
      I.TriggerStep(db, st, t, end, w, now).0 == db && I.TriggerStep(db, st, t, end, w, now).1 == st
  {
  }

  /** A request with a report is answered from it, and nothing is run or written. */
  lemma DuplicateIff(db: Db, st: Store, t: I.Trigger, end: I.RuntimeEnd, w: string, now: int, r: Report, v: nat)
    requires KeysUnique(st)
    ensures I.TriggerStep(db, st, t, end, w, now).2 == I.Duplicate(r, v) <==>
      SeenBefore(db, t) && ReportedAs(st, t.key, r) && v == r.version && (t.topic, v) in db.snapshots
    ensures SeenBefore(db, t) && ReportedAs(st, t.key, r) ==>
      I.TriggerStep(db, st, t, end, w, now).0 == db && I.TriggerStep(db, st, t, end, w, now).1 == st
  {
    ReportRead(st, t.key, r);
  }

  lemma ResumeOfKeyFails(db: Db, t: I.Trigger, run: string, f: O.Failure)
    requires Sound(db) && KeyRun(db, t, run)
    ensures O.Resume(db, run, t.expected) == O.Err(f) <==> NotReadyFor(db, run, t.expected, f)
  {
    var i := db.runs[run].item;
    if db.runs[run].status != RunQueued {
      assert RunOf(db, i, run) && i in db.items;
      ResumeFails(db, i, run, t.expected, f);
    }
  }

  lemma SeenIs(db: Db, t: I.Trigger, f: O.Failure)
    requires Sound(db) && SeenBefore(db, t)
    ensures (if db.keys[t.key].run == None then f == O.NoSuchRun
             else O.Resume(db, db.keys[t.key].run.value, t.expected) == O.Err(f)) <==> NotResumable(db, t, f)
  {
    if db.keys[t.key].run.Some? && db.keys[t.key].run.value in db.runs {
      var run := db.keys[t.key].run.value;
      assert KeyRun(db, t, run) && forall other :: KeyRun(db, t, other) ==> other == run;
      ResumeOfKeyFails(db, t, run, f);
    } else {
      assert forall run :: !KeyRun(db, t, run);
    }
  }

  lemma AgainIs(db: Db, st: Store, t: I.Trigger, end: I.RuntimeEnd, w: string, now: int, f: O.Failure)
    ensures I.TriggerStep(db, st, t, end, w, now).2 == I.NotResumed(f) <==>
      && SeenBefore(db, t) && ReportWithKey(st, t.key) == None
      && (if db.keys[t.key].run == None then f == O.NoSuchRun
          else O.Resume(db, db.keys[t.key].run.value, t.expected) == O.Err(f))
    ensures I.TriggerStep(db, st, t, end, w, now).2 == I.NotResumed(f) ==>
      I.TriggerStep(db, st, t, end, w, now).0 == db && I.TriggerStep(db, st, t, end, w, now).1 == st
  {
  }

  /** A request without a report is not resumed, and nothing changes, exactly when its run is missing, waiting or unusable. */
  lemma NotResumedIff(db: Db, st: Store, t: I.Trigger, end: I.RuntimeEnd, w: string, now: int, f: O.Failure)
    requires Sound(db)
    ensures I.TriggerStep(db, st, t, end, w, now).2 == I.NotResumed(f) <==>
      SeenBefore(db, t) && Unreported(st, t.key) && NotResumable(db, t, f)
    ensures I.TriggerStep(db, st, t, end, w, now).2 == I.NotResumed(f) ==>
      I.TriggerStep(db, st, t, end, w, now).0 == db && I.TriggerStep(db, st, t, end, w, now).1 == st
  {
    UnreportedRead(st, t.key);
    AgainIs(db, st, t, end, w, now, f);
    if SeenBefore(db, t) { SeenIs(db, t, f); }
  }

  /** A request seen before, without a report, whose run executes on a stored version as expected is resumed and ends as
      executions of claimed items do. */
  lemma SeenRequestResumes(
    db: Db, st: Store, t: I.Trigger, end: I.RuntimeEnd, w: string, now: int, run: string, i: string, v: nat)
    requires Sound(db) && SeenBefore(db, t) && Unreported(st, t.key) && KeyRun(db, t, run) && RunOf(db, i, run)
    requires Executing(db, run) && db.runs[run].snapshot == Some(v) && AsExpected(t.expected, v) && i in db.items
    requires Stored(db, i, v) && Attackable(db, i, v) && i in db.items[i].payload.selected && (t.topic, v) in db.snapshots
    requires Owned(db, i, run, w) && RowsFree(st, Told(db, i, run, LedgerModel.Interactive, v))
    ensures var (after, stored, response) := I.TriggerStep(db, st, t, end, w, now);
      && response.Ran? && response.resumed
      && InteractiveEnds(db, st, Told(db, i, run, LedgerModel.Interactive, v), end, now, after, stored, response.ending)
  {
    var intent := Told(db, i, run, LedgerModel.Interactive, v);
    UnreportedRead(st, t.key);
    assert StartsOn(db, i, run, LedgerModel.Interactive, t.expected, intent, v);
    StartLaws.ResumeAnswers(db, i, run, LedgerModel.Interactive, t.expected, intent);
    InteractiveEnding(db, st, intent, end, w, now);
  }

  // ----- a new request

  /** Its item id, dedupe key and idempotency key are new to the queue. */
  ghost predicate Enqueueable(db: Db, t: I.Trigger) {
    && t.item !in db.items
    && forall i :: i in db.items ==> db.items[i].dedupeKey != t.dedupeKey && db.items[i].key != t.key
  }

  /** The item and key a new request leaves in the tables before its run is started. */
  ghost predicate Enqueued(before: Db, after: Db, t: I.Trigger, now: int) {
    && after.items == before.items[t.item := Item(
         t.topic, "run.execute", Queued, t.runId, t.dedupeKey, t.key, 0, 1, now, Payload(t.objective, [t.item]), None, None, None)]
    && after.keys == before.keys[t.key := KeyRow(t.digest, None)]
    && after.runs == before.runs && after.links == before.links && after.snapshots == before.snapshots && after.audit == before.audit
  }

  lemma EnqueueRead(db: Db, t: I.Trigger, now: int)
    requires t.key !in db.keys
    ensures I.EnqueueStep(db, t, now).1 == Done <==> Enqueueable(db, t)
    ensures Enqueueable(db, t) ==> Enqueued(db, I.EnqueueStep(db, t, now).0, t, now)
  {
  }

  lemma EnqueueKeepsSound(db: Db, t: I.Trigger, now: int)
    requires Sound(db)
    ensures Sound(I.EnqueueStep(db, t, now).0)
  {
    var reserved := Apply(db, Reserve(t.key, t.digest, None)).0;
    SoundStep(db, Reserve(t.key, t.digest, None));
    SoundStep(reserved, Enqueue(t.item, I.NewItem(t, now)));
  }

  /** The item just enqueued may be claimed for a run that is new. */
  lemma NewItemMayClaim(db: Db, queued: Db, t: I.Trigger, now: int)
    requires Sound(db) && t.item !in db.items && Enqueued(db, queued, t, now)
    ensures MayClaim(queued, t.item, t.runId, now) <==> t.runId !in db.runs
  {
    assert forall r :: r in db.runs ==> db.runs[r].item in db.items;
  }

  /** The latest version is stored, expected and attackable. */
  ghost predicate Launchable(db: Db, t: I.Trigger, v: nat) {
    && IsLatest(db.snapshots, t.topic, Some(v)) && AsExpected(t.expected, v)
    && (t.topic, v) in db.snapshots && db.snapshots[(t.topic, v)].currentBest != []
  }

  ghost predicate IsLatest(stored: O.Snapshots, topic: string, v: Option<nat>) {
    O.IsLatest(stored, topic, v)
  }

  /** What the run of a new request is told. */
  ghost function ToldFirst(db: Db, t: I.Trigger, v: nat): O.Intent
    requires (t.topic, v) in db.snapshots
  {
    var s := db.snapshots[(t.topic, v)];
    O.Intent(
      O.Request(t.runId, t.topic, LedgerModel.Interactive, t.objective, s, [O.Selection(t.item, "run.execute", t.objective)], t.key),
      t.item, v, CodexExecuting, Frontier(s, true, true, true, true))
  }

  lemma FirstStarts(db: Db, queued: Db, t: I.Trigger, w: string, now: int, intent: O.Intent)
    requires Sound(db) && Sound(queued) && Enqueueable(db, t) && Enqueued(db, queued, t, now) && t.key !in db.keys
    ensures O.StartStep(queued, t.item, t.runId, w, LedgerModel.Interactive, t.expected, now).1 == O.Ok(intent) <==>
      t.runId !in db.runs && exists v: nat :: Launchable(db, t, v) && intent == ToldFirst(db, t, v)
  {
    StartsIff(queued, t.item, t.runId, w, LedgerModel.Interactive, t.expected, now, intent);
    NewItemMayClaim(db, queued, t, now);
    if t.runId !in db.runs {
      forall v: nat ensures
        StartsOn(queued, t.item, t.runId, LedgerModel.Interactive, t.expected, intent, v) <==>
        Launchable(db, t, v) && intent == ToldFirst(db, t, v) {}
    }
  }

  ghost predicate Fresh(db: Db, t: I.Trigger) {
    t.key !in db.keys && Enqueueable(db, t) && t.runId !in db.runs
  }

  lemma FirstStepIs(db: Db, st: Store, t: I.Trigger, end: I.RuntimeEnd, w: string, now: int, v: nat)
    requires Sound(db) && Fresh(db, t) && Launchable(db, t, v)
    ensures I.TriggerStep(db, st, t, end, w, now) == I.LaunchStep(I.EnqueueStep(db, t, now).0, st, t, end, w, now)
  {
    EnqueueRead(db, t, now);
    LatestExists(db.snapshots, t.topic);
  }

  /** A new request on a topic whose latest snapshot can be attacked is run: its item is enqueued and claimed for its run,
      which executes on that snapshot, and it ends as executions of claimed items do. */
  lemma FreshRequestRuns(db: Db, st: Store, t: I.Trigger, end: I.RuntimeEnd, w: string, now: int, v: nat)
    requires Sound(db) && Fresh(db, t) && Launchable(db, t, v)
    requires RowsFree(st, ToldFirst(db, t, v))
    ensures var (after, stored, response) := I.TriggerStep(db, st, t, end, w, now);
      var intent := ToldFirst(db, t, v);
      && response.Ran? && !response.resumed
      && exists started :: RunsOn(db, started, t, v, w, now) &&
           InteractiveEnds(started, st, intent, end, now, after, stored, response.ending)
  {
    var queued := I.EnqueueStep(db, t, now).0;
    var intent := ToldFirst(db, t, v);
    EnqueueRead(db, t, now);
    EnqueueKeepsSound(db, t, now);
    FirstStepIs(db, st, t, end, w, now, v);
    FirstStarts(db, queued, t, w, now, intent);
    NewItemMayClaim(db, queued, t, now);
    var started := O.StartStep(queued, t.item, t.runId, w, LedgerModel.Interactive, t.expected, now).0;
    StartOwns(queued, t.item, t.runId, w, LedgerModel.Interactive, t.expected, now);
    FreshStarted(db, queued, t, v, w, now);
    InteractiveEnding(started, st, intent, end, w, now);
  }

  /** The tables once a new request is started: its item is claimed and its run executes on the version. */
  ghost predicate RunsOn(db: Db, started: Db, t: I.Trigger, v: nat, w: string, now: int) {
    && started.items == db.items[t.item := Item(
         t.topic, "run.execute", Claimed, t.runId, t.dedupeKey, t.key, 0, 1, now, Payload(t.objective, [t.item]),
         Some(w), Some(now), None)]
    && started.runs ==
         db.runs[t.runId := RunRow(t.topic, t.item, t.key, LedgerModel.Interactive, CodexExecuting, Some(v))]
    && started.keys == db.keys[t.key := KeyRow(t.digest, Some(t.runId))]
    && started.snapshots == db.snapshots && started.audit == db.audit
  }

  lemma FreshStartOk(db: Db, queued: Db, t: I.Trigger, v: nat, w: string, now: int)
    requires Sound(db) && Sound(queued) && Fresh(db, t) && Launchable(db, t, v) && Enqueued(db, queued, t, now)
    ensures var (started, answer) := O.StartStep(queued, t.item, t.runId, w, LedgerModel.Interactive, t.expected, now);
      answer.Ok? && Left(queued, started, answer, t.item, t.runId, w, LedgerModel.Interactive, now)
  {
    NewItemMayClaim(db, queued, t, now);
    StartLeaves(queued, t.item, t.runId, w, LedgerModel.Interactive, t.expected, now);
    FirstStarts(db, queued, t, w, now, ToldFirst(db, t, v));
  }

  lemma FreshRow(db: Db, queued: Db, started: Db, answer: O.Answer, t: I.Trigger, v: nat, w: string, now: int)
    requires Fresh(db, t) && Launchable(db, t, v) && Enqueued(db, queued, t, now) && answer.Ok?
    requires Left(queued, started, answer, t.item, t.runId, w, LedgerModel.Interactive, now)
    ensures started.runs[t.runId] == RunRow(t.topic, t.item, t.key, LedgerModel.Interactive, CodexExecuting, Some(v))
  {
    assert Unstarted(queued, t.runId);
    var u: nat :| O.IsLatest(queued.snapshots, queued.items[t.item].topic, Some(u)) && started.runs[t.runId] ==
      ClaimedRow(queued, t.item, t.runId, LedgerModel.Interactive).(status := CodexExecuting, snapshot := Some(u));
    assert u == v;
  }

  lemma FreshStarted(db: Db, queued: Db, t: I.Trigger, v: nat, w: string, now: int)
    requires Sound(db) && Sound(queued) && Fresh(db, t) && Launchable(db, t, v) && Enqueued(db, queued, t, now)
    ensures RunsOn(db, O.StartStep(queued, t.item, t.runId, w, LedgerModel.Interactive, t.expected, now).0, t, v, w, now)
  {
    var (started, answer) := O.StartStep(queued, t.item, t.runId, w, LedgerModel.Interactive, t.expected, now);
    FreshStartOk(db, queued, t, v, w, now);
    FreshRow(db, queued, started, answer, t, v, w, now);
    FreshIs(db, queued, started, t, v, w, now);
  }

  lemma FreshIs(db: Db, queued: Db, started: Db, t: I.Trigger, v: nat, w: string, now: int)
    requires Fresh(db, t) && Enqueued(db, queued, t, now)
    requires Holds(queued, started, t.item, w, now) && OtherRunsKept(queued, started, t.item, t.runId)
    requires t.runId in started.runs
    requires started.runs[t.runId] == RunRow(t.topic, t.item, t.key, LedgerModel.Interactive, CodexExecuting, Some(v))
    ensures RunsOn(db, started, t, v, w, now)
  {
  }

  // ----- why a new request does not run

  ghost predicate Expected(db: Db, t: I.Trigger, v: nat) {
    IsLatest(db.snapshots, t.topic, Some(v)) && AsExpected(t.expected, v)
  }

  /** No snapshot, not the expected one, a clash with an item or run already there, or nothing to attack. */
  ghost predicate FirstFailsWith(db: Db, t: I.Trigger, f: O.Failure) {
    match f
    case MissingSnapshot => IsLatest(db.snapshots, t.topic, None)
    case StaleSnapshot => exists v: nat :: IsLatest(db.snapshots, t.topic, Some(v)) && !AsExpected(t.expected, v)
    case LedgerRefused(e) =>
      e == IntegrityError && (exists v: nat :: Expected(db, t, v)) && (!Enqueueable(db, t) || t.runId in db.runs)
    case InvalidSnapshot =>
      && Enqueueable(db, t) && t.runId !in db.runs
      && exists v: nat :: Expected(db, t, v) && (t.topic, v) in db.snapshots && db.snapshots[(t.topic, v)].currentBest == []
    case _ => false
  }

  lemma ClashFails(db: Db, queued: Db, t: I.Trigger, w: string, now: int)
    requires Sound(db) && Sound(queued) && Enqueueable(db, t) && Enqueued(db, queued, t, now) && t.runId in db.runs
    ensures O.StartStep(queued, t.item, t.runId, w, LedgerModel.Interactive, t.expected, now).1 ==
      O.Err(O.LedgerRefused(IntegrityError))
  {
    NewItemRunClash(db, queued, t, now);
    ClaimAnswers(queued, t.item, w, t.runId, LedgerModel.Interactive, now);
    UnclaimedStart(queued, t.item, t.runId, w, LedgerModel.Interactive, t.expected, now);
  }

  lemma UnattackableFails(db: Db, queued: Db, t: I.Trigger, w: string, now: int, f: O.Failure, v: nat)
    requires Sound(db) && Sound(queued) && Fresh(db, t) && Enqueued(db, queued, t, now)
    requires Expected(db, t, v) && (t.topic, v) in db.snapshots
    ensures O.StartStep(queued, t.item, t.runId, w, LedgerModel.Interactive, t.expected, now).1 == O.Err(f) <==>
      f == O.InvalidSnapshot && db.snapshots[(t.topic, v)].currentBest == []
  {
    NewItemMayClaim(db, queued, t, now);
    ClaimedFails(queued, t.item, t.runId, w, LedgerModel.Interactive, t.expected, now, f);
    UnusableBasis(queued, t.item, t.runId, t.expected, f);
    BasisRead(queued, t.item, t.runId, Some(v));
  }

  lemma NewItemRunClash(db: Db, queued: Db, t: I.Trigger, now: int)
    requires Sound(db) && t.item !in db.items && Enqueued(db, queued, t, now) && t.runId in db.runs
    ensures Available(queued, t.item, now) && NeverRun(queued, t.item) && queued.items[t.item].state == Queued
    ensures !CanRunFirst(queued, t.item, t.runId)
  {
    assert forall r :: r in db.runs ==> db.runs[r].item in db.items;
  }

  lemma FirstStepUnfolds(db: Db, st: Store, t: I.Trigger, end: I.RuntimeEnd, w: string, now: int, v: Option<nat>)
    requires Sound(db) && t.key !in db.keys && IsLatest(db.snapshots, t.topic, v)
    ensures var response := I.TriggerStep(db, st, t, end, w, now).2;
      match v
      case None => response == I.NotStarted(O.MissingSnapshot)
      case Some(u) =>
        if !AsExpected(t.expected, u) then response == I.NotStarted(O.StaleSnapshot)
        else if !Enqueueable(db, t) then response == I.NotStarted(O.LedgerRefused(IntegrityError))
        else response == I.LaunchStep(I.EnqueueStep(db, t, now).0, st, t, end, w, now).2
  {
    EnqueueRead(db, t, now);
    LatestExists(db.snapshots, t.topic);
    assert v == O.Latest(db.snapshots, t.topic);
  }

  lemma LaunchAnswer(queued: Db, st: Store, t: I.Trigger, end: I.RuntimeEnd, w: string, now: int, f: O.Failure)
    ensures I.LaunchStep(queued, st, t, end, w, now).2 == I.NotStarted(f) <==>
      O.StartStep(queued, t.item, t.runId, w, LedgerModel.Interactive, t.expected, now).1 == O.Err(f)
  {
  }

  lemma FailsByVersion(db: Db, t: I.Trigger, f: O.Failure, v: Option<nat>)
    requires IsLatest(db.snapshots, t.topic, v)
    ensures FirstFailsWith(db, t, f) <==>
      match v
      case None => f == O.MissingSnapshot
      case Some(u) =>
        if !AsExpected(t.expected, u) then f == O.StaleSnapshot
        else if !Enqueueable(db, t) || t.runId in db.runs then f == O.LedgerRefused(IntegrityError)
        else f == O.InvalidSnapshot && (t.topic, u) in db.snapshots && db.snapshots[(t.topic, u)].currentBest == []
  {
    OneLatest(db, t, v);
  }

  lemma EnqueuedFails(db: Db, st: Store, t: I.Trigger, end: I.RuntimeEnd, w: string, now: int, f: O.Failure, v: nat)
    requires Sound(db) && t.key !in db.keys && Enqueueable(db, t) && Expected(db, t, v) && (t.topic, v) in db.snapshots
    ensures I.LaunchStep(I.EnqueueStep(db, t, now).0, st, t, end, w, now).2 == I.NotStarted(f) <==>
      if t.runId in db.runs then f == O.LedgerRefused(IntegrityError)
      else f == O.InvalidSnapshot && db.snapshots[(t.topic, v)].currentBest == []
  {
    var queued := I.EnqueueStep(db, t, now).0;
    EnqueueRead(db, t, now);
    EnqueueKeepsSound(db, t, now);
    LaunchAnswer(queued, st, t, end, w, now, f);
    if t.runId in db.runs { ClashFails(db, queued, t, w, now); } else { UnattackableFails(db, queued, t, w, now, f, v); }
  }

  /** Why a new request is not run, and exactly when. */
  lemma NotStartedIff(db: Db, st: Store, t: I.Trigger, end: I.RuntimeEnd, w: string, now: int, f: O.Failure)
    requires Sound(db) && t.key !in db.keys
    ensures I.TriggerStep(db, st, t, end, w, now).2 == I.NotStarted(f) <==> FirstFailsWith(db, t, f)
  {
    var v := HasLatest(db.snapshots, t.topic);
    FirstStepUnfolds(db, st, t, end, w, now, v);
    FailsByVersion(db, t, f, v);
    OneLatest(db, t, v);
    if v.Some? && AsExpected(t.expected, v.value) && Enqueueable(db, t) {
      EnqueuedFails(db, st, t, end, w, now, f, v.value);
    }
  }

  lemma OneLatest(db: Db, t: I.Trigger, v: Option<nat>)
    requires IsLatest(db.snapshots, t.topic, v)
    ensures forall u :: IsLatest(db.snapshots, t.topic, u) <==> u == v
    ensures v.Some? ==> (t.topic, v.value) in db.snapshots
    ensures v.Some? && AsExpected(t.expected, v.value) ==> Expected(db, t, v.value)
  {
  }
}
