/** Reports and graph writes over whole histories: what is past PERSISTING can be replayed, reports are final, and a run
    whose failure was reported never completes. */
module ReportHistory {
  import opened Prelude
  import opened LedgerModel
  import opened LedgerSafety
  import L = RunLifecycle
  import opened Proposals
  import opened Reports
  import opened Interactive
  import O = Orchestrator

  datatype Scene = Scene(life: L.World, st: Store)

  datatype Event =
    | Life(ev: L.Event)
    | StoreSuccess(report: Report, graph: GraphWrite)
    | StoreFailure(report: Report)

  function Step(w: Scene, ev: Event): Scene {
    match ev
    case Life(e) => w.(life := L.Step(w.life, e))
    case StoreSuccess(r, g) => w.(st := SuccessStep(w.st, r, g).0)
    case StoreFailure(r) => w.(st := FailureStep(w.st, r).0)
  }

  function After(evs: seq<Event>): Scene {
    if |evs| == 0 then Scene(L.World(EmptyDb(), map[]), Store(map[], map[])) else Step(After(evs[..|evs| - 1]), evs[|evs| - 1])
  }

  /** The run had this snapshot version pinned at some moment of the history. */
  ghost predicate WasPinned(evs: seq<Event>, run: string, version: nat) {
    exists j :: 0 <= j <= |evs| && PinnedAt(After(evs[..j]), run, version)
  }

  ghost predicate PinnedAt(w: Scene, run: string, version: nat) {
    run in w.life.db.runs && w.life.db.runs[run].snapshot == Some(version)
  }

  ghost predicate ReportsRun(w: Scene, r: Report) {
    r.runId in w.life.db.runs && r.key == w.life.db.runs[r.runId].key && r.topic == w.life.db.runs[r.runId].topic
  }

  /** How the services use the store: a report is of a run that exists, under its key and topic; a success carries the digest
      and counts of its graph, a failure none; and a service moves a run to SUMMARIZING only once its graph is stored. */
  ghost predicate ProperEvent(w: Scene, ev: Event) {
    match ev
    case Life(e) => L.ProperEvent(w.life, e) && (e.Read? && e.to == Summarizing ==> e.runId in w.st.graphs)
    case StoreSuccess(r, g) => ReportsRun(w, r) && r.update == Some(UpdateOf(g)) && g.digest == RecomputedDigest(g)
    case StoreFailure(r) => ReportsRun(w, r) && r.update == None
  }

  /** And its version is one the run was started on. */
  ghost predicate StartedVersion(evs: seq<Event>, ev: Event) {
    match ev
    case Life(_) => true
    case StoreSuccess(r, _) => WasPinned(evs, r.runId, r.version)
    case StoreFailure(r) => WasPinned(evs, r.runId, r.version)
  }

  ghost predicate ProperTrace(evs: seq<Event>) {
    forall k :: 0 <= k < |evs| ==> ProperEvent(After(evs[..k]), evs[k]) && StartedVersion(evs[..k], evs[k])
  }

  lemma ProperUpTo(evs: seq<Event>, n: nat)
    requires n <= |evs| && ProperTrace(evs)
    ensures ProperTrace(evs[..n])
  {
    var init := evs[..n];
    forall k | 0 <= k < n ensures ProperEvent(After(init[..k]), init[k]) && StartedVersion(init[..k], init[k]) {
      assert init[..k] == evs[..k] && init[k] == evs[k];
    }
  }

  lemma ProperPrefix(evs: seq<Event>)
    requires |evs| > 0 && ProperTrace(evs)
    ensures ProperTrace(evs[..|evs| - 1])
    ensures ProperEvent(After(evs[..|evs| - 1]), evs[|evs| - 1]) && StartedVersion(evs[..|evs| - 1], evs[|evs| - 1])
  {
    ProperUpTo(evs, |evs| - 1);
  }

  // ----- what the services keep

  /** Every stored graph has its report, with its digest and counts, and its run. */
  ghost predicate Matched(w: Scene) {
    forall run :: run in w.st.graphs ==>
      && run in w.life.db.runs && run in w.st.reports
      && w.st.reports[run].update == Some(UpdateOf(w.st.graphs[run]))
      && w.st.graphs[run].digest == RecomputedDigest(w.st.graphs[run])
  }

  ghost predicate PastPersisting(s: RunStatus) {
    s == Summarizing || s == RunCompleted
  }

  /** What is past PERSISTING, or about to be, has a stored graph. */
  ghost predicate GraphsStored(w: Scene) {
    && (forall run :: run in w.life.db.runs && PastPersisting(w.life.db.runs[run].status) ==> run in w.st.graphs)
    && (forall a :: a in w.life.pending && w.life.pending[a].to == Summarizing ==> w.life.pending[a].run in w.st.graphs)
    && (forall a :: a in w.life.pending && w.life.pending[a].to == RunCompleted ==> w.life.pending[a].from == Summarizing)
  }

  lemma StepKeepsMatched(w: Scene, ev: Event)
    requires Matched(w) && ProperEvent(w, ev)
    ensures Matched(Step(w, ev))
  {
    if ev.Life? { L.StepGrows(w.life, ev.ev); }
  }

  lemma StepKeepsGraphs(w: Scene, ev: Event)
    ensures forall run :: run in w.st.graphs ==> run in Step(w, ev).st.graphs && Step(w, ev).st.graphs[run] == w.st.graphs[run]
    ensures forall run :: run in w.st.reports ==> run in Step(w, ev).st.reports && Step(w, ev).st.reports[run] == w.st.reports[run]
  {
  }

  lemma LifeKeepsGraphsStored(w: Scene, ev: L.Event)
    requires GraphsStored(w) && ProperEvent(w, Life(ev))
    ensures GraphsStored(Step(w, Life(ev)))
  {
    var after := Step(w, Life(ev));
    forall run | run in after.life.db.runs && PastPersisting(after.life.db.runs[run].status) ensures run in after.st.graphs {
      match ev
      case Ledger(op) => L.ApplyMoves(w.life.db, op, run);
      case Read(_, _, _, _) =>
      case Swap(_) =>
    }
  }

  lemma {:induction false} Invariants(evs: seq<Event>)
    requires ProperTrace(evs)
    ensures Matched(After(evs)) && GraphsStored(After(evs))
  {
    if |evs| != 0 {
      var w, ev := After(evs[..|evs| - 1]), evs[|evs| - 1];
      ProperPrefix(evs);
      Invariants(evs[..|evs| - 1]);
      StepKeepsMatched(w, ev);
      StepKeepsGraphs(w, ev);
      if ev.Life? { LifeKeepsGraphsStored(w, ev.ev); }
    }
  }

  /** Whatever happened, a run past PERSISTING has a stored graph that replay accepts, with the reported digest and counts. */
  lemma PastPersistingReplays(evs: seq<Event>, run: string)
    requires ProperTrace(evs)
    requires var db := After(evs).life.db; run in db.runs && PastPersisting(db.runs[run].status)
    ensures var w := After(evs);
      && run in w.st.graphs && run in w.st.reports
      && w.st.reports[run].update == Some(UpdateOf(w.st.graphs[run]))
      && ReplayRun(w.life.db, w.st, run) == Replayed(w.st.graphs[run].digest)
  {
    Invariants(evs);
  }

  /** What replay accepts, and what it finds missing. */
  lemma ReplaysIff(db: Db, st: Store, run: string, digest: GraphDigest)
    ensures ReplayRun(db, st, run) == ArtifactMissing <==> run !in db.runs || run !in st.reports || run !in st.graphs
    ensures ReplayRun(db, st, run) == Replayed(digest) <==>
      && run in db.runs && run in st.reports && run in st.graphs
      && digest == st.graphs[run].digest == DigestOf(multiset(st.graphs[run].nodes), st.graphs[run].edges)
      && forall u :: st.reports[run].update == Some(u) ==>
           u == StateUpdate(digest, st.graphs[run].nodeCount, st.graphs[run].edgeCount)
  {
  }

  ghost predicate SameGraph(g: GraphWrite, h: GraphWrite) {
    && multiset(g.nodes) == multiset(h.nodes) && g.edges == h.edges
    && g.digest == h.digest && g.nodeCount == h.nodeCount && g.edgeCount == h.edgeCount
  }

  /** Replay detects every alteration of a stored graph: exchanging it for one with other nodes, edges, digest or counts is
      answered as a drift. */
  lemma AlterationsAreDetected(evs: seq<Event>, run: string, altered: GraphWrite)
    requires ProperTrace(evs) && run in After(evs).st.graphs
    ensures var w := After(evs);
      ReplayRun(w.life.db, w.st.(graphs := w.st.graphs[run := altered]), run) ==
        if SameGraph(altered, w.st.graphs[run]) then Replayed(w.st.graphs[run].digest) else Drifted
  {
    Invariants(evs);
  }

  // ----- reports are final

  lemma {:induction false} StoreOnlyGrows(evs: seq<Event>, k: nat, run: string)
    requires k <= |evs|
    ensures run in After(evs[..k]).st.graphs ==> run in After(evs).st.graphs
    ensures run in After(evs[..k]).st.reports ==>
      run in After(evs).st.reports && After(evs).st.reports[run] == After(evs[..k]).st.reports[run]
    decreases |evs|
  {
    if k == |evs| {
      assert evs[..k] == evs;
    } else {
      var init := evs[..|evs| - 1];
      assert init[..k] == evs[..k];
      StoreOnlyGrows(init, k, run);
      StepKeepsGraphs(After(init), evs[|evs| - 1]);
    }
  }

  lemma {:induction false} NoGraphAfterReport(evs: seq<Event>, k: nat, run: string)
    requires k <= |evs| && run in After(evs[..k]).st.reports && run !in After(evs[..k]).st.graphs
    ensures run !in After(evs).st.graphs
    decreases |evs|
  {
    if k == |evs| {
      assert evs[..k] == evs;
    } else {
      var init := evs[..|evs| - 1];
      assert init[..k] == evs[..k];
      NoGraphAfterReport(init, k, run);
      StoreOnlyGrows(init, k, run);
    }
  }

  /** A run whose failure was reported never completes and never stores a graph, even if its item is requeued and claimed
      again: the report row blocks the insertion of a success. */
  lemma ReportedFailureIsFinal(evs: seq<Event>, k: nat, run: string)
    requires ProperTrace(evs) && k <= |evs|
    requires run in After(evs[..k]).st.reports && run !in After(evs[..k]).st.graphs
    ensures run in After(evs).life.db.runs ==> After(evs).life.db.runs[run].status != RunCompleted
    ensures run in After(evs).st.reports && After(evs).st.reports[run] == After(evs[..k]).st.reports[run]
    ensures ReplayRun(After(evs).life.db, After(evs).st, run) == ArtifactMissing
  {
    NoGraphAfterReport(evs, k, run);
    StoreOnlyGrows(evs, k, run);
    Invariants(evs);
  }

  // ----- triggering a request again

  lemma {:induction false} LifeIsOk(evs: seq<Event>)
    requires ProperTrace(evs)
    ensures L.WorldOk(After(evs).life)
  {
    if |evs| != 0 {
      ProperPrefix(evs);
      LifeIsOk(evs[..|evs| - 1]);
      var ev := evs[|evs| - 1];
      if ev.Life? { L.StepKeepsWorldOk(After(evs[..|evs| - 1]).life, ev.ev); }
    }
  }

  lemma StepGrows(w: Scene, ev: Event)
    ensures L.Grows(w.life.db, Step(w, ev).life.db)
  {
    if ev.Life? { L.StepGrows(w.life, ev.ev); }
  }

  lemma {:induction false} LedgerGrows(evs: seq<Event>, k: nat)
    requires k <= |evs|
    ensures L.Grows(After(evs[..k]).life.db, After(evs).life.db)
    decreases |evs|
  {
    if k == |evs| {
      assert evs[..k] == evs;
    } else {
      var init := evs[..|evs| - 1];
      assert init[..k] == evs[..k];
      LedgerGrows(init, k);
      StepGrows(After(init), evs[|evs| - 1]);
    }
  }

  /** A version a run was ever started on is stored. */
  lemma StartedVersionIsStored(evs: seq<Event>, run: string, version: nat)
    requires ProperTrace(evs) && WasPinned(evs, run, version)
    ensures var db := After(evs).life.db; run in db.runs && (db.runs[run].topic, version) in db.snapshots
  {
    var j :| 0 <= j <= |evs| && PinnedAt(After(evs[..j]), run, version);
    ProperUpTo(evs, j);
    LifeIsOk(evs[..j]);
    assert L.Pinned(After(evs[..j]).life.db, run);
    LedgerGrows(evs, j);
  }

  /** Every stored report is its run's: under its key and topic, on a stored version. */
  ghost predicate ReportFits(w: Scene, run: string)
    requires run in w.st.reports
  {
    var r := w.st.reports[run];
    r.runId == run && ReportsRun(w, r) && (r.topic, r.version) in w.life.db.snapshots
  }

  lemma OldReportFits(w: Scene, ev: Event, run: string)
    requires run in w.st.reports && ReportFits(w, run)
    ensures run in Step(w, ev).st.reports && ReportFits(Step(w, ev), run)
  {
    StepGrows(w, ev);
    StepKeepsGraphs(w, ev);
  }

  lemma NewReportFits(evs: seq<Event>, ev: Event, run: string)
    requires ProperTrace(evs) && ProperEvent(After(evs), ev) && StartedVersion(evs, ev)
    requires run !in After(evs).st.reports && run in Step(After(evs), ev).st.reports
    ensures ReportFits(Step(After(evs), ev), run)
  {
    var r := Step(After(evs), ev).st.reports[run];
    assert !ev.Life? && ev.report == r && r.runId == run;
    StartedVersionIsStored(evs, run, r.version);
  }

  lemma {:induction false} ReportsFit(evs: seq<Event>, run: string)
    requires ProperTrace(evs) && run in After(evs).st.reports
    ensures ReportFits(After(evs), run)
  {
    if |evs| != 0 {
      var init, ev := evs[..|evs| - 1], evs[|evs| - 1];
      ProperPrefix(evs);
      if run in After(init).st.reports {
        ReportsFit(init, run);
        OldReportFits(After(init), ev, run);
      } else {
        NewReportFits(init, ev, run);
      }
    }
  }

  lemma {:induction false} ReportKeysAreUnique(evs: seq<Event>)
    ensures KeysUnique(After(evs).st)
  {
    if |evs| != 0 {
      ReportKeysAreUnique(evs[..|evs| - 1]);
    }
  }

  /** The trigger is the request that led to the run: it has its key and topic, and the digest reserved with the key. */
  ghost predicate TriggersRun(w: Scene, t: Trigger, run: string) {
    && run in w.life.db.runs && t.key == w.life.db.runs[run].key && t.topic == w.life.db.runs[run].topic
    && (t.key in w.life.db.keys ==> t.digest == w.life.db.keys[t.key].digest)
  }

  lemma ReportedIsAnswered(evs: seq<Event>, run: string, t: Trigger, end: RuntimeEnd, worker: string, now: int)
    requires ProperTrace(evs) && run in After(evs).st.reports && TriggersRun(After(evs), t, run)
    ensures var w, r := After(evs), After(evs).st.reports[run];
      TriggerStep(w.life.db, w.st, t, end, worker, now) == (w.life.db, w.st, Duplicate(r, r.version))
  {
    var w := After(evs);
    LifeIsOk(evs);
    ReportsFit(evs, run);
    ReportKeysAreUnique(evs);
    assert ReportWithKey(w.st, t.key) == Some(w.st.reports[run]);
  }

  /** Once any report is stored for a run, from whatever service and whatever the runtime would do now, triggering its request
      again is answered with that very report and leaves ledger and store as they are, at any later time. */
  lemma RetriggerRepeatsTheReport(
    evs: seq<Event>, k: nat, run: string, t: Trigger, end: RuntimeEnd, worker: string, now: int)
    requires ProperTrace(evs) && k <= |evs| && run in After(evs[..k]).st.reports && TriggersRun(After(evs), t, run)
    ensures var w, r := After(evs), After(evs[..k]).st.reports[run];
      TriggerStep(w.life.db, w.st, t, end, worker, now) == (w.life.db, w.st, Duplicate(r, r.version))
  {
    StoreOnlyGrows(evs, k, run);
    ReportedIsAnswered(evs, run, t, end, worker, now);
  }

  // ----- the services' own events

  /** Once a graph is stored for a run, reading its status to move it to SUMMARIZING is proper, whatever happened since. */
  lemma SummarizingIsProper(evs: seq<Event>, k: nat, actor: string, run: string)
    requires k <= |evs| && run in After(evs[..k]).st.graphs
    ensures ProperEvent(After(evs), Life(L.Read(actor, run, Summarizing, None)))
  {
    StoreOnlyGrows(evs, k, run);
  }

  /** The report of an intent that matches its run, with the canonical graph of a proposal, is a proper success. */
  lemma SuccessIsProper(evs: seq<Event>, intent: O.Intent, p: Proposal)
    requires intent.frontier.snapshot.currentBest != [] && O.MatchesRun(After(evs).life.db, intent)
    ensures var g := GraphOf(intent.request.topic, Graph(intent, p));
      var ev := StoreSuccess(ReportOf(intent, Finished, Some(UpdateOf(g))), g);
      ProperEvent(After(evs), ev) && StartedVersion(evs, ev)
  {
    assert evs[..|evs|] == evs;
    assert PinnedAt(After(evs[..|evs|]), intent.request.runId, intent.version);
  }

  /** A failure is reported properly as long as the intent matched its run when it was issued, even if the run moved on. */
  lemma FailureIsProper(evs: seq<Event>, k: nat, intent: O.Intent, status: ReportStatus)
    requires k <= |evs| && O.MatchesRun(After(evs[..k]).life.db, intent)
    ensures var ev := StoreFailure(ReportOf(intent, status, None)); ProperEvent(After(evs), ev) && StartedVersion(evs, ev)
  {
    LedgerGrows(evs, k);
    assert PinnedAt(After(evs[..k]), intent.request.runId, intent.version);
  }

  function StepAll(w: Scene, evs: seq<Event>): Scene {
    if |evs| == 0 then w else Step(StepAll(w, evs[..|evs| - 1]), evs[|evs| - 1])
  }

  ghost predicate ProperFrom(w: Scene, evs: seq<Event>) {
    forall k :: 0 <= k < |evs| ==> ProperEvent(StepAll(w, evs[..k]), evs[k])
  }

  function Move(actor: string, run: string, to: RunStatus): seq<Event> {
    [Life(L.Read(actor, run, to, None)), Life(L.Swap(actor))]
  }

  function Moved(w: Scene, actor: string, run: string, to: RunStatus): Scene
    requires run in w.life.db.runs
  {
    w.(life := L.World(O.WithStatus(w.life.db, run, to, None), w.life.pending - {actor}))
  }

  lemma MoveIsProper(w: Scene, actor: string, run: string, to: RunStatus)
    requires run in w.life.db.runs && to in L.Next(w.life.db.runs[run].status) && to != SelectingFrontier
    requires to == Summarizing ==> run in w.st.graphs
    ensures ProperFrom(w, Move(actor, run, to)) && StepAll(w, Move(actor, run, to)) == Moved(w, actor, run, to)
  {
    var evs := Move(actor, run, to);
    assert evs[..1][..0] == [] && evs[..0] == [];
    assert StepAll(w, evs[..1]) == Step(w, evs[0]);
  }

  lemma {:induction false} StepAllConcat(w: Scene, a: seq<Event>, b: seq<Event>)
    ensures StepAll(w, a + b) == StepAll(StepAll(w, a), b)
  {
    if |b| == 0 {
      assert a + b == a;
    } else {
      assert (a + b)[..|a + b| - 1] == a + b[..|b| - 1];
      StepAllConcat(w, a, b[..|b| - 1]);
    }
  }

  lemma ProperConcat(w: Scene, a: seq<Event>, b: seq<Event>)
    requires ProperFrom(w, a) && ProperFrom(StepAll(w, a), b)
    ensures ProperFrom(w, a + b)
  {
    forall k | 0 <= k < |a + b| ensures ProperEvent(StepAll(w, (a + b)[..k]), (a + b)[k]) {
      if k < |a| {
        assert (a + b)[..k] == a[..k];
      } else {
        assert (a + b)[..k] == a + b[..k - |a|];
        StepAllConcat(w, a, b[..k - |a|]);
      }
    }
  }

  /** What storing a graph does to runs and reports, event by event. */
  function StoringEvents(actor: string, run: string, r: Report, g: GraphWrite): seq<Event> {
    (Move(actor, run, Adjudicating) + Move(actor, run, Persisting)) + [StoreSuccess(r, g)]
    + (Move(actor, run, Summarizing) + Move(actor, run, RunCompleted))
  }

  lemma StoreSuccessIsProper(w: Scene, r: Report, g: GraphWrite)
    requires ProperEvent(w, StoreSuccess(r, g))
    ensures ProperFrom(w, [StoreSuccess(r, g)]) && StepAll(w, [StoreSuccess(r, g)]) == w.(st := SuccessStep(w.st, r, g).0)
  {
    assert [StoreSuccess(r, g)][..0] == [];
  }

  /** The service's events are proper one after the other, and have the effect of storing the graph and completing the run. */
  lemma StoringIsProper(w: Scene, actor: string, intent: O.Intent, g: GraphWrite)
    requires O.MatchesRun(w.life.db, intent) && w.life.db.runs[intent.request.runId].status == Normalizing
    requires g.digest == RecomputedDigest(g) && SuccessStep(w.st, ReportOf(intent, Finished, Some(UpdateOf(g))), g).1
    ensures var r := ReportOf(intent, Finished, Some(UpdateOf(g)));
      var evs := StoringEvents(actor, intent.request.runId, r, g);
      && ProperFrom(w, evs)
      && StepAll(w, evs).life.db == O.WithStatus(w.life.db, intent.request.runId, RunCompleted, None)
      && StepAll(w, evs).st == SuccessStep(w.st, r, g).0
  {
    var r := ReportOf(intent, Finished, Some(UpdateOf(g)));
    StoringFrom(w, actor, intent.request.runId, r, g);
    StoredTwice(w, actor, intent.request.runId, SuccessStep(w.st, r, g).0);
  }

  lemma StoredTwice(w: Scene, actor: string, run: string, st: Store)
    requires run in w.life.db.runs
    ensures var x := Moved(Moved(w, actor, run, Persisting).(st := st), actor, run, RunCompleted);
      x.life.db == O.WithStatus(w.life.db, run, RunCompleted, None) && x.st == st
  {
    assert O.WithStatus(O.WithStatus(w.life.db, run, Persisting, None), run, RunCompleted, None).runs
      == O.WithStatus(w.life.db, run, RunCompleted, None).runs;
  }

  ghost predicate Goes(w: Scene, evs: seq<Event>, x: Scene) {
    ProperFrom(w, evs) && StepAll(w, evs) == x
  }

  lemma GoesOn(w: Scene, a: seq<Event>, x: Scene, b: seq<Event>, y: Scene)
    requires Goes(w, a, x) && Goes(x, b, y)
    ensures Goes(w, a + b, y)
  {
    StepAllConcat(w, a, b);
    ProperConcat(w, a, b);
  }

  lemma MovesTwice(w: Scene, actor: string, run: string, a: RunStatus, b: RunStatus)
    requires run in w.life.db.runs && w.life.db.runs[run].status != SelectingFrontier
    requires a in L.Next(w.life.db.runs[run].status) && b in L.Next(a) && a != SelectingFrontier && b != SelectingFrontier
    requires (a == Summarizing || b == Summarizing) ==> run in w.st.graphs
    ensures Goes(w, Move(actor, run, a) + Move(actor, run, b), Moved(w, actor, run, b))
  {
    MoveIsProper(w, actor, run, a);
    MoveIsProper(Moved(w, actor, run, a), actor, run, b);
    GoesOn(w, Move(actor, run, a), Moved(w, actor, run, a), Move(actor, run, b), Moved(Moved(w, actor, run, a), actor, run, b));
    assert Moved(Moved(w, actor, run, a), actor, run, b).life.db.runs == Moved(w, actor, run, b).life.db.runs;
  }

  lemma StoresBetween(w: Scene, a: seq<Event>, x: Scene, r: Report, g: GraphWrite, b: seq<Event>, y: Scene)
    requires Goes(w, a, x) && ProperEvent(x, StoreSuccess(r, g)) && Goes(x.(st := SuccessStep(x.st, r, g).0), b, y)
    ensures Goes(w, a + [StoreSuccess(r, g)] + b, y)
  {
    StoreSuccessIsProper(x, r, g);
    GoesOn(w, a, x, [StoreSuccess(r, g)], x.(st := SuccessStep(x.st, r, g).0));
    GoesOn(w, a + [StoreSuccess(r, g)], x.(st := SuccessStep(x.st, r, g).0), b, y);
  }

  lemma StoringFrom(w: Scene, actor: string, run: string, r: Report, g: GraphWrite)
    requires run in w.life.db.runs && w.life.db.runs[run].status == Normalizing && r.runId == run
    requires SuccessStep(w.st, r, g).1 && ProperEvent(w, StoreSuccess(r, g))
    ensures Goes(w, StoringEvents(actor, run, r, g),
                 Moved(Moved(w, actor, run, Persisting).(st := SuccessStep(w.st, r, g).0), actor, run, RunCompleted))
  {
    var first := Move(actor, run, Adjudicating) + Move(actor, run, Persisting);
    var last := Move(actor, run, Summarizing) + Move(actor, run, RunCompleted);
    var x := Moved(w, actor, run, Persisting);
    var stored := x.(st := SuccessStep(w.st, r, g).0);
    MovesTwice(w, actor, run, Adjudicating, Persisting);
    MovesTwice(stored, actor, run, Summarizing, RunCompleted);
    StoresBetween(w, first, x, r, g, last, Moved(stored, actor, run, RunCompleted));
  }

  lemma StoreFailureIsProper(w: Scene, r: Report)
    requires ProperEvent(w, StoreFailure(r))
    ensures Goes(w, [StoreFailure(r)], w.(st := FailureStep(w.st, r).0))
  {
    assert [StoreFailure(r)][..0] == [];
  }

  /** Likewise for a quarantined proposal: the run fails and its report is stored. */
  lemma QuarantiningIsProper(w: Scene, actor: string, intent: O.Intent)
    requires O.MatchesRun(w.life.db, intent) && w.life.db.runs[intent.request.runId].status == Normalizing
    ensures var r := ReportOf(intent, Quarantined, None);
      Goes(w, Move(actor, intent.request.runId, Failed) + [StoreFailure(r)],
           Moved(w, actor, intent.request.runId, Failed).(st := FailureStep(w.st, r).0))
  {
    var run, r := intent.request.runId, ReportOf(intent, Quarantined, None);
    var x := Moved(w, actor, run, Failed);
    MoveIsProper(w, actor, run, Failed);
    StoreFailureIsProper(x, r);
    GoesOn(w, Move(actor, run, Failed), x, [StoreFailure(r)], x.(st := FailureStep(w.st, r).0));
  }
}
