/** The end of a run: its proposal is accepted, canonicalized and stored with a report, and can be replayed from there. */
module Reports {
  import opened Prelude
  import opened Proposals
  import opened Canonicalization
  import opened Pipeline
  import opened LedgerModel
  import Orchestrator

  /** A digest stands for the sorted graph it was computed from. */
  datatype GraphDigest = DigestOf(nodes: multiset<Node>, edges: multiset<Edge>)

  datatype GraphWrite = GraphWrite(
    topic: string, nodes: seq<Node>, edges: multiset<Edge>, digest: GraphDigest, nodeCount: nat, edgeCount: nat)

  datatype StateUpdate = StateUpdate(digest: GraphDigest, nodeCount: nat, edgeCount: nat)

  datatype ReportStatus = Finished | FailedRun | Quarantined

  datatype Report = Report(
    runId: string, topic: string, key: string, version: nat, status: ReportStatus, update: Option<StateUpdate>)

  /** Both tables have one row per run; a report's idempotency key is unique too. */
  datatype Store = Store(reports: map<string, Report>, graphs: map<string, GraphWrite>)

  function RecomputedDigest(g: GraphWrite): GraphDigest {
    DigestOf(multiset(g.nodes), g.edges)
  }

  function UpdateOf(g: GraphWrite): StateUpdate {
    StateUpdate(g.digest, g.nodeCount, g.edgeCount)
  }

  predicate ReportConflicts(st: Store, r: Report) {
    r.runId in st.reports || exists k | k in st.reports :: st.reports[k].key == r.key
  }

  /** The graph write and the report are inserted together or not at all. */
  function SuccessStep(st: Store, r: Report, g: GraphWrite): (Store, bool) {
    if r.runId in st.graphs || ReportConflicts(st, r) then (st, false)
    else (Store(st.reports[r.runId := r], st.graphs[r.runId := g]), true)
  }

  function FailureStep(st: Store, r: Report): (Store, bool) {
    if ReportConflicts(st, r) then (st, false) else (st.(reports := st.reports[r.runId := r]), true)
  }

  datatype Replay = Replayed(digest: GraphDigest) | ArtifactMissing | Drifted

  function ReplayRun(db: Db, st: Store, run: string): Replay {
    if run !in db.runs || run !in st.reports || run !in st.graphs then ArtifactMissing else
      var g, r := st.graphs[run], st.reports[run];
      if RecomputedDigest(g) != g.digest then Drifted
      else if r.update.Some? && r.update.value != UpdateOf(g) then Drifted
      else Replayed(g.digest)
  }

  // ----- what a run's proposal becomes

  function GraphOf(topic: string, r: Result): GraphWrite {
    GraphWrite(topic, r.nodes, r.edges, DigestOf(multiset(r.nodes), r.edges), |r.nodes|, |r.edges|)
  }

  function ReportOf(intent: Orchestrator.Intent, status: ReportStatus, update: Option<StateUpdate>): Report {
    Report(intent.request.runId, intent.request.topic, intent.request.key, intent.version, status, update)
  }

  /** What canonicalization makes of a proposal for an intent. */
  function Graph(intent: Orchestrator.Intent, p: Proposal): Result
    requires intent.frontier.snapshot.currentBest != []
  {
    Canonical(p, ServiceContext(intent.frontier.snapshot, intent.request.runId))
  }

  /** Every current best has evidence-backed support and challenge in the graph. */
  ghost predicate ArguesBothSides(g: GraphWrite, intent: Orchestrator.Intent, p: Proposal)
    requires intent.frontier.snapshot.currentBest != []
  {
    var s := intent.frontier.snapshot;
    var prov := ProvenanceOf(p, ServiceContext(s, intent.request.runId)).id;
    forall h :: h in CurrentBestIds(s) ==> Backed(g.edges, prov, h, Supports) && Backed(g.edges, prov, h, Challenges)
  }

  // ----- the tables as they run

  ghost predicate KeysUnique(st: Store) {
    forall a, b :: a in st.reports && b in st.reports && st.reports[a].key == st.reports[b].key ==> a == b
  }

  ghost function ReportWithKey(st: Store, key: string): (r: Option<Report>)
    ensures r == None <==> forall run :: run in st.reports ==> st.reports[run].key != key
    ensures r.Some? ==> exists run :: run in st.reports && st.reports[run] == r.value && r.value.key == key
  {
    if run :| run in st.reports && st.reports[run].key == key then Some(st.reports[run]) else None
  }

  class ReportTables {
    var reports: map<string, Report>
    var graphs: map<string, GraphWrite>

    constructor ()
      ensures View() == Store(map[], map[])
    {
      reports, graphs := map[], map[];
    }

    ghost function View(): Store
      reads this
    {
      Store(reports, graphs)
    }

    method RecordSuccess(r: Report, g: GraphWrite) returns (ok: bool)
      modifies this
      ensures (View(), ok) == SuccessStep(old(View()), r, g)
      ensures KeysUnique(old(View())) ==> KeysUnique(View())
    {
      if r.runId in graphs || r.runId in reports || exists k | k in reports :: reports[k].key == r.key {
        return false;
      }
      graphs := graphs[r.runId := g];
      reports := reports[r.runId := r];
      ok := true;
    }

    method RecordFailure(r: Report) returns (ok: bool)
      modifies this
      ensures (View(), ok) == FailureStep(old(View()), r)
      ensures KeysUnique(old(View())) ==> KeysUnique(View())
    {
      ok := r.runId !in reports && !(exists k | k in reports :: reports[k].key == r.key);
      if ok {
        reports := reports[r.runId := r];
      }
    }

    /** The one report with the key, if there is one. */
    method FetchByKey(key: string) returns (found: Option<Report>)
      requires KeysUnique(View())
      ensures found == ReportWithKey(View(), key)
    {
      found := None;
      var rest := reports.Keys;
      while rest != {} && found.None?
        invariant rest <= reports.Keys
        invariant found.Some? ==> found.value.key == key && exists run :: run in reports && reports[run] == found.value
        invariant found.None? ==> forall run :: run in reports.Keys - rest ==> reports[run].key != key
        decreases rest
      {
        var run :| run in rest;
        rest := rest - {run};
        if reports[run].key == key {
          found := Some(reports[run]);
        }
      }
    }
  }
}
