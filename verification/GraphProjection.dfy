/** The export projection of a canonical graph and the integrity check the export artifact makes of it. Lists are kept
    in the order the source builds them; the sorts by id applied to its inputs are left to the caller. */
module GraphProjection {
  import opened Prelude
  import opened GraphHistory

  datatype Label = EvidenceLabel | ClaimLabel | HypothesisLabel | ProvenanceLabel | OtherLabel(name: string)

  /** What the projection reads of a node: its label and two of its properties. */
  datatype NodeBody = NodeBody(kind: Label, isCurrentBest: bool, hasStatus: bool)

  datatype EdgeType = Supports | Challenges | Supersedes | Weakens | Retires | DerivedFrom | RecordedIn | OtherType(name: string)

  datatype ExportNodeType =
    TopicNode | ConflictNode | EvidenceExport | ClaimExport | HypothesisExport | ProvenanceExport
  datatype ExportEdgeType =
    VisualizesX | ConflictsWithX | SupportsX | ChallengesX | SupersedesX | WeakensX | RetiresX | DerivedFromX

  datatype ExportNode<Id> = ExportNode(id: Id, kind: ExportNodeType, provenance: set<Id>)
  datatype ExportEdgeId<Id, EdgeId> = TopicEdge(target: Id) | ConflictEdge(conflict: Id, target: Id) | CanonicalEdge(id: EdgeId)
  datatype ExportEdge<Id, EdgeId> = ExportEdge(
    id: ExportEdgeId<Id, EdgeId>, kind: ExportEdgeType, source: Id, target: Id, provenance: set<Id>)

  datatype Explorer<Id> = Explorer(
    currentBest: set<Id>, challengers: set<Id>, conflicts: set<Id>, evidence: set<Id>, provenance: set<Id>)

  datatype Projection<Id, EdgeId> = Projection(
    nodes: seq<ExportNode<Id>>, edges: seq<ExportEdge<Id, EdgeId>>, explorer: Explorer<Id>)

  /** The fields of a topic snapshot that end up in a projection. */
  datatype TopicView<Id> = TopicView(topic: Id, digest: Id, conflicts: seq<Id>)

  // ----- exporting one node or edge

  function ExportType(kind: Label): ExportNodeType {
    match kind
    case EvidenceLabel => EvidenceExport
    case ClaimLabel => ClaimExport
    case HypothesisLabel => HypothesisExport
    case ProvenanceLabel => ProvenanceExport
    case OtherLabel(_) => ClaimExport
  }

  function EdgeExportType(t: EdgeType): Option<ExportEdgeType> {
    match t
    case Supports => Some(SupportsX)
    case Challenges => Some(ChallengesX)
    case Supersedes => Some(SupersedesX)
    case Weakens => Some(WeakensX)
    case Retires => Some(RetiresX)
    case DerivedFrom => Some(DerivedFromX)
    case RecordedIn => Some(DerivedFromX)
    case OtherType(_) => None
  }

  /** Where the graph says a node was recorded. */
  function RecordedTargets<Id(==), EdgeId>(edges: seq<StoredEdge<Id, EdgeId, EdgeType>>, source: Id): set<Id> {
    if |edges| == 0 then {} else
      var e := edges[|edges| - 1];
      RecordedTargets(edges[..|edges| - 1], source) + if e.body == RecordedIn && e.source == source then {e.target} else {}
  }

  function ExportOfNode<Id(==), EdgeId>(edges: seq<StoredEdge<Id, EdgeId, EdgeType>>, n: StoredNode<Id, NodeBody>)
    : ExportNode<Id>
  {
    ExportNode(n.id, ExportType(n.body.kind),
               if n.body.kind == ProvenanceLabel then {} else RecordedTargets(edges, n.id))
  }

  function ExportOfEdge<Id(==), EdgeId>(edges: seq<StoredEdge<Id, EdgeId, EdgeType>>, e: StoredEdge<Id, EdgeId, EdgeType>)
    : Option<ExportEdge<Id, EdgeId>>
  {
    match EdgeExportType(e.body)
    case None => None
    case Some(kind) =>
      Some(ExportEdge(CanonicalEdge(e.id), kind, e.source, e.target,
                      RecordedTargets(edges, e.source) + RecordedTargets(edges, e.target)))
  }

  function Visualized<Id, EdgeId>(view: TopicView<Id>, h: Id): ExportEdge<Id, EdgeId> {
    ExportEdge(TopicEdge(h), VisualizesX, view.topic, h, {view.digest})
  }

  function Contested<Id, EdgeId>(view: TopicView<Id>, c: Id, t: Id): ExportEdge<Id, EdgeId> {
    ExportEdge(ConflictEdge(c, t), ConflictsWithX, c, t, {view.digest})
  }

  predicate IsCurrentBest<Id>(n: StoredNode<Id, NodeBody>) {
    n.body.kind == HypothesisLabel && n.body.isCurrentBest
  }

  predicate IsChallenger<Id>(n: StoredNode<Id, NodeBody>) {
    n.body.kind == HypothesisLabel && !n.body.isCurrentBest && n.body.hasStatus
  }

  // ----- the projection as it runs

  method Project<Id(==, !new), EdgeId(==, !new)>(
    view: TopicView<Id>, nodes: seq<StoredNode<Id, NodeBody>>, edges: seq<StoredEdge<Id, EdgeId, EdgeType>>)
    returns (p: Projection<Id, EdgeId>)
    ensures forall x :: x in p.nodes <==> ExportsNode(view, nodes, edges, x)
    ensures forall x :: x in p.edges <==> ExportsEdge(view, nodes, edges, x)
    ensures p.explorer == ExplorerOf(view, nodes)
  {
    var outNodes := [ExportNode(view.topic, TopicNode, {view.digest})];
    var best: seq<Id>, challengers: seq<Id>, evidence: set<Id>, provenance: set<Id> := [], [], {}, {};
    for i := 0 to |nodes|
      invariant forall x :: x in outNodes <==>
        x == ExportNode(view.topic, TopicNode, {view.digest}) || exists j :: 0 <= j < i && x == ExportOfNode(edges, nodes[j])
      invariant forall id :: id in best <==> exists j :: 0 <= j < i && IsCurrentBest(nodes[j]) && nodes[j].id == id
      invariant forall id :: id in challengers <==> exists j :: 0 <= j < i && IsChallenger(nodes[j]) && nodes[j].id == id
      invariant forall id :: id in evidence <==> exists j :: 0 <= j < i && nodes[j].body.kind == EvidenceLabel && nodes[j].id == id
      invariant forall id :: id in provenance <==> exists j :: 0 <= j < i && nodes[j].body.kind == ProvenanceLabel && nodes[j].id == id
    {
      var n := nodes[i];
      outNodes := outNodes + [ExportOfNode(edges, n)];
      if n.body.kind == HypothesisLabel {
        if n.body.isCurrentBest {
          best := best + [n.id];
        } else if n.body.hasStatus {
          challengers := challengers + [n.id];
        }
      } else if n.body.kind == EvidenceLabel {
        evidence := evidence + {n.id};
      } else if n.body.kind == ProvenanceLabel {
        provenance := provenance + {n.id};
      }
    }
    var topicEdges := DrawTopicEdges(view, best);
    var canonical := DrawCanonicalEdges(edges);
    var conflictNodes, conflictEdges := DrawConflicts(view, best + challengers);
    p := Projection(outNodes + conflictNodes, topicEdges + canonical + conflictEdges,
                    Explorer((set id | id in best), (set id | id in challengers), (set c | c in view.conflicts), evidence, provenance));
    assert p.explorer == ExplorerOf(view, nodes);
    assert forall id :: id in best <==> id in BestIds(nodes);
    assert forall id :: id in best + challengers <==> id in BestIds(nodes) + ChallengerIds(nodes);
    EdgesAssembled(view, nodes, edges, best, best + challengers, topicEdges, canonical, conflictEdges);
  }

  lemma EdgesAssembled<Id(!new), EdgeId(!new)>(
    view: TopicView<Id>, nodes: seq<StoredNode<Id, NodeBody>>, edges: seq<StoredEdge<Id, EdgeId, EdgeType>>,
    best: seq<Id>, targets: seq<Id>,
    topicEdges: seq<ExportEdge<Id, EdgeId>>, canonical: seq<ExportEdge<Id, EdgeId>>, conflictEdges: seq<ExportEdge<Id, EdgeId>>)
    requires forall id :: id in best <==> id in BestIds(nodes)
    requires forall id :: id in targets <==> id in BestIds(nodes) + ChallengerIds(nodes)
    requires forall x :: x in topicEdges <==> exists h :: h in best && x == Visualized(view, h)
    requires forall x :: x in canonical <==> ExportsCanonical(edges, edges, x)
    requires forall x :: x in conflictEdges <==> exists c, t :: c in view.conflicts && t in targets && x == Contested(view, c, t)
    ensures forall x :: x in topicEdges + canonical + conflictEdges <==> ExportsEdge(view, nodes, edges, x)
  {
  }

  method DrawTopicEdges<Id(==, !new), EdgeId(!new)>(view: TopicView<Id>, best: seq<Id>) returns (out: seq<ExportEdge<Id, EdgeId>>)
    ensures forall x :: x in out <==> exists h :: h in best && x == Visualized(view, h)
  {
    out := [];
    for i := 0 to |best|
      invariant forall x :: x in out <==>
        exists h :: h in best[..i] && x == Visualized(view, h)
    {
      assert best[..i + 1] == best[..i] + [best[i]];
      out := out + [Visualized(view, best[i])];
    }
    assert best[..|best|] == best;
  }

  method DrawCanonicalEdges<Id(==, !new), EdgeId(!new)>(edges: seq<StoredEdge<Id, EdgeId, EdgeType>>)
    returns (out: seq<ExportEdge<Id, EdgeId>>)
    ensures forall x :: x in out <==> ExportsCanonical(edges, edges, x)
  {
    out := [];
    for i := 0 to |edges|
      invariant forall x :: x in out <==> ExportsCanonical(edges, edges[..i], x)
    {
      assert edges[..i + 1] == edges[..i] + [edges[i]];
      var exported := ExportOfEdge(edges, edges[i]);
      if exported.Some? {
        out := out + [exported.value];
      }
    }
    assert edges[..|edges|] == edges;
  }

  method DrawConflicts<Id(==, !new), EdgeId(!new)>(view: TopicView<Id>, targets: seq<Id>)
    returns (nodes: seq<ExportNode<Id>>, edges: seq<ExportEdge<Id, EdgeId>>)
    ensures forall x :: x in nodes <==> exists c :: c in view.conflicts && x == ExportNode(c, ConflictNode, {view.digest})
    ensures forall x :: x in edges <==> exists c, t :: c in view.conflicts && t in targets && x == Contested(view, c, t)
  {
    nodes, edges := [], [];
    for i := 0 to |view.conflicts|
      invariant forall x :: x in nodes <==> exists c :: c in view.conflicts[..i] && x == ExportNode(c, ConflictNode, {view.digest})
      invariant forall x :: x in edges <==>
        exists c, t :: c in view.conflicts[..i] && t in targets && x == Contested(view, c, t)
    {
      var c := view.conflicts[i];
      assert view.conflicts[..i + 1] == view.conflicts[..i] + [c];
      nodes := nodes + [ExportNode(c, ConflictNode, {view.digest})];
      var drawn: seq<ExportEdge<Id, EdgeId>> := [];
      for j := 0 to |targets|
        invariant forall x :: x in drawn <==> exists t :: t in targets[..j] && x == Contested(view, c, t)
      {
        assert targets[..j + 1] == targets[..j] + [targets[j]];
        drawn := drawn + [Contested(view, c, targets[j])];
      }
      assert targets[..|targets|] == targets;
      edges := edges + drawn;
    }
    assert view.conflicts[..|view.conflicts|] == view.conflicts;
  }

  // ----- what it exports

  ghost predicate ExportsNode<Id, EdgeId>(
    view: TopicView<Id>, nodes: seq<StoredNode<Id, NodeBody>>, edges: seq<StoredEdge<Id, EdgeId, EdgeType>>, x: ExportNode<Id>)
  {
    || x == ExportNode(view.topic, TopicNode, {view.digest})
    || (exists j :: 0 <= j < |nodes| && x == ExportOfNode(edges, nodes[j]))
    || (exists c :: c in view.conflicts && x == ExportNode(c, ConflictNode, {view.digest}))
  }

  ghost function BestIds<Id>(nodes: seq<StoredNode<Id, NodeBody>>): set<Id> {
    set n | n in nodes && IsCurrentBest(n) :: n.id
  }

  ghost function ChallengerIds<Id>(nodes: seq<StoredNode<Id, NodeBody>>): set<Id> {
    set n | n in nodes && IsChallenger(n) :: n.id
  }

  ghost function ExplorerOf<Id>(view: TopicView<Id>, nodes: seq<StoredNode<Id, NodeBody>>): Explorer<Id> {
    Explorer(BestIds(nodes), ChallengerIds(nodes), (set c | c in view.conflicts),
             (set n | n in nodes && n.body.kind == EvidenceLabel :: n.id),
             (set n | n in nodes && n.body.kind == ProvenanceLabel :: n.id))
  }

  ghost predicate ExportsCanonical<Id, EdgeId>(
    all: seq<StoredEdge<Id, EdgeId, EdgeType>>, some: seq<StoredEdge<Id, EdgeId, EdgeType>>, x: ExportEdge<Id, EdgeId>)
  {
    exists e :: e in some && ExportOfEdge(all, e) == Some(x)
  }

  ghost predicate ExportsEdge<Id, EdgeId>(
    view: TopicView<Id>, nodes: seq<StoredNode<Id, NodeBody>>, edges: seq<StoredEdge<Id, EdgeId, EdgeType>>,
    x: ExportEdge<Id, EdgeId>)
  {
    || (exists h :: h in BestIds(nodes) && x == Visualized(view, h))
    || ExportsCanonical(edges, edges, x)
    || (exists c, t :: c in view.conflicts && t in BestIds(nodes) + ChallengerIds(nodes) && x == Contested(view, c, t))
  }

  // ----- the artifact's own check

  /** What the export artifact refuses to be built without: edges between exported nodes, and memory-explorer entries
      that are exported nodes. */
  predicate ArtifactValid<Id(==), EdgeId(==)>(p: Projection<Id, EdgeId>) {
    var ids := set n | n in p.nodes :: n.id;
    && (forall e | e in p.edges :: e.source in ids && e.target in ids)
    && p.explorer.currentBest + p.explorer.challengers + p.explorer.conflicts + p.explorer.evidence + p.explorer.provenance <= ids
  }

  ghost predicate IsProjection<Id(!new), EdgeId(!new)>(
    view: TopicView<Id>, nodes: seq<StoredNode<Id, NodeBody>>, edges: seq<StoredEdge<Id, EdgeId, EdgeType>>,
    p: Projection<Id, EdgeId>)
  {
    && (forall x :: x in p.nodes <==> ExportsNode(view, nodes, edges, x))
    && (forall x :: x in p.edges <==> ExportsEdge(view, nodes, edges, x))
    && p.explorer == ExplorerOf(view, nodes)
  }

  ghost function VisibleIds<Id>(view: TopicView<Id>, nodes: seq<StoredNode<Id, NodeBody>>): set<Id> {
    {view.topic} + (set n | n in nodes :: n.id) + (set c | c in view.conflicts)
  }

  lemma ExportedIds<Id(!new), EdgeId(!new)>(
    view: TopicView<Id>, nodes: seq<StoredNode<Id, NodeBody>>, edges: seq<StoredEdge<Id, EdgeId, EdgeType>>,
    p: Projection<Id, EdgeId>)
    requires IsProjection(view, nodes, edges, p)
    ensures (set n | n in p.nodes :: n.id) == VisibleIds(view, nodes)
  {
    var ids := set n | n in p.nodes :: n.id;
    forall id | id in VisibleIds(view, nodes) ensures id in ids {
      if id == view.topic {
        assert ExportNode(view.topic, TopicNode, {view.digest}) in p.nodes;
      } else if n :| n in nodes && n.id == id {
        var j :| 0 <= j < |nodes| && nodes[j] == n;
        assert ExportOfNode(edges, nodes[j]) in p.nodes;
      } else {
        assert ExportNode(id, ConflictNode, {view.digest}) in p.nodes;
      }
    }
    forall id | id in ids ensures id in VisibleIds(view, nodes) {
      var x :| x in p.nodes && x.id == id;
      assert ExportsNode(view, nodes, edges, x);
    }
  }

  ghost predicate Exportable<Id, EdgeId>(e: StoredEdge<Id, EdgeId, EdgeType>) {
    EdgeExportType(e.body).Some?
  }

  /** The projection of a graph passes the artifact check exactly when every edge of an exported type has its ends among
      the topic, the graph's nodes and the active conflicts; explorer entries and drawn edges never fail it. */
  lemma ArtifactValidIff<Id(!new), EdgeId(!new)>(
    view: TopicView<Id>, nodes: seq<StoredNode<Id, NodeBody>>, edges: seq<StoredEdge<Id, EdgeId, EdgeType>>,
    p: Projection<Id, EdgeId>)
    requires IsProjection(view, nodes, edges, p)
    ensures ArtifactValid(p) <==> forall e :: e in edges && Exportable(e) ==>
      e.source in VisibleIds(view, nodes) && e.target in VisibleIds(view, nodes)
  {
    ExportedIds(view, nodes, edges, p);
    var ids := VisibleIds(view, nodes);
    assert BestIds(nodes) <= ids && ChallengerIds(nodes) <= ids;
    assert p.explorer.currentBest + p.explorer.challengers + p.explorer.conflicts
      + p.explorer.evidence + p.explorer.provenance <= ids;
    if ArtifactValid(p) {
      forall e | e in edges && Exportable(e) ensures e.source in ids && e.target in ids {
        var x := ExportOfEdge(edges, e).value;
        assert x in p.edges;
      }
    }
    if forall e :: e in edges && Exportable(e) ==> e.source in ids && e.target in ids {
      forall x | x in p.edges ensures x.source in ids && x.target in ids {
        assert ExportsEdge(view, nodes, edges, x);
      }
    }
  }

  lemma {:induction false} RecordedTargetsAre<Id, EdgeId>(edges: seq<StoredEdge<Id, EdgeId, EdgeType>>, source: Id, t: Id)
    ensures t in RecordedTargets(edges, source) <==> exists e :: e in edges && e.body == RecordedIn && e.source == source && e.target == t
  {
    if |edges| != 0 {
      var k := |edges| - 1;
      RecordedTargetsAre(edges[..k], source, t);
      assert edges == edges[..k] + [edges[k]];
    }
  }

  // ----- end to end: any merge of closed writes exports cleanly

  /** A listing of a merged graph holds exactly its entries. */
  ghost predicate Lists<Id(!new), EdgeId(!new)>(
    g: Graph<Id, EdgeId, NodeBody, EdgeType>, nodes: seq<StoredNode<Id, NodeBody>>, edges: seq<StoredEdge<Id, EdgeId, EdgeType>>)
  {
    && (forall n :: n in nodes <==> n.id in g.nodes && g.nodes[n.id] == n)
    && (forall e :: e in edges <==> e.id in g.edges && g.edges[e.id] == e)
  }

  /** Whatever closed writes are merged, and whatever the snapshot says, the projection of the merge is a valid artifact. */
  lemma MergedProjectionIsValid<Key, Id(!new), EdgeId(!new)>(
    le: (Key, Key) -> bool, writes: seq<Write<Key, Id, EdgeId, NodeBody, EdgeType>>, view: TopicView<Id>,
    nodes: seq<StoredNode<Id, NodeBody>>, edges: seq<StoredEdge<Id, EdgeId, EdgeType>>, p: Projection<Id, EdgeId>)
    requires forall w :: w in writes ==> WriteClosed(w)
    requires Lists(Merge(le, writes), nodes, edges)
    requires IsProjection(view, nodes, edges, p)
    ensures ArtifactValid(p)
  {
    var g := Merge(le, writes);
    MergeKeepsClosed(le, writes);
    MergeSelfKeyed(le, writes);
    ArtifactValidIff(view, nodes, edges, p);
    forall e | e in edges && Exportable(e) ensures e.source in VisibleIds(view, nodes) && e.target in VisibleIds(view, nodes) {
      assert g.nodes[e.source] in nodes && g.nodes[e.target] in nodes;
    }
  }
}
