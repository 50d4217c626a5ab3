/** What an export shows: each exported node and edge said by its fields, and, from the proposals to the artifact, exactly
    the edges canonicalization drew, in the direction it drew them. */
module GraphExport {
  import opened Prelude
  import C = Canonicalization
  import Proposals
  import opened CanonicalEdges
  import opened Ordering
  import opened GraphHistory
  import opened GraphProjection
  import opened GraphPipeline

  // ----- the projection, field by field

  /** Where some edge of the graph records the node. */
  ghost predicate IsRecordedIn<Id(!new), EdgeId(!new)>(edges: seq<StoredEdge<Id, EdgeId, EdgeType>>, source: Id, target: Id) {
    exists e :: e in edges && e.body == EdgeType.RecordedIn && e.source == source && e.target == target
  }

  ghost predicate ShowsNode<Id(!new), EdgeId(!new)>(
    edges: seq<StoredEdge<Id, EdgeId, EdgeType>>, n: StoredNode<Id, NodeBody>, x: ExportNode<Id>)
  {
    && x.id == n.id
    && (match n.body.kind
        case EvidenceLabel => x.kind == EvidenceExport
        case HypothesisLabel => x.kind == HypothesisExport
        case ProvenanceLabel => x.kind == ProvenanceExport
        case _ => x.kind == ClaimExport)
    && (forall t :: t in x.provenance <==> n.body.kind != ProvenanceLabel && IsRecordedIn(edges, n.id, t))
  }

  /** An edge of one of these types is exported under its own id, from its source to its target; any other is not. */
  ghost predicate ShowsEdge<Id(!new), EdgeId(!new)>(
    edges: seq<StoredEdge<Id, EdgeId, EdgeType>>, e: StoredEdge<Id, EdgeId, EdgeType>, x: ExportEdge<Id, EdgeId>)
  {
    && x.id == CanonicalEdge(e.id) && x.source == e.source && x.target == e.target
    && (match e.body
        case Supports => x.kind == SupportsX
        case Challenges => x.kind == ChallengesX
        case Supersedes => x.kind == SupersedesX
        case Weakens => x.kind == WeakensX
        case Retires => x.kind == RetiresX
        case DerivedFrom => x.kind == DerivedFromX
        case RecordedIn => x.kind == DerivedFromX
        case OtherType(_) => false)
    && (forall t :: t in x.provenance <==> IsRecordedIn(edges, e.source, t) || IsRecordedIn(edges, e.target, t))
  }

  lemma NodeShown<Id(!new), EdgeId(!new)>(
    edges: seq<StoredEdge<Id, EdgeId, EdgeType>>, n: StoredNode<Id, NodeBody>, x: ExportNode<Id>)
    ensures x == ExportOfNode(edges, n) <==> ShowsNode(edges, n, x)
  {
    forall t { RecordedTargetsAre(edges, n.id, t); }
    if ShowsNode(edges, n, x) {
      assert x.provenance == ExportOfNode(edges, n).provenance;
    }
  }

  lemma EdgeShown<Id(!new), EdgeId(!new)>(
    edges: seq<StoredEdge<Id, EdgeId, EdgeType>>, e: StoredEdge<Id, EdgeId, EdgeType>, x: ExportEdge<Id, EdgeId>)
    ensures ExportOfEdge(edges, e) == Some(x) <==> ShowsEdge(edges, e, x)
  {
    forall t { RecordedTargetsAre(edges, e.source, t); }
    forall t { RecordedTargetsAre(edges, e.target, t); }
    if ShowsEdge(edges, e, x) {
      assert x.provenance == RecordedTargets(edges, e.source) + RecordedTargets(edges, e.target);
    }
  }

  /** Every exported node is the topic, a conflict or shows a node of the graph, and all of them are exported. */
  lemma NodesAreShown<Id(!new), EdgeId(!new)>(
    view: TopicView<Id>, nodes: seq<StoredNode<Id, NodeBody>>, edges: seq<StoredEdge<Id, EdgeId, EdgeType>>,
    p: Projection<Id, EdgeId>, x: ExportNode<Id>)
    requires IsProjection(view, nodes, edges, p)
    ensures x in p.nodes <==>
      || x == ExportNode(view.topic, TopicNode, {view.digest})
      || (exists c :: c in view.conflicts && x == ExportNode(c, ConflictNode, {view.digest}))
      || (exists n :: n in nodes && ShowsNode(edges, n, x))
  {
    forall n { NodeShown(edges, n, x); }
    if n :| n in nodes && ShowsNode(edges, n, x) {
      var j :| 0 <= j < |nodes| && nodes[j] == n;
      assert x == ExportOfNode(edges, nodes[j]);
    }
    if j :| 0 <= j < |nodes| && x == ExportOfNode(edges, nodes[j]) {
      assert nodes[j] in nodes;
    }
  }

  ghost predicate BestNode<Id>(n: StoredNode<Id, NodeBody>) {
    n.body.kind == HypothesisLabel && n.body.isCurrentBest
  }

  ghost predicate ContestedNode<Id>(n: StoredNode<Id, NodeBody>) {
    n.body.kind == HypothesisLabel && (n.body.isCurrentBest || n.body.hasStatus)
  }

  /** Every exported edge leads from the topic to a current best, from a conflict to a current best or a challenger, or shows
      an edge of the graph, and all of these are exported. */
  lemma EdgesAreShown<Id(!new), EdgeId(!new)>(
    view: TopicView<Id>, nodes: seq<StoredNode<Id, NodeBody>>, edges: seq<StoredEdge<Id, EdgeId, EdgeType>>,
    p: Projection<Id, EdgeId>, x: ExportEdge<Id, EdgeId>)
    requires IsProjection(view, nodes, edges, p)
    ensures x in p.edges <==>
      || (exists n :: n in nodes && BestNode(n) && x == ExportEdge(TopicEdge(n.id), VisualizesX, view.topic, n.id, {view.digest}))
      || (exists c, n :: c in view.conflicts && n in nodes && ContestedNode(n) &&
            x == ExportEdge(ConflictEdge(c, n.id), ConflictsWithX, c, n.id, {view.digest}))
      || (exists e :: e in edges && ShowsEdge(edges, e, x))
  {
    forall e { EdgeShown(edges, e, x); }
    assert forall n :: n in nodes && BestNode(n) ==> n.id in BestIds(nodes);
    assert forall n :: n in nodes && ContestedNode(n) ==> n.id in BestIds(nodes) + ChallengerIds(nodes);
  }

  /** The explorer lists current bests, other hypotheses with a status, conflicts, evidence and provenance. */
  lemma ExplorerLists<Id(!new), EdgeId(!new)>(
    view: TopicView<Id>, nodes: seq<StoredNode<Id, NodeBody>>, edges: seq<StoredEdge<Id, EdgeId, EdgeType>>,
    p: Projection<Id, EdgeId>, id: Id)
    requires IsProjection(view, nodes, edges, p)
    ensures id in p.explorer.currentBest <==> exists n :: n in nodes && n.id == id && BestNode(n)
    ensures id in p.explorer.challengers <==> exists n :: n in nodes && n.id == id && ContestedNode(n) && !BestNode(n)
    ensures id in p.explorer.conflicts <==> id in view.conflicts
    ensures id in p.explorer.evidence <==> exists n :: n in nodes && n.id == id && n.body.kind == EvidenceLabel
    ensures id in p.explorer.provenance <==> exists n :: n in nodes && n.id == id && n.body.kind == ProvenanceLabel
  {
  }

  // ----- from the proposals to the artifact

  lemma {:induction false} LatestIsFromSome<K(!new), W(!new), V(!new)>(id: V -> K, entries: W -> seq<V>, ws: seq<W>, k: K)
    ensures LatestContent(id, entries, ws, k) == None <==> forall w, v :: w in ws && v in entries(w) ==> id(v) != k
    ensures LatestContent(id, entries, ws, k).Some? ==>
      exists w :: w in ws && LatestContent(id, entries, ws, k).value in entries(w)
        && id(LatestContent(id, entries, ws, k).value) == k
  {
    if |ws| != 0 {
      var init, last := ws[..|ws| - 1], ws[|ws| - 1];
      assert ws == init + [last];
      LatestIsFromSome(id, entries, init, k);
      LastWithIdIsLast(id, entries(last), k);
    }
  }

  /** Canonical edges are stored under their content, so writes never disagree about one. */
  ghost predicate StoredByContent<Key>(w: Write<Key, GraphId, C.Edge, NodeBody, EdgeType>) {
    forall x :: x in w.edges ==> x == StoreEdge(x.id)
  }

  lemma CanonicalWriteIsByContent<Key>(w: Write<Key, GraphId, C.Edge, NodeBody, EdgeType>)
    requires ComesFromCanonicalization(w)
    ensures StoredByContent(w)
  {
    var p: Proposals.Proposal, ctx: C.Context :| Stores(w, C.Canonical(p, ctx));
    forall x | x in w.edges ensures x == StoreEdge(x.id) {
      var e :| e in C.Canonical(p, ctx).edges && x == StoreEdge(e);
    }
  }

  /** Some proposal whose canonical graph is among the writes draws the edge. */
  ghost predicate DrawnInSome<Key(!new)>(writes: seq<Write<Key, GraphId, C.Edge, NodeBody, EdgeType>>, e: C.Edge) {
    exists w, p: Proposals.Proposal, ctx: C.Context :: w in writes && Stores(w, C.Canonical(p, ctx)) && Drawn(p, ctx, e) > 0
  }

  lemma DrawnIsStored<Key(!new)>(writes: seq<Write<Key, GraphId, C.Edge, NodeBody, EdgeType>>, e: C.Edge)
    requires forall w :: w in writes ==> ComesFromCanonicalization(w)
    ensures DrawnInSome(writes, e) <==> exists w :: w in writes && StoreEdge(e) in w.edges
  {
    if DrawnInSome(writes, e) {
      var w, p: Proposals.Proposal, ctx: C.Context :| w in writes && Stores(w, C.Canonical(p, ctx)) && Drawn(p, ctx, e) > 0;
      EdgesAreDrawn(p, ctx, e);
      assert StoreEdge(e) in w.edges;
    }
    if w :| w in writes && StoreEdge(e) in w.edges {
      var p: Proposals.Proposal, ctx: C.Context :| Stores(w, C.Canonical(p, ctx));
      var f :| f in C.Canonical(p, ctx).edges && StoreEdge(e) == StoreEdge(f);
      EdgesAreDrawn(p, ctx, f);
      assert f == StoreEdge(f).id;
    }
  }

  /** In lists of writes that agree on every id, the latest content is the content. */
  lemma LatestAmongAgreeing<Key(!new)>(
    id: StoredEdge<GraphId, C.Edge, EdgeType> -> C.Edge, writes: seq<Write<Key, GraphId, C.Edge, NodeBody, EdgeType>>, e: C.Edge)
    requires forall x :: id(x) == x.id
    requires forall w :: w in writes ==> StoredByContent(w)
    ensures LatestContent(id, EdgesOf(), writes, e) ==
      if exists w :: w in writes && StoreEdge(e) in w.edges then Some(StoreEdge(e)) else None
  {
    LatestIsFromSome(id, EdgesOf(), writes, e);
    var latest := LatestContent(id, EdgesOf(), writes, e);
    if latest.Some? {
      var w :| w in writes && latest.value in EdgesOf()(w) && id(latest.value) == e;
      assert StoredByContent(w) && latest.value in w.edges;
    } else {
      forall w | w in writes ensures StoreEdge(e) !in w.edges {
        assert StoreEdge(e) in EdgesOf()(w) ==> id(StoreEdge(e)) != e;
      }
    }
  }

  /** The merged graph holds an edge exactly when some write does. */
  lemma MergedEdge<Key(!new)>(
    le: (Key, Key) -> bool, writes: seq<Write<Key, GraphId, C.Edge, NodeBody, EdgeType>>, e: C.Edge)
    requires forall w :: w in writes ==> StoredByContent(w)
    ensures GraphHistory.Lookup(Merge(le, writes).edges, e) ==
      if exists w :: w in writes && StoreEdge(e) in w.edges then Some(StoreEdge(e)) else None
  {
    var sorted := Sort(le, KeyOf(), writes);
    SortPermutes(le, KeyOf(), writes);
    PermutedSameElements(sorted, writes);
    MergeHoldsLatest(le, writes, Name(""), e);
    LatestAmongAgreeing(IdOfEdge(), sorted, e);
  }

  /** Merging loses no drawn edge and invents none. */
  lemma MergedEdgesAreDrawn<Key(!new)>(
    le: (Key, Key) -> bool, writes: seq<Write<Key, GraphId, C.Edge, NodeBody, EdgeType>>,
    nodes: seq<StoredNode<GraphId, NodeBody>>, edges: seq<StoredEdge<GraphId, C.Edge, EdgeType>>, x: StoredEdge<GraphId, C.Edge, EdgeType>)
    requires forall w :: w in writes ==> ComesFromCanonicalization(w)
    requires Lists(Merge(le, writes), nodes, edges)
    ensures x in edges <==> x == StoreEdge(x.id) && DrawnInSome(writes, x.id)
  {
    forall w | w in writes ensures StoredByContent(w) { CanonicalWriteIsByContent(w); }
    MergedEdge(le, writes, x.id);
    DrawnIsStored(writes, x.id);
  }

  /** The edge of the artifact that shows a drawn edge. */
  ghost predicate Depicts(e: C.Edge, x: ExportEdge<GraphId, C.Edge>) {
    && x.id == CanonicalEdge(e) && x.source == Canonical(e.source) && x.target == Canonical(e.target)
    && match e.kind
       case Supports => x.kind == SupportsX
       case Challenges => x.kind == ChallengesX
       case Supersedes => x.kind == SupersedesX
       case DerivedFrom => x.kind == DerivedFromX
       case RecordedIn => x.kind == DerivedFromX
  }

  lemma DepictedIsShown(edges: seq<StoredEdge<GraphId, C.Edge, EdgeType>>, e: C.Edge, x: ExportEdge<GraphId, C.Edge>)
    requires ShowsEdge(edges, StoreEdge(e), x)
    ensures Depicts(e, x)
  {
  }

  lemma CanonicalIsShown(
    view: TopicView<GraphId>, nodes: seq<StoredNode<GraphId, NodeBody>>, edges: seq<StoredEdge<GraphId, C.Edge, EdgeType>>,
    p: Projection<GraphId, C.Edge>, x: ExportEdge<GraphId, C.Edge>)
    requires IsProjection(view, nodes, edges, p) && x in p.edges && x.id.CanonicalEdge?
    ensures exists e :: e in edges && ShowsEdge(edges, e, x)
  {
    EdgesAreShown(view, nodes, edges, p, x);
  }

  /** From any proposals to the artifact: whatever history of canonical graphs is merged under whatever ordering and snapshot,
      the artifact has an edge for each drawn edge, of its kind and from its source to its target, and apart from its topic
      and conflict edges no other. */
  lemma ExportShowsWhatWasDrawn<Key(!new)>(
    le: (Key, Key) -> bool, writes: seq<Write<Key, GraphId, C.Edge, NodeBody, EdgeType>>, view: TopicView<GraphId>,
    nodes: seq<StoredNode<GraphId, NodeBody>>, edges: seq<StoredEdge<GraphId, C.Edge, EdgeType>>,
    p: Projection<GraphId, C.Edge>)
    requires forall w :: w in writes ==> ComesFromCanonicalization(w)
    requires Lists(Merge(le, writes), nodes, edges) && IsProjection(view, nodes, edges, p)
    ensures forall e :: DrawnInSome(writes, e) ==> exists x :: x in p.edges && Depicts(e, x)
    ensures forall x :: x in p.edges && x.id.CanonicalEdge? ==> DrawnInSome(writes, x.id.id) && Depicts(x.id.id, x)
  {
    forall e | DrawnInSome(writes, e) ensures exists x :: x in p.edges && Depicts(e, x) {
      MergedEdgesAreDrawn(le, writes, nodes, edges, StoreEdge(e));
      var x := ExportOfEdge(edges, StoreEdge(e)).value;
      assert ExportsCanonical(edges, edges, x);
      EdgeShown(edges, StoreEdge(e), x);
      DepictedIsShown(edges, e, x);
    }
    forall x | x in p.edges && x.id.CanonicalEdge? ensures DrawnInSome(writes, x.id.id) && Depicts(x.id.id, x) {
      CanonicalIsShown(view, nodes, edges, p, x);
      var y :| y in edges && ShowsEdge(edges, y, x);
      MergedEdgesAreDrawn(le, writes, nodes, edges, y);
      DepictedIsShown(edges, y.id, x);
    }
  }
}
