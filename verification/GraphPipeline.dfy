/** The whole graph path: canonicalize any proposals, store the graphs, merge the history, project and export it. */
module GraphPipeline {
  import opened Prelude
  import C = Canonicalization
  import CanonicalFacts
  import Proposals
  import opened GraphHistory
  import opened GraphProjection

  /** Topic and conflict ids live in the same id space as canonical node ids. */
  datatype GraphId = Canonical(id: C.NodeId) | Name(name: string)

  function LabelOf(n: C.Node): Label {
    match n.props
    case ProvenanceProps(_, _, _, _) => ProvenanceLabel
    case EvidenceProps(_, _, _, _) => EvidenceLabel
    case ClaimProps(_, _) => ClaimLabel
    case HypothesisProps(_, _, _, _, _, _, _) => HypothesisLabel
  }

  function StoreNode(n: C.Node): StoredNode<GraphId, NodeBody> {
    StoredNode(Canonical(n.id), NodeBody(LabelOf(n),
      n.props.HypothesisProps? && n.props.isCurrentBest, n.props.HypothesisProps? && n.props.status.Some?))
  }

  function TypeOf(kind: C.EdgeKind): EdgeType {
    match kind
    case RecordedIn => EdgeType.RecordedIn
    case DerivedFrom => EdgeType.DerivedFrom
    case Supports => EdgeType.Supports
    case Challenges => EdgeType.Challenges
    case Supersedes => EdgeType.Supersedes
  }

  function StoreEdge(e: C.Edge): StoredEdge<GraphId, C.Edge, EdgeType> {
    StoredEdge(e, Canonical(e.source), Canonical(e.target), TypeOf(e.kind))
  }

  /** The row a canonicalization result is stored as. */
  ghost predicate Stores<Key>(w: Write<Key, GraphId, C.Edge, NodeBody, EdgeType>, r: C.Result) {
    && (forall x :: x in w.nodes <==> exists n :: n in r.nodes && x == StoreNode(n))
    && (forall x :: x in w.edges <==> exists e :: e in r.edges && x == StoreEdge(e))
  }

  ghost predicate ComesFromCanonicalization<Key>(w: Write<Key, GraphId, C.Edge, NodeBody, EdgeType>) {
    exists p: Proposals.Proposal, ctx: C.Context :: Stores(w, C.Canonical(p, ctx))
  }

  lemma NodeIsStored<Key>(w: Write<Key, GraphId, C.Edge, NodeBody, EdgeType>, r: C.Result, id: C.NodeId)
    requires Stores(w, r) && id in C.Ids(r.nodes)
    ensures exists n :: n in w.nodes && n.id == Canonical(id)
  {
    var m :| m in r.nodes && m.id == id;
    assert StoreNode(m) in w.nodes;
  }

  lemma StoredResultIsClosed<Key>(w: Write<Key, GraphId, C.Edge, NodeBody, EdgeType>, r: C.Result)
    requires Stores(w, r) && CanonicalFacts.Within(r.edges, C.Ids(r.nodes))
    ensures WriteClosed(w)
  {
    forall x | x in w.edges
      ensures (exists n :: n in w.nodes && n.id == x.source) && (exists n :: n in w.nodes && n.id == x.target)
    {
      var e :| e in r.edges && x == StoreEdge(e);
      NodeIsStored(w, r, e.source);
      NodeIsStored(w, r, e.target);
    }
  }

  lemma StoredWriteIsClosed<Key>(w: Write<Key, GraphId, C.Edge, NodeBody, EdgeType>)
    requires ComesFromCanonicalization(w)
    ensures WriteClosed(w)
  {
    var p: Proposals.Proposal, ctx: C.Context :| Stores(w, C.Canonical(p, ctx));
    CanonicalFacts.CanonicalGraphIsClosed(p, ctx);
    StoredResultIsClosed(w, C.Canonical(p, ctx));
  }

  /** From any proposals, validated or not, to the export artifact: whatever history of canonical graphs is merged, under
      whatever ordering of writes and whatever snapshot, the projection passes the artifact's integrity check. */
  lemma PipelineExportsCleanly<Key>(
    le: (Key, Key) -> bool, writes: seq<Write<Key, GraphId, C.Edge, NodeBody, EdgeType>>, view: TopicView<GraphId>,
    nodes: seq<StoredNode<GraphId, NodeBody>>, edges: seq<StoredEdge<GraphId, C.Edge, EdgeType>>,
    p: Projection<GraphId, C.Edge>)
    requires forall w :: w in writes ==> ComesFromCanonicalization(w)
    requires Lists(Merge(le, writes), nodes, edges) && IsProjection(view, nodes, edges, p)
    ensures ArtifactValid(p)
  {
    forall w | w in writes ensures WriteClosed(w) {
      StoredWriteIsClosed(w);
    }
    MergedProjectionIsValid(le, writes, view, nodes, edges, p);
  }
}
