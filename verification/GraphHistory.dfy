/** Merging the canonical graph writes of a topic into one graph. Node and edge contents are opaque payloads; ids are
    of any type, write keys of any totally ordered type. */
module GraphHistory {
  import opened Prelude
  import opened Ordering

  datatype StoredNode<Id, Body> = StoredNode(id: Id, body: Body)
  datatype StoredEdge<Id, EdgeId, Body> = StoredEdge(id: EdgeId, source: Id, target: Id, body: Body)

  /** One row of canonical_graph_writes: its sort key (creation time, run, proposal, digest) and its graph. */
  datatype Write<Key, Id, EdgeId, N, E> = Write(
    key: Key, nodes: seq<StoredNode<Id, N>>, edges: seq<StoredEdge<Id, EdgeId, E>>)

  datatype Graph<Id, EdgeId, N, E> = Graph(
    nodes: map<Id, StoredNode<Id, N>>, edges: map<EdgeId, StoredEdge<Id, EdgeId, E>>)

  function IdOfNode<Id, N>(): StoredNode<Id, N> -> Id {
    (n: StoredNode<Id, N>) => n.id
  }

  function IdOfEdge<Id, EdgeId, E>(): StoredEdge<Id, EdgeId, E> -> EdgeId {
    (e: StoredEdge<Id, EdgeId, E>) => e.id
  }

  /** Dictionary assignment in list order: the last entry of an id wins. */
  function BindAll<K, V>(m: map<K, V>, id: V -> K, xs: seq<V>): map<K, V> {
    if |xs| == 0 then m else BindAll(m, id, xs[..|xs| - 1])[id(xs[|xs| - 1]) := xs[|xs| - 1]]
  }

  function Absorb<Key, Id, EdgeId, N, E>(g: Graph<Id, EdgeId, N, E>, w: Write<Key, Id, EdgeId, N, E>)
    : Graph<Id, EdgeId, N, E>
  {
    Graph(BindAll(g.nodes, IdOfNode(), w.nodes),
          BindAll(g.edges, IdOfEdge(), w.edges))
  }

  function AbsorbAll<Key, Id, EdgeId, N, E>(g: Graph<Id, EdgeId, N, E>, ws: seq<Write<Key, Id, EdgeId, N, E>>)
    : Graph<Id, EdgeId, N, E>
  {
    if |ws| == 0 then g else Absorb(AbsorbAll(g, ws[..|ws| - 1]), ws[|ws| - 1])
  }

  function KeyOf<Key, Id, EdgeId, N, E>(): Write<Key, Id, EdgeId, N, E> -> Key {
    (w: Write<Key, Id, EdgeId, N, E>) => w.key
  }

  function MergeInto<Key, Id, EdgeId, N, E>(
    le: (Key, Key) -> bool, g: Graph<Id, EdgeId, N, E>, ws: seq<Write<Key, Id, EdgeId, N, E>>): Graph<Id, EdgeId, N, E>
  {
    AbsorbAll(g, Sort(le, KeyOf(), ws))
  }

  function Merge<Key, Id, EdgeId, N, E>(le: (Key, Key) -> bool, ws: seq<Write<Key, Id, EdgeId, N, E>>)
    : Graph<Id, EdgeId, N, E>
  {
    MergeInto(le, Graph(map[], map[]), ws)
  }

  method MergeWrites<Key, Id(==), EdgeId(==), N, E>(le: (Key, Key) -> bool, ws: seq<Write<Key, Id, EdgeId, N, E>>)
    returns (g: Graph<Id, EdgeId, N, E>)
    ensures g == Merge(le, ws)
  {
    var nodesById: map<Id, StoredNode<Id, N>>, edgesById: map<EdgeId, StoredEdge<Id, EdgeId, E>> := map[], map[];
    var sorted := Sort(le, KeyOf(), ws);
    for i := 0 to |sorted|
      invariant Graph(nodesById, edgesById) == AbsorbAll(Graph(map[], map[]), sorted[..i])
    {
      assert sorted[..i + 1][..i] == sorted[..i];
      var w := sorted[i];
      nodesById := Assign(nodesById, IdOfNode(), w.nodes);
      edgesById := Assign(edgesById, IdOfEdge(), w.edges);
    }
    assert sorted[..|sorted|] == sorted;
    g := Graph(nodesById, edgesById);
  }

  method Assign<K(==), V>(m0: map<K, V>, id: V -> K, xs: seq<V>) returns (m: map<K, V>)
    ensures m == BindAll(m0, id, xs)
  {
    m := m0;
    for i := 0 to |xs|
      invariant m == BindAll(m0, id, xs[..i])
    {
      assert xs[..i + 1][..i] == xs[..i];
      m := m[id(xs[i]) := xs[i]];
    }
    assert xs[..|xs|] == xs;
  }

  // ----- what the merge holds

  /** The last entry with id k in a list, if any. */
  ghost function LastWithId<K, V>(id: V -> K, xs: seq<V>, k: K): Option<V> {
    if |xs| == 0 then None
    else if id(xs[|xs| - 1]) == k then Some(xs[|xs| - 1])
    else LastWithId(id, xs[..|xs| - 1], k)
  }

  /** LastWithId is the entry after which no entry has that id. */
  lemma {:induction false} LastWithIdIsLast<K, V>(id: V -> K, xs: seq<V>, k: K)
    ensures LastWithId(id, xs, k) == None <==> forall i :: 0 <= i < |xs| ==> id(xs[i]) != k
    ensures LastWithId(id, xs, k).Some? ==>
      exists i :: 0 <= i < |xs| && xs[i] == LastWithId(id, xs, k).value && id(xs[i]) == k
        && forall j :: i < j < |xs| ==> id(xs[j]) != k
  {
    if |xs| != 0 && id(xs[|xs| - 1]) != k {
      var k' := |xs| - 1;
      LastWithIdIsLast(id, xs[..k'], k);
      if LastWithId(id, xs, k).Some? {
        var i :| 0 <= i < k' && xs[..k'][i] == LastWithId(id, xs, k).value && id(xs[..k'][i]) == k
          && forall j :: i < j < k' ==> id(xs[..k'][j]) != k;
        assert xs[i] == xs[..k'][i];
        forall j | i < j < |xs| ensures id(xs[j]) != k {
          if j < k' {
            assert xs[j] == xs[..k'][j];
          }
        }
      }
    }
  }

  lemma {:induction false} BindAllFacts<K, V>(m: map<K, V>, id: V -> K, xs: seq<V>, k: K)
    ensures k in BindAll(m, id, xs) <==> k in m || LastWithId(id, xs, k).Some?
    ensures k in BindAll(m, id, xs) ==>
      BindAll(m, id, xs)[k] == match LastWithId(id, xs, k) case Some(v) => v case None => m[k]
  {
    if |xs| != 0 {
      BindAllFacts(m, id, xs[..|xs| - 1], k);
    }
  }

  /** The content of an id in the latest write that contains it. */
  ghost function LatestContent<K, W, V>(id: V -> K, entries: W -> seq<V>, ws: seq<W>, k: K): Option<V> {
    if |ws| == 0 then None else
      match LastWithId(id, entries(ws[|ws| - 1]), k)
      case Some(v) => Some(v)
      case None => LatestContent(id, entries, ws[..|ws| - 1], k)
  }

  function NodesOf<Key, Id, EdgeId, N, E>(): Write<Key, Id, EdgeId, N, E> -> seq<StoredNode<Id, N>> {
    (w: Write<Key, Id, EdgeId, N, E>) => w.nodes
  }

  function EdgesOf<Key, Id, EdgeId, N, E>(): Write<Key, Id, EdgeId, N, E> -> seq<StoredEdge<Id, EdgeId, E>> {
    (w: Write<Key, Id, EdgeId, N, E>) => w.edges
  }

  ghost function Lookup<K, V>(m: map<K, V>, k: K): Option<V> {
    if k in m then Some(m[k]) else None
  }

  ghost function Else<V>(a: Option<V>, b: Option<V>): Option<V> {
    if a.Some? then a else b
  }

  lemma {:induction false} AbsorbAllHoldsLatest<Key, Id, EdgeId, N, E>(
    g: Graph<Id, EdgeId, N, E>, ws: seq<Write<Key, Id, EdgeId, N, E>>, k: Id, e: EdgeId)
    ensures Lookup(AbsorbAll(g, ws).nodes, k) ==
      Else(LatestContent(IdOfNode(), NodesOf(), ws, k), Lookup(g.nodes, k))
    ensures Lookup(AbsorbAll(g, ws).edges, e) ==
      Else(LatestContent(IdOfEdge(), EdgesOf(), ws, e), Lookup(g.edges, e))
  {
    if |ws| != 0 {
      var k' := |ws| - 1;
      var h := AbsorbAll(g, ws[..k']);
      AbsorbAllHoldsLatest(g, ws[..k'], k, e);
      BindAllFacts(h.nodes, IdOfNode(), ws[k'].nodes, k);
      BindAllFacts(h.edges, IdOfEdge(), ws[k'].edges, e);
    }
  }

  /** The merge binds exactly the ids some write contains, each to its content in the latest write containing it. */
  lemma MergeHoldsLatest<Key, Id, EdgeId, N, E>(
    le: (Key, Key) -> bool, ws: seq<Write<Key, Id, EdgeId, N, E>>, k: Id, e: EdgeId)
    ensures Lookup(Merge(le, ws).nodes, k) ==
      LatestContent(IdOfNode(), NodesOf(), Sort(le, KeyOf(), ws), k)
    ensures Lookup(Merge(le, ws).edges, e) ==
      LatestContent(IdOfEdge(), EdgesOf(), Sort(le, KeyOf(), ws), e)
  {
    AbsorbAllHoldsLatest(Graph(map[], map[]), Sort(le, KeyOf(), ws), k, e);
  }

  /** The order in which writes are read from the ledger is irrelevant when their sort keys differ. */
  lemma MergeIgnoresOrder<Key(!new), Id, EdgeId, N, E>(
    le: (Key, Key) -> bool, ws: seq<Write<Key, Id, EdgeId, N, E>>, vs: seq<Write<Key, Id, EdgeId, N, E>>)
    requires TotalOrder(le) && Permuted(ws, vs) && KeyDetermines(KeyOf(), ws)
    ensures Merge(le, ws) == Merge(le, vs)
  {
    SortPermutes(le, KeyOf(), ws);
    SortPermutes(le, KeyOf(), vs);
    SortSorts(le, KeyOf(), ws);
    SortSorts(le, KeyOf(), vs);
    SortedListingIsUnique(le, KeyOf(), Sort(le, KeyOf(), ws), Sort(le, KeyOf(), vs));
  }

  lemma {:induction false} AbsorbAllConcat<Key, Id, EdgeId, N, E>(
    g: Graph<Id, EdgeId, N, E>, ws: seq<Write<Key, Id, EdgeId, N, E>>, vs: seq<Write<Key, Id, EdgeId, N, E>>)
    ensures AbsorbAll(g, ws + vs) == AbsorbAll(AbsorbAll(g, ws), vs)
  {
    if |vs| == 0 {
      assert ws + vs == ws;
    } else {
      AbsorbAllConcat(g, ws, vs[..|vs| - 1]);
      assert (ws + vs)[..|ws + vs| - 1] == ws + vs[..|vs| - 1];
    }
  }

  /** Merging what came first and then the rest into it is merging everything. */
  lemma MergeIsIncremental<Key, Id, EdgeId, N, E>(
    le: (Key, Key) -> bool, early: seq<Write<Key, Id, EdgeId, N, E>>, late: seq<Write<Key, Id, EdgeId, N, E>>)
    requires forall a, b :: a in early && b in late ==> le(a.key, b.key)
    ensures Merge(le, early + late) == MergeInto(le, Merge(le, early), late)
  {
    SortConcat(le, KeyOf(), early, late);
    AbsorbAllConcat(Graph(map[], map[]), Sort(le, KeyOf(), early), Sort(le, KeyOf(), late));
  }

  // ----- closure

  ghost predicate WriteClosed<Key, Id, EdgeId, N, E>(w: Write<Key, Id, EdgeId, N, E>) {
    forall e :: e in w.edges ==>
      (exists n :: n in w.nodes && n.id == e.source) && (exists n :: n in w.nodes && n.id == e.target)
  }

  ghost predicate GraphClosed<Id, EdgeId, N, E>(g: Graph<Id, EdgeId, N, E>) {
    forall k :: k in g.edges ==> g.edges[k].source in g.nodes && g.edges[k].target in g.nodes
  }

  lemma AbsorbKeepsClosed<Key, Id, EdgeId, N, E>(g: Graph<Id, EdgeId, N, E>, w: Write<Key, Id, EdgeId, N, E>)
    requires GraphClosed(g) && WriteClosed(w)
    ensures GraphClosed(Absorb(g, w))
  {
    var h := Absorb(g, w);
    var nodeId, edgeId := IdOfNode(), IdOfEdge();
    forall k | k in h.edges ensures h.edges[k].source in h.nodes && h.edges[k].target in h.nodes {
      var e := h.edges[k];
      BindAllFacts(g.edges, edgeId, w.edges, k);
      LastWithIdIsLast(edgeId, w.edges, k);
      BindAllFacts(g.nodes, nodeId, w.nodes, e.source);
      BindAllFacts(g.nodes, nodeId, w.nodes, e.target);
      LastWithIdIsLast(nodeId, w.nodes, e.source);
      LastWithIdIsLast(nodeId, w.nodes, e.target);
    }
  }

  lemma {:induction false} AbsorbAllKeepsClosed<Key, Id, EdgeId, N, E>(
    g: Graph<Id, EdgeId, N, E>, ws: seq<Write<Key, Id, EdgeId, N, E>>)
    requires GraphClosed(g) && forall w :: w in ws ==> WriteClosed(w)
    ensures GraphClosed(AbsorbAll(g, ws))
  {
    if |ws| != 0 {
      AbsorbAllKeepsClosed(g, ws[..|ws| - 1]);
      AbsorbKeepsClosed(AbsorbAll(g, ws[..|ws| - 1]), ws[|ws| - 1]);
    }
  }

  /** Merging writes whose own edges do not dangle never leaves a dangling edge, although nodes and edges of different
      writes overwrite one another. */
  lemma MergeKeepsClosed<Key, Id, EdgeId, N, E>(le: (Key, Key) -> bool, ws: seq<Write<Key, Id, EdgeId, N, E>>)
    requires forall w :: w in ws ==> WriteClosed(w)
    ensures GraphClosed(Merge(le, ws))
  {
    SortPermutes(le, KeyOf(), ws);
    AbsorbAllKeepsClosed(Graph(map[], map[]), Sort(le, KeyOf(), ws));
  }

  // ----- entries sit under their own ids

  ghost predicate SelfKeyed<Id, EdgeId, N, E>(g: Graph<Id, EdgeId, N, E>) {
    && (forall k :: k in g.nodes ==> g.nodes[k].id == k)
    && (forall k :: k in g.edges ==> g.edges[k].id == k)
  }

  lemma {:induction false} BindAllSelfKeyed<K, V>(m: map<K, V>, id: V -> K, xs: seq<V>)
    requires forall k :: k in m ==> id(m[k]) == k
    ensures forall k :: k in BindAll(m, id, xs) ==> id(BindAll(m, id, xs)[k]) == k
  {
    if |xs| != 0 {
      BindAllSelfKeyed(m, id, xs[..|xs| - 1]);
    }
  }

  lemma {:induction false} AbsorbAllSelfKeyed<Key, Id, EdgeId, N, E>(
    g: Graph<Id, EdgeId, N, E>, ws: seq<Write<Key, Id, EdgeId, N, E>>)
    requires SelfKeyed(g)
    ensures SelfKeyed(AbsorbAll(g, ws))
  {
    if |ws| != 0 {
      var h, w := AbsorbAll(g, ws[..|ws| - 1]), ws[|ws| - 1];
      AbsorbAllSelfKeyed(g, ws[..|ws| - 1]);
      BindAllSelfKeyed(h.nodes, IdOfNode(), w.nodes);
      BindAllSelfKeyed(h.edges, IdOfEdge(), w.edges);
    }
  }

  lemma MergeSelfKeyed<Key, Id, EdgeId, N, E>(le: (Key, Key) -> bool, ws: seq<Write<Key, Id, EdgeId, N, E>>)
    ensures SelfKeyed(Merge(le, ws))
  {
    AbsorbAllSelfKeyed(Graph(map[], map[]), Sort(le, KeyOf(), ws));
  }
}
