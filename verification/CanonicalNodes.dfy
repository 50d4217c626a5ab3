/** Every node of a canonical graph and what it stores, read off the proposal and its context alone. */
module CanonicalNodes {
  import opened Prelude
  import opened Proposals
  import opened Canonicalization
  import opened CanonicalFacts
  import opened CanonicalReasons
  import opened Permutation
  import opened CanonicalContent
  import opened CanonicalEdges
  import opened Pipeline
  import opened NodeIdentity

  /** A supersession of a hypothesis of the context by a known one. */
  ghost predicate IsSupersession(p: Proposal, ctx: Context, r: Revision) {
    && r.action == Supersede && r.supersedes.Some? && InContext(ctx.existing, r.supersedes.value)
    && InPlay(p, ctx, r.hypothesisId)
  }

  /** The version node such a supersession makes. */
  ghost predicate Makes(p: Proposal, ctx: Context, r: Revision, id: NodeId) {
    IsSupersession(p, ctx, r) && id == HypothesisNode(r.hypothesisId, ContextVersion(ctx.existing, r.supersedes.value) + 1)
  }

  ghost predicate InGraph(p: Proposal, ctx: Context, id: NodeId) {
    || id == ProvenanceNode(ctx.proposalId)
    || (exists x :: x in ctx.existing && id == HypothesisNode(x.hypothesisId, x.version))
    || (exists e :: e in p.evidence && id == EvidenceNode(e.kind, Lower(Strip(e.sourceUrl))))
    || (exists c :: c in p.claims && NodeOfClaim(p.evidence, c) == Some(id))
    || (BestKnown(ctx) && exists c ::
          c in p.challengers && id == HypothesisNode(c.hypothesisId, ContextVersion(ctx.existing, c.hypothesisId)))
    || (exists r :: r in p.revisions && Makes(p, ctx, r, id))
  }

  lemma ExistingIdsRead(ctx: Context, id: NodeId)
    ensures id in Ids(ExistingNodes(ctx)) <==> exists x :: x in ctx.existing && id == HypothesisNode(x.hypothesisId, x.version)
  {
    if id in Ids(ExistingNodes(ctx)) {
      var i :| 0 <= i < |ctx.existing| && ExistingNodes(ctx)[i].id == id;
      assert ctx.existing[i] in ctx.existing;
    }
    if x :| x in ctx.existing && id == HypothesisNode(x.hypothesisId, x.version) { ExistingNodesHaveIds(ctx, x); }
  }

  lemma CandidateIdsRead(p: Proposal, ctx: Context, id: NodeId)
    ensures id in CandidateIds(ExistingById(ctx.existing), p.challengers) <==> exists c ::
      c in p.challengers && id == HypothesisNode(c.hypothesisId, ContextVersion(ctx.existing, c.hypothesisId))
  {
    forall h { ContextRead(ctx.existing, h); }
  }

  lemma SupersedingIdRead(p: Proposal, ctx: Context, r: Revision, id: NodeId)
    ensures SupersedingId(ExistingById(ctx.existing), ChallengedDraft(p, ctx).hypotheses, r) == Some(id) <==> Makes(p, ctx, r, id)
  {
    InPlayRead(p, ctx, r.hypothesisId);
    if r.supersedes.Some? { ContextRead(ctx.existing, r.supersedes.value); }
  }

  lemma SupersedingIdsRead(p: Proposal, ctx: Context, id: NodeId)
    ensures id in SupersedingIds(p, ctx) <==> exists r :: r in p.revisions && Makes(p, ctx, r, id)
  {
    forall r { SupersedingIdRead(p, ctx, r, id); }
    var f := (r: Revision) => SupersedingId(ExistingById(ctx.existing), ChallengedDraft(p, ctx).hypotheses, r);
    if r :| r in p.revisions && Makes(p, ctx, r, id) { CollectHas(f, p.revisions, r); }
  }

  /** The node ids of every canonical graph. */
  lemma NodesAreInGraph(p: Proposal, ctx: Context, id: NodeId)
    ensures id in Ids(Canonical(p, ctx).nodes) <==> InGraph(p, ctx, id)
  {
    NodesAreContributions(p, ctx);
    ExistingIdsRead(ctx, id);
    ClaimIdsRead(p, ctx, id);
    BestRead(ctx);
    CandidateIdsRead(p, ctx, id);
    SupersedingIdsRead(p, ctx, id);
  }

  // ----- what hypothesis nodes store

  ghost function LastChallenger(cs: seq<Challenger>, h: string): Option<Challenger> {
    if |cs| == 0 then None else if cs[|cs| - 1].hypothesisId == h then Some(cs[|cs| - 1]) else LastChallenger(cs[..|cs| - 1], h)
  }

  ghost function LastSnapshot(hs: seq<HypothesisSnapshot>, h: string): Option<HypothesisSnapshot> {
    if |hs| == 0 then None else if hs[|hs| - 1].hypothesisId == h then Some(hs[|hs| - 1]) else LastSnapshot(hs[..|hs| - 1], h)
  }

  /** A known hypothesis as last described: by a challenger if the current best is known, and otherwise by the context. */
  ghost function Described(ctx: Context, cs: seq<Challenger>, h: string, version: nat, supersedes: Option<string>)
    : Option<Properties>
  {
    match (LastChallenger(cs, h), LastSnapshot(ctx.existing, h))
    case (Some(c), _) => Some(HypothesisProps(h, c.title, c.statement, Some(c.status), version, false, supersedes))
    case (None, Some(x)) => Some(HypothesisProps(h, x.title, x.statement, None, version, ctx.currentBest == Some(h), supersedes))
    case (None, None) => None
  }

  ghost function Heeded(p: Proposal, ctx: Context): seq<Challenger> {
    if BestKnown(ctx) then p.challengers else []
  }

  ghost function LastMaker(p: Proposal, ctx: Context, rs: seq<Revision>, id: NodeId): Option<Revision> {
    if |rs| == 0 then None
    else if Makes(p, ctx, rs[|rs| - 1], id) then Some(rs[|rs| - 1])
    else LastMaker(p, ctx, rs[..|rs| - 1], id)
  }

  ghost predicate IsSnapshot(ctx: Context, x: HypothesisSnapshot, h: string, v: nat, props: Properties) {
    && x.hypothesisId == h && x.version == v
    && props == HypothesisProps(h, x.title, x.statement, None, v, ctx.currentBest == Some(h), None)
  }

  /** What the node of version v of h stores: the last supersession making it, else the last challenger, else a snapshot. */
  ghost predicate Stores(p: Proposal, ctx: Context, cs: seq<Challenger>, rs: seq<Revision>, h: string, v: nat, props: Properties) {
    match LastMaker(p, ctx, rs, HypothesisNode(h, v))
    case Some(r) => Described(ctx, cs, h, v, r.supersedes) == Some(props)
    case None =>
      if v == ContextVersion(ctx.existing, h) && LastChallenger(cs, h).Some? then Described(ctx, cs, h, v, None) == Some(props)
      else exists x :: x in ctx.existing && IsSnapshot(ctx, x, h, v, props)
  }

  ghost predicate AllStore(p: Proposal, ctx: Context, cs: seq<Challenger>, rs: seq<Revision>, nodes: seq<Node>) {
    forall n :: n in nodes && n.id.HypothesisNode? ==> Stores(p, ctx, cs, rs, n.id.hypothesisId, n.id.version, n.props)
  }

  ghost predicate IsDescribed(ctx: Context, cs: seq<Challenger>, h: string, n: Node) {
    n.props.HypothesisProps? && Described(ctx, cs, h, n.props.version, n.props.supersedes) == Some(n.props)
  }

  ghost predicate AllDescribed(ctx: Context, cs: seq<Challenger>, hypotheses: map<string, Node>) {
    forall h :: h in hypotheses ==> IsDescribed(ctx, cs, h, hypotheses[h])
  }

  lemma {:induction false} IndexDescribed(ctx: Context, prov: Node, hs: seq<HypothesisSnapshot>, nodes: seq<Node>, h: string)
    requires !prov.props.HypothesisProps? && |nodes| == |hs|
    requires forall i :: 0 <= i < |hs| ==> nodes[i] == SnapshotNode(hs[i], ctx.currentBest == Some(hs[i].hypothesisId))
    requires h in HypothesisIndex([prov] + nodes)
    ensures LastSnapshot(hs, h).Some?
    ensures LastSnapshot(hs, h).value.hypothesisId == h
    ensures HypothesisIndex([prov] + nodes)[h] == SnapshotNode(LastSnapshot(hs, h).value, ctx.currentBest == Some(h))
    decreases |hs|
  {
    var k := |hs|;
    var all := [prov] + nodes;
    assert all[..|all| - 1] == if k == 0 then [] else [prov] + nodes[..k - 1];
    if k != 0 {
      if hs[k - 1].hypothesisId != h { IndexDescribed(ctx, prov, hs[..k - 1], nodes[..k - 1], h); }
    }
  }

  lemma BaseDescribed(p: Proposal, ctx: Context)
    ensures AllDescribed(ctx, [], BaseDraft(p, ctx).hypotheses)
  {
    BaseHypotheses(p, ctx);
    forall h | h in BaseDraft(p, ctx).hypotheses ensures IsDescribed(ctx, [], h, BaseDraft(p, ctx).hypotheses[h]) {
      IndexDescribed(ctx, ProvenanceOf(p, ctx), ctx.existing, ExistingNodes(ctx), h);
    }
  }

  lemma BaseStores(p: Proposal, ctx: Context)
    ensures AllStore(p, ctx, [], [], BaseDraft(p, ctx).nodes)
  {
    EvidenceAndClaimsAreNot(p, ctx);
    EvidenceNodesAreCandidates(ProvenanceOf(p, ctx).id, p.evidence);
    ClaimNodesAreClaims(ProvenanceOf(p, ctx).id, EvidencePart(p, ctx).aliases, p.claims);
    forall n | n in BaseDraft(p, ctx).nodes && n.id.HypothesisNode?
      ensures Stores(p, ctx, [], [], n.id.hypothesisId, n.id.version, n.props)
    {
      var i :| 0 <= i < |ctx.existing| && ExistingNodes(ctx)[i] == n;
      assert ctx.existing[i] in ctx.existing;
    }
  }

  lemma InReplaced(nodes: seq<Node>, n: Node, m: Node)
    requires m in ReplaceOrAppend(nodes, n)
    ensures m == n || (m in nodes && m.id != n.id)
  {
    if n.id in Ids(nodes) {
      var i :| 0 <= i < |nodes| && ReplaceOrAppend(nodes, n)[i] == m;
      assert m == ReplaceNode(n, nodes[i]);
    } else if m != n {
      assert m in nodes;
      assert m.id in Ids(nodes);
    }
  }

  lemma ChallengerStores(p: Proposal, ctx: Context, cs: seq<Challenger>, d: Draft, c: Challenger)
    requires BestKnown(ctx) && AllStore(p, ctx, cs, [], d.nodes)
    ensures AllStore(p, ctx, cs + [c], [], ReplaceOrAppend(d.nodes, CandidateNode(ExistingById(ctx.existing), c)))
  {
    var n := CandidateNode(ExistingById(ctx.existing), c);
    ContextRead(ctx.existing, c.hypothesisId);
    forall m | m in ReplaceOrAppend(d.nodes, n) && m.id.HypothesisNode?
      ensures Stores(p, ctx, cs + [c], [], m.id.hypothesisId, m.id.version, m.props)
    {
      InReplaced(d.nodes, n, m);
    }
  }

  lemma ChallengerDescribed(ctx: Context, cs: seq<Challenger>, d: Draft, c: Challenger)
    requires AllDescribed(ctx, cs, d.hypotheses)
    ensures AllDescribed(ctx, cs + [c], d.hypotheses[c.hypothesisId := CandidateNode(ExistingById(ctx.existing), c)])
  {
  }

  lemma {:induction false} ChallengersStore(p: Proposal, ctx: Context, prov: NodeId, d: Draft, cs: seq<Challenger>)
    requires BestKnown(ctx) && AllStore(p, ctx, [], [], d.nodes) && AllDescribed(ctx, [], d.hypotheses)
    ensures AllStore(p, ctx, cs, [], AddChallengers(ctx, prov, ExistingById(ctx.existing), d, cs).nodes)
    ensures AllDescribed(ctx, cs, AddChallengers(ctx, prov, ExistingById(ctx.existing), d, cs).hypotheses)
  {
    if |cs| != 0 {
      var init, c := cs[..|cs| - 1], cs[|cs| - 1];
      assert cs == init + [c];
      var x := AddChallengers(ctx, prov, ExistingById(ctx.existing), d, init);
      ChallengersStore(p, ctx, prov, d, init);
      BestRead(ctx);
      ChallengerStores(p, ctx, init, x, c);
      ChallengerDescribed(ctx, init, x, c);
    }
  }

  lemma ChallengedStores(p: Proposal, ctx: Context)
    ensures AllStore(p, ctx, Heeded(p, ctx), [], ChallengedDraft(p, ctx).nodes)
    ensures AllDescribed(ctx, Heeded(p, ctx), ChallengedDraft(p, ctx).hypotheses)
  {
    BaseStores(p, ctx);
    BaseDescribed(p, ctx);
    BestRead(ctx);
    if BestKnown(ctx) {
      ChallengersStore(p, ctx, ProvenanceOf(p, ctx).id, BaseDraft(p, ctx), p.challengers);
    } else {
      NoBestNoChange(ctx, ProvenanceOf(p, ctx).id, ExistingById(ctx.existing), BaseDraft(p, ctx), p.challengers);
    }
  }

  ghost predicate Kept(p: Proposal, ctx: Context, d: Draft) {
    d.hypotheses.Keys == ChallengedDraft(p, ctx).hypotheses.Keys
  }

  lemma RevisionMakes(p: Proposal, ctx: Context, d: Draft, r: Revision)
    requires Kept(p, ctx, d)
    ensures !IsSupersession(p, ctx, r) ==> AddRevision(ExistingById(ctx.existing), d, r).nodes == d.nodes
    ensures !IsSupersession(p, ctx, r) ==> AddRevision(ExistingById(ctx.existing), d, r).hypotheses == d.hypotheses
    ensures IsSupersession(p, ctx, r) ==> r.hypothesisId in d.hypotheses
  {
    InPlayRead(p, ctx, r.hypothesisId);
    if r.supersedes.Some? { ContextRead(ctx.existing, r.supersedes.value); }
  }

  lemma RevisionNode(p: Proposal, ctx: Context, d: Draft, r: Revision)
    requires Kept(p, ctx, d) && IsSupersession(p, ctx, r) && r.hypothesisId in d.hypotheses
    ensures var v := ContextVersion(ctx.existing, r.supersedes.value) + 1;
      var n := VersionedNode(d.hypotheses[r.hypothesisId], r, v);
      && AddRevision(ExistingById(ctx.existing), d, r).nodes == ReplaceOrAppend(d.nodes, n)
      && AddRevision(ExistingById(ctx.existing), d, r).hypotheses == d.hypotheses[r.hypothesisId := n]
  {
    InPlayRead(p, ctx, r.hypothesisId);
    ContextRead(ctx.existing, r.supersedes.value);
  }

  lemma VersionDescribed(ctx: Context, cs: seq<Challenger>, n: Node, r: Revision, v: nat)
    requires IsDescribed(ctx, cs, r.hypothesisId, n)
    ensures IsDescribed(ctx, cs, r.hypothesisId, VersionedNode(n, r, v))
    ensures Described(ctx, cs, r.hypothesisId, v, r.supersedes) == Some(VersionedNode(n, r, v).props)
  {
  }

  lemma RevisionStores(p: Proposal, ctx: Context, cs: seq<Challenger>, rs: seq<Revision>, nodes: seq<Node>, r: Revision, n: Node)
    requires AllStore(p, ctx, cs, rs, nodes) && Makes(p, ctx, r, n.id)
    requires Described(ctx, cs, r.hypothesisId, n.id.version, r.supersedes) == Some(n.props)
    ensures AllStore(p, ctx, cs, rs + [r], ReplaceOrAppend(nodes, n))
  {
    forall m | m in ReplaceOrAppend(nodes, n) && m.id.HypothesisNode?
      ensures Stores(p, ctx, cs, rs + [r], m.id.hypothesisId, m.id.version, m.props)
    {
      InReplaced(nodes, n, m);
      assert (rs + [r])[..|rs + [r]| - 1] == rs;
    }
  }

  lemma NoRevisionStores(p: Proposal, ctx: Context, cs: seq<Challenger>, rs: seq<Revision>, nodes: seq<Node>, r: Revision)
    requires AllStore(p, ctx, cs, rs, nodes) && !IsSupersession(p, ctx, r)
    ensures AllStore(p, ctx, cs, rs + [r], nodes)
  {
    assert (rs + [r])[..|rs + [r]| - 1] == rs;
    forall id ensures LastMaker(p, ctx, rs + [r], id) == LastMaker(p, ctx, rs, id) {}
  }

  ghost predicate Sound(p: Proposal, ctx: Context, cs: seq<Challenger>, rs: seq<Revision>, d: Draft) {
    Kept(p, ctx, d) && AllStore(p, ctx, cs, rs, d.nodes) && AllDescribed(ctx, cs, d.hypotheses)
  }

  lemma DescribedGrows(ctx: Context, cs: seq<Challenger>, hypotheses: map<string, Node>, h: string, n: Node)
    requires AllDescribed(ctx, cs, hypotheses) && IsDescribed(ctx, cs, h, n)
    ensures AllDescribed(ctx, cs, hypotheses[h := n])
  {
  }

  lemma SupersessionSound(p: Proposal, ctx: Context, cs: seq<Challenger>, rs: seq<Revision>, d: Draft, r: Revision)
    requires Sound(p, ctx, cs, rs, d) && IsSupersession(p, ctx, r)
    ensures AllStore(p, ctx, cs, rs + [r], AddRevision(ExistingById(ctx.existing), d, r).nodes)
    ensures AllDescribed(ctx, cs, AddRevision(ExistingById(ctx.existing), d, r).hypotheses)
  {
    var v := ContextVersion(ctx.existing, r.supersedes.value) + 1;
    RevisionMakes(p, ctx, d, r);
    var before := d.hypotheses[r.hypothesisId];
    var n := VersionedNode(before, r, v);
    RevisionNode(p, ctx, d, r);
    assert IsDescribed(ctx, cs, r.hypothesisId, before);
    VersionDescribed(ctx, cs, before, r, v);
    RevisionStores(p, ctx, cs, rs, d.nodes, r, n);
    DescribedGrows(ctx, cs, d.hypotheses, r.hypothesisId, n);
  }

  lemma RevisionSound(p: Proposal, ctx: Context, cs: seq<Challenger>, rs: seq<Revision>, d: Draft, r: Revision)
    requires Sound(p, ctx, cs, rs, d)
    ensures Sound(p, ctx, cs, rs + [r], AddRevision(ExistingById(ctx.existing), d, r))
  {
    if IsSupersession(p, ctx, r) {
      SupersessionSound(p, ctx, cs, rs, d, r);
    } else {
      RevisionMakes(p, ctx, d, r);
      NoRevisionStores(p, ctx, cs, rs, d.nodes, r);
    }
  }

  lemma {:induction false} RevisionsSound(p: Proposal, ctx: Context, cs: seq<Challenger>, d: Draft, rs: seq<Revision>)
    requires Sound(p, ctx, cs, [], d)
    ensures Sound(p, ctx, cs, rs, AddRevisions(ExistingById(ctx.existing), d, rs))
  {
    if |rs| != 0 {
      var init, r := rs[..|rs| - 1], rs[|rs| - 1];
      assert rs == init + [r];
      RevisionsSound(p, ctx, cs, d, init);
      RevisionSound(p, ctx, cs, init, AddRevisions(ExistingById(ctx.existing), d, init), r);
    }
  }

  /** What every hypothesis node of every canonical graph stores. */
  lemma HypothesisNodesStore(p: Proposal, ctx: Context, n: Node)
    requires n in Canonical(p, ctx).nodes && n.id.HypothesisNode?
    ensures Stores(p, ctx, Heeded(p, ctx), p.revisions, n.id.hypothesisId, n.id.version, n.props)
  {
    ChallengedStores(p, ctx);
    HypothesesInPlay(p, ctx);
    RevisionsSound(p, ctx, Heeded(p, ctx), ArguedDraft(p, ctx), p.revisions);
  }

  // ----- what the other nodes store

  ghost predicate SameOthers(a: seq<Node>, b: seq<Node>) {
    forall n :: n in b && !n.id.HypothesisNode? ==> n in a
  }

  lemma ReplaceSameOthers(nodes: seq<Node>, n: Node)
    requires n.id.HypothesisNode?
    ensures SameOthers(nodes, ReplaceOrAppend(nodes, n))
  {
    forall m | m in ReplaceOrAppend(nodes, n) && !m.id.HypothesisNode? ensures m in nodes { InReplaced(nodes, n, m); }
  }

  lemma {:induction false} ChallengersSameOthers(
    ctx: Context, prov: NodeId, existing: map<string, HypothesisSnapshot>, d: Draft, cs: seq<Challenger>)
    ensures SameOthers(d.nodes, AddChallengers(ctx, prov, existing, d, cs).nodes)
  {
    if |cs| != 0 {
      var init, c := cs[..|cs| - 1], cs[|cs| - 1];
      ChallengersSameOthers(ctx, prov, existing, d, init);
      ReplaceSameOthers(AddChallengers(ctx, prov, existing, d, init).nodes, CandidateNode(existing, c));
    }
  }

  lemma RevisionSameOthers(existing: map<string, HypothesisSnapshot>, d: Draft, r: Revision)
    ensures SameOthers(d.nodes, AddRevision(existing, d, r).nodes)
  {
    if r.action == Supersede && RevisionRejection(existing, d.hypotheses, r) == None {
      ReplaceSameOthers(d.nodes, VersionedNode(d.hypotheses[r.hypothesisId], r, existing[r.supersedes.value].version + 1));
    }
  }

  lemma {:induction false} RevisionsSameOthers(existing: map<string, HypothesisSnapshot>, d: Draft, rs: seq<Revision>)
    ensures SameOthers(d.nodes, AddRevisions(existing, d, rs).nodes)
  {
    if |rs| != 0 {
      var init := rs[..|rs| - 1];
      RevisionsSameOthers(existing, d, init);
      RevisionSameOthers(existing, AddRevisions(existing, d, init), rs[|rs| - 1]);
    }
  }

  lemma OthersAreBase(p: Proposal, ctx: Context, n: Node)
    requires n in Canonical(p, ctx).nodes && !n.id.HypothesisNode?
    ensures n in BaseDraft(p, ctx).nodes
  {
    ChallengersSameOthers(ctx, ProvenanceOf(p, ctx).id, ExistingById(ctx.existing), BaseDraft(p, ctx), p.challengers);
    HypothesesInPlay(p, ctx);
    RevisionsSameOthers(ExistingById(ctx.existing), ArguedDraft(p, ctx), p.revisions);
  }

  /** The first candidate of an evidence key, and what its node stores. */
  ghost predicate EvidenceStored(p: Proposal, i: nat, n: Node) {
    && i < |p.evidence|
    && n.id == EvidenceNode(p.evidence[i].kind, Lower(Strip(p.evidence[i].sourceUrl)))
    && n.props == EvidenceProps(p.evidence[i].sourceUrl, p.evidence[i].title, p.evidence[i].accessedAt, p.evidence[i].note)
    && forall j :: 0 <= j < i ==> n.id != EvidenceNode(p.evidence[j].kind, Lower(Strip(p.evidence[j].sourceUrl)))
  }

  /** The first claim that has the node, and what the node stores. */
  ghost predicate ClaimStored(p: Proposal, i: nat, n: Node) {
    && i < |p.claims|
    && NodeOfClaim(p.evidence, p.claims[i]) == Some(n.id)
    && n.props == ClaimProps(NormalizeText(p.claims[i].text), Lower(NormalizeText(p.claims[i].temporalScope)))
    && forall j :: 0 <= j < i ==> NodeOfClaim(p.evidence, p.claims[j]) != Some(n.id)
  }

  ghost predicate OtherStored(p: Proposal, ctx: Context, n: Node) {
    match n.id
    case ProvenanceNode(_) => n.props == ProvenanceProps(ctx.topic, ctx.run, p.summary, p.meta)
    case EvidenceNode(_, _) => exists i: nat :: EvidenceStored(p, i, n)
    case ClaimNode(_, _, _) => exists i: nat :: ClaimStored(p, i, n)
    case HypothesisNode(_, _) => true
  }

  lemma EvidenceNodeStores(p: Proposal, ctx: Context, n: Node)
    requires n in EvidencePart(p, ctx).nodes
    ensures n.id.EvidenceNode? && exists i: nat :: EvidenceStored(p, i, n)
  {
    FirstEvidenceWins(ProvenanceOf(p, ctx).id, p.evidence, n);
    var i: nat :| FirstEvidence(n, p.evidence, i);
    assert forall j :: 0 <= j < i ==> EvidenceIdOf(p.evidence[j]) != n.id;
    assert EvidenceStored(p, i, n);
  }

  lemma FirstClaimStored(p: Proposal, ctx: Context, n: Node, i: nat)
    requires FirstClaim(n, EvidencePart(p, ctx).aliases, p.claims, i)
    ensures ClaimStored(p, i, n)
  {
    var aliases := EvidencePart(p, ctx).aliases;
    PartReads(p, ctx);
    forall j | 0 <= j <= i ensures Admitted(aliases, p.claims[j]) <==> Groundable(p.evidence, p.claims[j])
      ensures Admitted(aliases, p.claims[j]) ==> NodeOfClaim(p.evidence, p.claims[j]) == Some(ClaimIdOfClaim(aliases, p.claims[j]))
    {
      AdmittedRead(p.evidence, aliases, p.claims[j]);
      if Groundable(p.evidence, p.claims[j]) { ClaimNodeRead(p.evidence, aliases, p.claims[j]); }
    }
  }

  lemma ClaimNodeStores(p: Proposal, ctx: Context, n: Node)
    requires n in ClaimPart(p, ctx).nodes
    ensures n.id.ClaimNode? && exists i: nat :: ClaimStored(p, i, n)
  {
    var aliases := EvidencePart(p, ctx).aliases;
    FirstClaimWins(ProvenanceOf(p, ctx).id, aliases, p.claims, n);
    var i: nat :| FirstClaim(n, aliases, p.claims, i);
    FirstClaimStored(p, ctx, n, i);
  }

  /** What every other node of every canonical graph stores. */
  lemma OtherNodesStore(p: Proposal, ctx: Context, n: Node)
    requires n in Canonical(p, ctx).nodes && !n.id.HypothesisNode?
    ensures OtherStored(p, ctx, n)
  {
    OthersAreBase(p, ctx, n);
    if n in EvidencePart(p, ctx).nodes {
      EvidenceNodeStores(p, ctx, n);
    } else if n in ClaimPart(p, ctx).nodes {
      ClaimNodeStores(p, ctx, n);
    }
  }

  // ----- what the services hand over

  ghost function LastRef(refs: seq<HypothesisRef>, h: string): Option<HypothesisRef> {
    if |refs| == 0 then None
    else if refs[|refs| - 1].hypothesisId == h then Some(refs[|refs| - 1])
    else LastRef(refs[..|refs| - 1], h)
  }

  lemma {:induction false} NotListed(hs: seq<HypothesisSnapshot>, h: string)
    ensures LastSnapshot(hs, h) == None <==> forall x :: x in hs ==> x.hypothesisId != h
  {
    if |hs| != 0 {
      NotListed(hs[..|hs| - 1], h);
      assert hs == hs[..|hs| - 1] + [hs[|hs| - 1]];
    }
  }

  lemma {:induction false} LastInParts(a: seq<HypothesisSnapshot>, b: seq<HypothesisSnapshot>, h: string)
    ensures LastSnapshot(a + b, h) == if LastSnapshot(b, h).Some? then LastSnapshot(b, h) else LastSnapshot(a, h)
  {
    if |b| == 0 {
      assert a + b == a;
    } else {
      assert (a + b)[..|a + b| - 1] == a + b[..|b| - 1];
      LastInParts(a, b[..|b| - 1], h);
    }
  }

  lemma {:induction false} PutIsRead(hs: seq<HypothesisSnapshot>, x: HypothesisSnapshot, h: string)
    requires DistinctHypotheses(hs)
    ensures LastSnapshot(Put(hs, x), h) == if x.hypothesisId == h then Some(x) else LastSnapshot(hs, h)
    decreases |hs|
  {
    assert LastSnapshot([x], h) == (if x.hypothesisId == h then Some(x) else None) by { assert [x][..0] == []; }
    if hs != [] {
      var first, rest := hs[0], hs[1..];
      assert hs == [first] + rest;
      assert [first][..0] == [];
      LastInParts([first], rest, h);
      LastInParts([x], rest, h);
      NotListed(rest, first.hypothesisId);
      if first.hypothesisId != x.hypothesisId {
        PutIsRead(rest, x, h);
        LastInParts([first], Put(rest, x), h);
      }
    }
  }

  lemma {:induction false} ListingIsRead(refs: seq<HypothesisRef>, h: string)
    ensures LastSnapshot(ExistingHypotheses(refs), h) ==
      match LastRef(refs, h)
      case None => None
      case Some(r) => Some(HypothesisSnapshot(h, r.title, r.summary, 1))
  {
    if |refs| != 0 {
      var init := refs[..|refs| - 1];
      ListingIsRead(init, h);
      ServiceHypothesesAreDistinct(init);
      PutIsRead(ExistingHypotheses(init), SnapshotHypothesis(refs[|refs| - 1]), h);
    }
  }

  /** The context of a service: topic and run as given, the first current best as the one to attack, and each listed hypothesis
      at version 1 with the title and statement of its last listing. */
  lemma ServiceContextIs(s: Snapshot, run: string, h: string)
    requires s.currentBest != []
    ensures var ctx := ServiceContext(s, run);
      && ctx.topic == s.topic && ctx.run == run && ctx.proposalId == "proposal:" + run
      && ctx.currentBest == Some(s.currentBest[0].hypothesisId)
      && LastSnapshot(ctx.existing, h) ==
           (match LastRef(s.currentBest + s.targets, h)
            case None => None
            case Some(r) => Some(HypothesisSnapshot(h, r.title, r.summary, 1)))
  {
    ListingIsRead(s.currentBest + s.targets, h);
  }
}
