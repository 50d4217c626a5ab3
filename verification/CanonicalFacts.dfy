/** What each phase of canonicalization produces, said without its loops, and closure of the finished graph. */
module CanonicalFacts {
  import opened Prelude
  import opened Proposals
  import opened Canonicalization

  ghost predicate DistinctIds(nodes: seq<Node>) {
    forall i, j :: 0 <= i < j < |nodes| ==> nodes[i].id != nodes[j].id
  }

  ghost predicate Within(edges: multiset<Edge>, ids: set<NodeId>) {
    forall e :: e in edges ==> e.source in ids && e.target in ids
  }

  // ----- evidence

  ghost function EvidenceIds(es: seq<Evidence>): set<NodeId> {
    set e | e in es :: EvidenceIdOf(e)
  }

  ghost function RecordedEdges(ids: set<NodeId>, prov: NodeId): set<Edge> {
    set id | id in ids :: Recorded(id, prov)
  }

  lemma EvidenceIdsGrow(init: seq<Evidence>, e: Evidence)
    ensures EvidenceIds(init + [e]) == EvidenceIds(init) + {EvidenceIdOf(e)}
  {
  }

  lemma IdsGrow(nodes: seq<Node>, n: Node)
    ensures Ids(nodes + [n]) == Ids(nodes) + {n.id}
  {
  }

  lemma RecordedEdgesGrow(ids: set<NodeId>, id: NodeId, prov: NodeId)
    requires id !in ids
    ensures multiset(RecordedEdges(ids + {id}, prov)) == multiset(RecordedEdges(ids, prov)) + multiset{Recorded(id, prov)}
  {
    assert RecordedEdges(ids + {id}, prov) == RecordedEdges(ids, prov) + {Recorded(id, prov)};
    assert Recorded(id, prov) !in RecordedEdges(ids, prov);
  }

  ghost predicate EvidenceIndexed(prov: NodeId, ids: set<NodeId>, x: EvidenceIndex) {
    && x.byKey.Keys == ids
    && Ids(x.nodes) == ids
    && DistinctIds(x.nodes)
    && x.edges == multiset(RecordedEdges(ids, prov))
  }

  lemma DistinctIdsGrow(nodes: seq<Node>, n: Node)
    requires DistinctIds(nodes) && n.id !in Ids(nodes)
    ensures DistinctIds(nodes + [n])
  {
    assert forall i :: 0 <= i < |nodes| ==> nodes[i].id in Ids(nodes);
  }

  lemma AddEvidenceIndexed(prov: NodeId, ids: set<NodeId>, x: EvidenceIndex, e: Evidence)
    requires EvidenceIndexed(prov, ids, x)
    ensures EvidenceIndexed(prov, ids + {EvidenceIdOf(e)}, AddEvidence(prov, x, e))
  {
    var id := EvidenceIdOf(e);
    if id in ids {
      assert ids + {id} == ids;
    } else {
      IdsGrow(x.nodes, EvidenceNodeOf(e));
      DistinctIdsGrow(x.nodes, EvidenceNodeOf(e));
      RecordedEdgesGrow(ids, id, prov);
    }
  }

  /** One node and one RECORDED_IN edge per evidence key. */
  lemma {:induction false} EvidenceFacts(prov: NodeId, es: seq<Evidence>)
    ensures EvidenceIndexed(prov, EvidenceIds(es), IndexEvidence(prov, es))
  {
    if |es| != 0 {
      var k := |es| - 1;
      EvidenceFacts(prov, es[..k]);
      assert es == es[..k] + [es[k]];
      EvidenceIdsGrow(es[..k], es[k]);
      AddEvidenceIndexed(prov, EvidenceIds(es[..k]), IndexEvidence(prov, es[..k]), es[k]);
    }
  }

  lemma {:induction false} EvidenceNodesAreCandidates(prov: NodeId, es: seq<Evidence>)
    ensures forall n :: n in IndexEvidence(prov, es).nodes ==> exists e :: e in es && n == EvidenceNodeOf(e)
  {
    if |es| != 0 {
      var k := |es| - 1;
      EvidenceNodesAreCandidates(prov, es[..k]);
      assert es == es[..k] + [es[k]];
    }
  }

  lemma AddEvidenceAlias(prov: NodeId, x: EvidenceIndex, e: Evidence)
    ensures AddEvidence(prov, x, e).aliases == x.aliases[e.artifactId := EvidenceIdOf(e)]
  {
  }

  lemma {:induction false} EvidenceAliasKeys(prov: NodeId, es: seq<Evidence>)
    ensures IndexEvidence(prov, es).aliases.Keys == set e | e in es :: e.artifactId
    ensures forall a :: a in IndexEvidence(prov, es).aliases ==> IndexEvidence(prov, es).aliases[a] in EvidenceIds(es)
  {
    if |es| != 0 {
      var k := |es| - 1;
      EvidenceAliasKeys(prov, es[..k]);
      assert es == es[..k] + [es[k]];
      EvidenceIdsGrow(es[..k], es[k]);
      AddEvidenceAlias(prov, IndexEvidence(prov, es[..k]), es[k]);
    }
  }

  const EvidenceBinding: Evidence -> Option<NodeId> := (e: Evidence) => Some(EvidenceIdOf(e))

  lemma {:induction false} EvidenceAliases(prov: NodeId, es: seq<Evidence>)
    requires Distinct(Map(ArtifactIdOf, es))
    ensures Overlays(map[], ArtifactIdOf, EvidenceBinding, es, IndexEvidence(prov, es).aliases)
  {
    if |es| != 0 {
      var k := |es| - 1;
      assert Map(ArtifactIdOf, es[..k]) == Map(ArtifactIdOf, es)[..k];
      EvidenceAliases(prov, es[..k]);
      assert es == es[..k] + [es[k]];
      OnlyLastHasItsId(ArtifactIdOf, es);
      OverlaysGrow(map[], ArtifactIdOf, EvidenceBinding, es[..k], es[k], IndexEvidence(prov, es[..k]).aliases);
    }
  }

  lemma OnlyLastHasItsId<A, B>(f: A -> B, xs: seq<A>)
    requires |xs| > 0 && Distinct(Map(f, xs))
    ensures forall x :: x in xs[..|xs| - 1] ==> f(x) != f(xs[|xs| - 1])
  {
    forall x | x in xs[..|xs| - 1] ensures f(x) != f(xs[|xs| - 1]) {
      var i :| 0 <= i < |xs| - 1 && xs[i] == x;
      assert Map(f, xs)[i] == f(x);
    }
  }

  // ----- claims

  ghost predicate Admitted(aliases: map<string, NodeId>, c: Claim) {
    RejectionOf(aliases, c) == None
  }

  ghost function AdmittedIds(aliases: map<string, NodeId>, cs: seq<Claim>): set<NodeId> {
    Collect((c: Claim) => if Admitted(aliases, c) then Some(ClaimIdOfClaim(aliases, c)) else None, cs)
  }

  ghost function Rejections(aliases: map<string, NodeId>, cs: seq<Claim>): set<Reason> {
    Collect((c: Claim) => RejectionOf(aliases, c), cs)
  }

  ghost function AllClaimEdges(ids: set<NodeId>, prov: NodeId): set<Edge>
    requires forall id :: id in ids ==> id.ClaimNode?
  {
    set id, e | id in ids && e in ClaimEdges(id, prov) :: e
  }

  lemma AdmittedIdsGrow(aliases: map<string, NodeId>, init: seq<Claim>, c: Claim)
    ensures AdmittedIds(aliases, init + [c]) ==
      AdmittedIds(aliases, init) + if Admitted(aliases, c) then {ClaimIdOfClaim(aliases, c)} else {}
    ensures Rejections(aliases, init + [c]) ==
      Rejections(aliases, init) + if Admitted(aliases, c) then {} else {RejectionOf(aliases, c).value}
  {
    CollectGrow((d: Claim) => RejectionOf(aliases, d), init, c);
    CollectGrow((d: Claim) => if Admitted(aliases, d) then Some(ClaimIdOfClaim(aliases, d)) else None, init, c);
  }

  lemma ClaimEdgesGrow(ids: set<NodeId>, id: NodeId, prov: NodeId)
    requires forall i :: i in ids ==> i.ClaimNode?
    requires id.ClaimNode? && id !in ids
    ensures multiset(AllClaimEdges(ids + {id}, prov)) == multiset(AllClaimEdges(ids, prov)) + multiset(ClaimEdges(id, prov))
  {
    assert AllClaimEdges(ids + {id}, prov) == AllClaimEdges(ids, prov) + ClaimEdges(id, prov);
    forall e | e in ClaimEdges(id, prov) ensures e !in AllClaimEdges(ids, prov) {
      assert e.source == id;
    }
  }

  ghost predicate ClaimsIndexed(prov: NodeId, ids: set<NodeId>, x: ClaimIndex) {
    && x.byKey.Keys == ids
    && Ids(x.nodes) == ids
    && DistinctIds(x.nodes)
    && (forall id :: id in ids ==> id.ClaimNode?)
    && x.edges == multiset(AllClaimEdges(ids, prov))
  }

  lemma AddClaimIndexed(prov: NodeId, aliases: map<string, NodeId>, ids: set<NodeId>, x: ClaimIndex, c: Claim)
    requires ClaimsIndexed(prov, ids, x) && Admitted(aliases, c)
    ensures ClaimsIndexed(prov, ids + {ClaimIdOfClaim(aliases, c)}, AddClaim(prov, aliases, x, c))
  {
    var id := ClaimIdOfClaim(aliases, c);
    if id in ids {
      assert ids + {id} == ids;
    } else {
      IdsGrow(x.nodes, ClaimNodeOf(aliases, c));
      DistinctIdsGrow(x.nodes, ClaimNodeOf(aliases, c));
      ClaimEdgesGrow(ids, id, prov);
    }
  }

  /** One node per admitted claim key with its RECORDED_IN and DERIVED_FROM edges. */
  lemma {:induction false} ClaimFacts(prov: NodeId, aliases: map<string, NodeId>, cs: seq<Claim>)
    ensures ClaimsIndexed(prov, AdmittedIds(aliases, cs), IndexClaims(prov, aliases, cs))
  {
    if |cs| == 0 {
      assert AllClaimEdges({}, prov) == {};
    } else {
      var k := |cs| - 1;
      var c, x := cs[k], IndexClaims(prov, aliases, cs[..k]);
      ClaimFacts(prov, aliases, cs[..k]);
      assert cs == cs[..k] + [c];
      AdmittedIdsGrow(aliases, cs[..k], c);
      if Admitted(aliases, c) {
        AddClaimIndexed(prov, aliases, AdmittedIds(aliases, cs[..k]), x, c);
      } else {
        assert AdmittedIds(aliases, cs) == AdmittedIds(aliases, cs[..k]);
      }
    }
  }

  lemma AddClaimReason(prov: NodeId, aliases: map<string, NodeId>, x: ClaimIndex, c: Claim)
    ensures AddClaim(prov, aliases, x, c).reasons ==
      x.reasons + if Admitted(aliases, c) then {} else {RejectionOf(aliases, c).value}
  {
  }

  /** Exactly the rejected claims leave a reason. */
  lemma {:induction false} ClaimReasons(prov: NodeId, aliases: map<string, NodeId>, cs: seq<Claim>)
    ensures IndexClaims(prov, aliases, cs).reasons == Rejections(aliases, cs)
  {
    if |cs| != 0 {
      var k := |cs| - 1;
      ClaimReasons(prov, aliases, cs[..k]);
      assert cs == cs[..k] + [cs[k]];
      AddClaimReason(prov, aliases, IndexClaims(prov, aliases, cs[..k]), cs[k]);
      AdmittedIdsGrow(aliases, cs[..k], cs[k]);
    }
  }

  lemma AddClaimNodes(prov: NodeId, aliases: map<string, NodeId>, x: ClaimIndex, c: Claim, n: Node)
    requires n in AddClaim(prov, aliases, x, c).nodes
    ensures n in x.nodes || (Admitted(aliases, c) && n == ClaimNodeOf(aliases, c))
  {
  }

  lemma {:induction false} ClaimNodesAreClaims(prov: NodeId, aliases: map<string, NodeId>, cs: seq<Claim>)
    ensures forall n :: n in IndexClaims(prov, aliases, cs).nodes ==>
      exists c :: c in cs && Admitted(aliases, c) && n == ClaimNodeOf(aliases, c)
  {
    if |cs| != 0 {
      var init, last := cs[..|cs| - 1], cs[|cs| - 1];
      ClaimNodesAreClaims(prov, aliases, init);
      forall n | n in IndexClaims(prov, aliases, cs).nodes
        ensures exists c :: c in cs && Admitted(aliases, c) && n == ClaimNodeOf(aliases, c)
      {
        AddClaimNodes(prov, aliases, IndexClaims(prov, aliases, init), last, n);
        if n !in IndexClaims(prov, aliases, init).nodes { assert last in cs; }
      }
    }
  }

  /** Exactly the admitted claims are aliased. */
  lemma {:induction false} ClaimAliasKeys(prov: NodeId, aliases: map<string, NodeId>, cs: seq<Claim>)
    ensures forall a :: a in IndexClaims(prov, aliases, cs).aliases <==>
      exists c :: c in cs && Admitted(aliases, c) && c.claimId == a
  {
    if |cs| != 0 {
      var k := |cs| - 1;
      ClaimAliasKeys(prov, aliases, cs[..k]);
      assert cs == cs[..k] + [cs[k]];
    }
  }

  lemma {:induction false} ClaimAliasTargets(prov: NodeId, aliases: map<string, NodeId>, cs: seq<Claim>)
    ensures forall a :: a in IndexClaims(prov, aliases, cs).aliases ==>
      IndexClaims(prov, aliases, cs).aliases[a] in AdmittedIds(aliases, cs)
  {
    if |cs| != 0 {
      var k := |cs| - 1;
      ClaimAliasTargets(prov, aliases, cs[..k]);
      assert cs == cs[..k] + [cs[k]];
      AdmittedIdsGrow(aliases, cs[..k], cs[k]);
    }
  }

  ghost function ClaimBinding(aliases: map<string, NodeId>): Claim -> Option<NodeId> {
    (c: Claim) => if Admitted(aliases, c) then Some(ClaimIdOfClaim(aliases, c)) else None
  }

  /** With distinct claim ids an admitted claim is aliased to its own node. */
  lemma {:induction false} ClaimAliases(prov: NodeId, aliases: map<string, NodeId>, cs: seq<Claim>)
    requires Distinct(Map(ClaimIdOf, cs))
    ensures Overlays(map[], ClaimIdOf, ClaimBinding(aliases), cs, IndexClaims(prov, aliases, cs).aliases)
  {
    if |cs| != 0 {
      var k := |cs| - 1;
      assert Map(ClaimIdOf, cs[..k]) == Map(ClaimIdOf, cs)[..k];
      ClaimAliases(prov, aliases, cs[..k]);
      assert cs == cs[..k] + [cs[k]];
      OnlyLastHasItsId(ClaimIdOf, cs);
      OverlaysGrow(map[], ClaimIdOf, ClaimBinding(aliases), cs[..k], cs[k], IndexClaims(prov, aliases, cs[..k]).aliases);
    }
  }

  // ----- hypotheses

  lemma {:induction false} ExistingFacts(hs: seq<HypothesisSnapshot>)
    ensures ExistingById(hs).Keys == set h | h in hs :: h.hypothesisId
    ensures forall id :: id in ExistingById(hs) ==> ExistingById(hs)[id] in hs && ExistingById(hs)[id].hypothesisId == id
  {
    if |hs| != 0 {
      var k := |hs| - 1;
      ExistingFacts(hs[..k]);
      assert hs == hs[..k] + [hs[k]];
    }
  }

  lemma {:induction false} HypothesisIndexFacts(nodes: seq<Node>)
    ensures HypothesisIndex(nodes).Keys == set n | n in nodes && n.props.HypothesisProps? :: n.props.hypothesisId
    ensures forall h :: h in HypothesisIndex(nodes) ==>
      HypothesisIndex(nodes)[h] in nodes && HypothesisIndex(nodes)[h].props.HypothesisProps?
      && HypothesisIndex(nodes)[h].props.hypothesisId == h
  {
    if |nodes| != 0 {
      var k := |nodes| - 1;
      HypothesisIndexFacts(nodes[..k]);
      assert nodes == nodes[..k] + [nodes[k]];
    }
  }

  lemma {:induction false} HypothesisIndexSkips(a: seq<Node>, b: seq<Node>)
    requires forall n :: n in b ==> !n.props.HypothesisProps?
    ensures HypothesisIndex(a + b) == HypothesisIndex(a)
  {
    if |b| == 0 {
      assert a + b == a;
    } else {
      var k := |b| - 1;
      assert (a + b)[..|a + b| - 1] == a + b[..k];
      HypothesisIndexSkips(a, b[..k]);
    }
  }

  lemma IdsReplaceOrAppend(nodes: seq<Node>, n: Node)
    ensures Ids(ReplaceOrAppend(nodes, n)) == Ids(nodes) + {n.id}
    ensures n in ReplaceOrAppend(nodes, n)
    ensures forall m :: m in nodes && m.id != n.id ==> m in ReplaceOrAppend(nodes, n)
  {
    var out := ReplaceOrAppend(nodes, n);
    if n.id in Ids(nodes) {
      assert |out| == |nodes|;
      forall i | 0 <= i < |nodes| ensures nodes[i].id == out[i].id && (nodes[i].id == n.id ==> out[i] == n) {}
      forall id | id in Ids(nodes) ensures id in Ids(out) {
        var i :| 0 <= i < |nodes| && nodes[i].id == id;
        assert out[i] in out;
      }
      var i :| 0 <= i < |nodes| && nodes[i].id == n.id;
      assert out[i] == n;
      forall m | m in nodes && m.id != n.id ensures m in out {
        var j :| 0 <= j < |nodes| && nodes[j] == m;
        assert out[j] == m;
      }
    } else {
      assert n in out && forall m :: m in nodes ==> m in out;
    }
  }

  /** Everything an edge may still be drawn to is already a node, and no edge dangles. */
  ghost predicate Closed(d: Draft, prov: NodeId, existing: map<string, HypothesisSnapshot>) {
    && prov in Ids(d.nodes)
    && Within(d.edges, Ids(d.nodes))
    && (forall h :: h in d.hypotheses ==> d.hypotheses[h].id in Ids(d.nodes))
    && (forall h :: h in existing ==>
          existing[h].hypothesisId == h && HypothesisNode(h, existing[h].version) in Ids(d.nodes))
  }

  lemma ExistingNodesHaveIds(ctx: Context, h: HypothesisSnapshot)
    requires h in ctx.existing
    ensures HypothesisNode(h.hypothesisId, h.version) in Ids(ExistingNodes(ctx))
  {
    var i :| 0 <= i < |ctx.existing| && ctx.existing[i] == h;
    assert ExistingNodes(ctx)[i] in ExistingNodes(ctx);
  }

  ghost predicate NoHypotheses(nodes: seq<Node>) {
    forall n :: n in nodes ==> !n.props.HypothesisProps?
  }

  lemma EvidenceAndClaimsAreNot(p: Proposal, ctx: Context)
    ensures NoHypotheses(EvidencePart(p, ctx).nodes + ClaimPart(p, ctx).nodes)
  {
    EvidenceNodesAreCandidates(ProvenanceOf(p, ctx).id, p.evidence);
    ClaimNodesAreClaims(ProvenanceOf(p, ctx).id, EvidencePart(p, ctx).aliases, p.claims);
  }

  lemma BaseHypotheses(p: Proposal, ctx: Context)
    ensures BaseDraft(p, ctx).hypotheses == HypothesisIndex([ProvenanceOf(p, ctx)] + ExistingNodes(ctx))
  {
    var front, back := [ProvenanceOf(p, ctx)] + ExistingNodes(ctx), EvidencePart(p, ctx).nodes + ClaimPart(p, ctx).nodes;
    EvidenceAndClaimsAreNot(p, ctx);
    assert BaseDraft(p, ctx).nodes == front + back;
    HypothesisIndexSkips(front, back);
  }

  lemma ExistingNodesIndexed(ctx: Context, front: seq<Node>)
    requires forall n :: n in front ==> !n.props.HypothesisProps?
    ensures HypothesisIndex(front + ExistingNodes(ctx)).Keys == ExistingById(ctx.existing).Keys
  {
    var nodes := front + ExistingNodes(ctx);
    var keys := HypothesisIndex(nodes).Keys;
    HypothesisIndexFacts(nodes);
    ExistingFacts(ctx.existing);
    forall id | id in ExistingById(ctx.existing).Keys ensures id in keys {
      var i :| 0 <= i < |ctx.existing| && ctx.existing[i].hypothesisId == id;
      assert nodes[|front| + i] == ExistingNodes(ctx)[i];
    }
    forall id | id in keys ensures id in ExistingById(ctx.existing).Keys {
      var i :| 0 <= i < |ctx.existing| && ExistingNodes(ctx)[i].props.hypothesisId == id;
      assert ctx.existing[i] in ctx.existing;
    }
  }

  /** The hypotheses known before any challenger are exactly those of the context. */
  lemma BaseHypothesisIds(p: Proposal, ctx: Context)
    ensures BaseDraft(p, ctx).hypotheses.Keys == ExistingById(ctx.existing).Keys
  {
    BaseHypotheses(p, ctx);
    ExistingNodesIndexed(ctx, [ProvenanceOf(p, ctx)]);
  }

  lemma BaseNodes(p: Proposal, ctx: Context)
    ensures Ids(BaseDraft(p, ctx).nodes) ==
      {ProvenanceOf(p, ctx).id} + Ids(ExistingNodes(ctx))
      + EvidenceIds(p.evidence) + AdmittedIds(EvidencePart(p, ctx).aliases, p.claims)
  {
    var prov := ProvenanceOf(p, ctx);
    EvidenceFacts(prov.id, p.evidence);
    ClaimFacts(prov.id, EvidencePart(p, ctx).aliases, p.claims);
    IdsOfFour(prov, ExistingNodes(ctx), EvidencePart(p, ctx).nodes, ClaimPart(p, ctx).nodes);
  }

  lemma IdsConcat(a: seq<Node>, b: seq<Node>)
    ensures Ids(a + b) == Ids(a) + Ids(b)
  {
  }

  lemma IdsOfFour(a: Node, b: seq<Node>, c: seq<Node>, d: seq<Node>)
    ensures Ids([a] + b + c + d) == {a.id} + Ids(b) + Ids(c) + Ids(d)
  {
    IdsConcat([a] + b + c, d);
    IdsConcat([a] + b, c);
    IdsConcat([a], b);
  }

  lemma AdmittedArtifacts(aliases: map<string, NodeId>, ids: set<NodeId>, cs: seq<Claim>)
    requires forall a :: a in aliases ==> aliases[a] in ids
    ensures forall id :: id in AdmittedIds(aliases, cs) ==> id.ClaimNode? && id.artifacts <= ids
  {
  }

  lemma BaseEdgesWithin(p: Proposal, ctx: Context)
    ensures Within(BaseDraft(p, ctx).edges, Ids(BaseDraft(p, ctx).nodes))
  {
    var prov, ev, cl, d := ProvenanceOf(p, ctx).id, EvidencePart(p, ctx), ClaimPart(p, ctx), BaseDraft(p, ctx);
    EvidenceFacts(prov, p.evidence);
    EvidenceAliasKeys(prov, p.evidence);
    ClaimFacts(prov, ev.aliases, p.claims);
    BaseNodes(p, ctx);
    AdmittedArtifacts(ev.aliases, EvidenceIds(p.evidence), p.claims);
    forall e | e in d.edges ensures e.source in Ids(d.nodes) && e.target in Ids(d.nodes) {
      if e in cl.edges {
        var id :| id in AdmittedIds(ev.aliases, p.claims) && e in ClaimEdges(id, prov);
      } else {
        assert e in RecordedEdges(EvidenceIds(p.evidence), prov);
      }
    }
  }

  lemma BaseClosed(p: Proposal, ctx: Context)
    ensures Closed(BaseDraft(p, ctx), ProvenanceOf(p, ctx).id, ExistingById(ctx.existing))
  {
    var d := BaseDraft(p, ctx);
    BaseEdgesWithin(p, ctx);
    BaseNodes(p, ctx);
    BaseHypotheses(p, ctx);
    HypothesisIndexFacts([ProvenanceOf(p, ctx)] + ExistingNodes(ctx));
    IdsConcat([ProvenanceOf(p, ctx)], ExistingNodes(ctx));
    ExistingFacts(ctx.existing);
    forall h | h in ExistingById(ctx.existing) ensures HypothesisNode(h, ExistingById(ctx.existing)[h].version) in Ids(d.nodes) {
      ExistingNodesHaveIds(ctx, ExistingById(ctx.existing)[h]);
    }
  }

  lemma BaseAliases(p: Proposal, ctx: Context)
    ensures forall a :: a in ClaimPart(p, ctx).aliases ==> ClaimPart(p, ctx).aliases[a] in Ids(BaseDraft(p, ctx).nodes)
  {
    BaseNodes(p, ctx);
    ClaimAliasTargets(ProvenanceOf(p, ctx).id, EvidencePart(p, ctx).aliases, p.claims);
  }

  lemma ChallengerKeepsClosed(ctx: Context, prov: NodeId, existing: map<string, HypothesisSnapshot>, d: Draft, c: Challenger)
    requires Closed(d, prov, existing)
    ensures Closed(AddChallenger(ctx, prov, existing, d, c), prov, existing)
    ensures Ids(d.nodes) <= Ids(AddChallenger(ctx, prov, existing, d, c).nodes)
  {
    IdsReplaceOrAppend(d.nodes, CandidateNode(existing, c));
  }

  lemma {:induction false} ChallengersKeepClosed(
    ctx: Context, prov: NodeId, existing: map<string, HypothesisSnapshot>, d: Draft, cs: seq<Challenger>)
    requires Closed(d, prov, existing)
    ensures Closed(AddChallengers(ctx, prov, existing, d, cs), prov, existing)
    ensures Ids(d.nodes) <= Ids(AddChallengers(ctx, prov, existing, d, cs).nodes)
  {
    if |cs| != 0 {
      var k := |cs| - 1;
      ChallengersKeepClosed(ctx, prov, existing, d, cs[..k]);
      ChallengerKeepsClosed(ctx, prov, existing, AddChallengers(ctx, prov, existing, d, cs[..k]), cs[k]);
    }
  }

  lemma {:induction false} ClaimEdgesOfMembers(aliases: map<string, NodeId>, a: Argument, target: NodeId, ids: seq<string>)
    requires forall id :: id in ids ==> id in aliases
    ensures forall e :: e in ClaimEdgesOf(aliases, a, target, ids) <==>
      exists id :: id in ids && e == Edge(ArgumentKind(a), aliases[id], target, ArgumentNote(a.argumentId, a.rationale))
  {
    if |ids| != 0 {
      var k := |ids| - 1;
      ClaimEdgesOfMembers(aliases, a, target, ids[..k]);
      assert ids == ids[..k] + [ids[k]];
    }
  }

  lemma {:induction false} ArgumentsKeepClosed(
    prov: NodeId, existing: map<string, HypothesisSnapshot>, aliases: map<string, NodeId>, d: Draft, args: seq<Argument>)
    requires Closed(d, prov, existing)
    requires forall a :: a in aliases ==> aliases[a] in Ids(d.nodes)
    ensures Closed(AddArguments(aliases, d, args), prov, existing)
    ensures AddArguments(aliases, d, args).nodes == d.nodes && AddArguments(aliases, d, args).hypotheses == d.hypotheses
  {
    if |args| != 0 {
      var k := |args| - 1;
      var a, x := args[k], AddArguments(aliases, d, args[..k]);
      ArgumentsKeepClosed(prov, existing, aliases, d, args[..k]);
      if ArgumentRejection(aliases, x.hypotheses, a) == None {
        ClaimEdgesOfMembers(aliases, a, x.hypotheses[a.target].id, Dedup(a.claimIds));
      }
    }
  }

  lemma SupersededKeepsClosed(
    prov: NodeId, existing: map<string, HypothesisSnapshot>, d: Draft, r: Revision, n: Node, predecessor: NodeId)
    requires Closed(d, prov, existing) && predecessor in Ids(d.nodes)
    ensures Closed(Superseded(d, r, n, predecessor), prov, existing)
    ensures Ids(d.nodes) <= Ids(Superseded(d, r, n, predecessor).nodes)
  {
    IdsReplaceOrAppend(d.nodes, n);
  }

  lemma RevisionKeepsClosed(prov: NodeId, existing: map<string, HypothesisSnapshot>, d: Draft, r: Revision)
    requires Closed(d, prov, existing)
    ensures Closed(AddRevision(existing, d, r), prov, existing)
    ensures Ids(d.nodes) <= Ids(AddRevision(existing, d, r).nodes)
  {
    var out := AddRevision(existing, d, r);
    if r.action == Supersede && RevisionRejection(existing, d.hypotheses, r) == None {
      var version := existing[r.supersedes.value].version;
      var n := VersionedNode(d.hypotheses[r.hypothesisId], r, version + 1);
      SupersededKeepsClosed(prov, existing, d, r, n, HypothesisNode(r.supersedes.value, version));
      assert out == Superseded(d, r, n, HypothesisNode(r.supersedes.value, version));
    } else {
      assert out.nodes == d.nodes && out.edges == d.edges && out.hypotheses == d.hypotheses;
    }
  }

  lemma {:induction false} RevisionsKeepClosed(
    prov: NodeId, existing: map<string, HypothesisSnapshot>, d: Draft, rs: seq<Revision>)
    requires Closed(d, prov, existing)
    ensures Closed(AddRevisions(existing, d, rs), prov, existing)
    ensures Ids(d.nodes) <= Ids(AddRevisions(existing, d, rs).nodes)
  {
    if |rs| != 0 {
      var k := |rs| - 1;
      RevisionsKeepClosed(prov, existing, d, rs[..k]);
      RevisionKeepsClosed(prov, existing, AddRevisions(existing, d, rs[..k]), rs[k]);
    }
  }

  /** For every proposal and every context, no edge of the canonical graph dangles, so the integrity pass at the end
      never adds a quarantine reason of its own. */
  lemma CanonicalEdgesWithin(p: Proposal, ctx: Context)
    ensures Within(Canonical(p, ctx).edges, Ids(Canonical(p, ctx).nodes))
  {
    var prov, existing, aliases := ProvenanceOf(p, ctx).id, ExistingById(ctx.existing), ClaimPart(p, ctx).aliases;
    BaseClosed(p, ctx);
    BaseAliases(p, ctx);
    ChallengersKeepClosed(ctx, prov, existing, BaseDraft(p, ctx), p.challengers);
    ArgumentsKeepClosed(prov, existing, aliases, ChallengedDraft(p, ctx), p.arguments);
    RevisionsKeepClosed(prov, existing, ArguedDraft(p, ctx), p.revisions);
  }

  lemma NothingDangles(nodes: seq<Node>, edges: multiset<Edge>)
    requires Within(edges, Ids(nodes))
    ensures EdgeIntegrityReasons(nodes, edges) == {}
  {
  }

  lemma CanonicalGraphIsClosed(p: Proposal, ctx: Context)
    ensures Within(Canonical(p, ctx).edges, Ids(Canonical(p, ctx).nodes))
    ensures EdgeIntegrityReasons(Canonical(p, ctx).nodes, Canonical(p, ctx).edges) == {}
    ensures Canonical(p, ctx).reasons == FinalDraft(p, ctx).reasons
  {
    CanonicalEdgesWithin(p, ctx);
    NothingDangles(FinalDraft(p, ctx).nodes, FinalDraft(p, ctx).edges);
  }

}
