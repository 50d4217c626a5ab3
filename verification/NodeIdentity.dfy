/** Node ids are unique in every canonical graph a service builds, so its sorted form, and with it the digest, is determined
    by the proposal up to the order of its lists. */
module NodeIdentity {
  import opened Prelude
  import opened Ordering
  import opened Proposals
  import opened Canonicalization
  import opened CanonicalFacts
  import opened CanonicalReasons
  import opened Permutation
  import opened Pipeline

  lemma ReplaceKeepsDistinct(nodes: seq<Node>, n: Node)
    requires DistinctIds(nodes)
    ensures DistinctIds(ReplaceOrAppend(nodes, n))
  {
    if n.id in Ids(nodes) {
      forall i | 0 <= i < |nodes| ensures ReplaceOrAppend(nodes, n)[i].id == nodes[i].id {}
    } else {
      DistinctIdsGrow(nodes, n);
    }
  }

  lemma DistinctConcat(a: seq<Node>, b: seq<Node>)
    requires DistinctIds(a) && DistinctIds(b) && Ids(a) !! Ids(b)
    ensures DistinctIds(a + b)
  {
    forall i, j | 0 <= i < j < |a + b| ensures (a + b)[i].id != (a + b)[j].id {
      if i < |a| <= j {
        assert a[i].id in Ids(a) && b[j - |a|].id in Ids(b);
      }
    }
  }

  /** Nodes of different kinds never share an id. */
  lemma KindsAreDistinct(prov: Node, hypotheses: seq<Node>, evidence: seq<Node>, claims: seq<Node>)
    requires prov.id.ProvenanceNode? && DistinctIds(hypotheses) && DistinctIds(evidence) && DistinctIds(claims)
    requires forall n :: n in hypotheses ==> n.id.HypothesisNode?
    requires forall id :: id in Ids(evidence) ==> id.EvidenceNode?
    requires forall id :: id in Ids(claims) ==> id.ClaimNode?
    ensures DistinctIds([prov] + hypotheses + evidence + claims)
  {
    IdsConcat([prov], hypotheses);
    IdsConcat([prov] + hypotheses, evidence);
    DistinctConcat([prov], hypotheses);
    DistinctConcat([prov] + hypotheses, evidence);
    DistinctConcat([prov] + hypotheses + evidence, claims);
  }

  lemma BaseNodesAreDistinct(p: Proposal, ctx: Context)
    requires DistinctIds(ExistingNodes(ctx))
    ensures DistinctIds(BaseDraft(p, ctx).nodes)
  {
    var prov := ProvenanceOf(p, ctx);
    EvidenceFacts(prov.id, p.evidence);
    ClaimFacts(prov.id, EvidencePart(p, ctx).aliases, p.claims);
    KindsAreDistinct(prov, ExistingNodes(ctx), EvidencePart(p, ctx).nodes, ClaimPart(p, ctx).nodes);
  }

  lemma ChallengerKeepsDistinct(ctx: Context, prov: NodeId, existing: map<string, HypothesisSnapshot>, d: Draft, c: Challenger)
    requires DistinctIds(d.nodes)
    ensures DistinctIds(AddChallenger(ctx, prov, existing, d, c).nodes)
  {
    ReplaceKeepsDistinct(d.nodes, CandidateNode(existing, c));
  }

  lemma {:induction false} ChallengersKeepDistinct(
    ctx: Context, prov: NodeId, existing: map<string, HypothesisSnapshot>, d: Draft, cs: seq<Challenger>)
    requires DistinctIds(d.nodes)
    ensures DistinctIds(AddChallengers(ctx, prov, existing, d, cs).nodes)
  {
    if |cs| != 0 {
      ChallengersKeepDistinct(ctx, prov, existing, d, cs[..|cs| - 1]);
      ChallengerKeepsDistinct(ctx, prov, existing, AddChallengers(ctx, prov, existing, d, cs[..|cs| - 1]), cs[|cs| - 1]);
    }
  }

  lemma RevisionKeepsDistinct(existing: map<string, HypothesisSnapshot>, d: Draft, r: Revision)
    requires DistinctIds(d.nodes)
    ensures DistinctIds(AddRevision(existing, d, r).nodes)
  {
    if r.action == Supersede && RevisionRejection(existing, d.hypotheses, r) == None {
      var version := existing[r.supersedes.value].version;
      ReplaceKeepsDistinct(d.nodes, VersionedNode(d.hypotheses[r.hypothesisId], r, version + 1));
    }
  }

  lemma {:induction false} RevisionsKeepDistinct(existing: map<string, HypothesisSnapshot>, d: Draft, rs: seq<Revision>)
    requires DistinctIds(d.nodes)
    ensures DistinctIds(AddRevisions(existing, d, rs).nodes)
  {
    if |rs| != 0 {
      RevisionsKeepDistinct(existing, d, rs[..|rs| - 1]);
      RevisionKeepsDistinct(existing, AddRevisions(existing, d, rs[..|rs| - 1]), rs[|rs| - 1]);
    }
  }

  /** No two nodes of a canonical graph share an id, if no two existing hypotheses share id and version. */
  lemma CanonicalNodesAreDistinct(p: Proposal, ctx: Context)
    requires DistinctIds(ExistingNodes(ctx))
    ensures DistinctIds(Canonical(p, ctx).nodes)
  {
    BaseNodesAreDistinct(p, ctx);
    ChallengersKeepDistinct(ctx, ProvenanceOf(p, ctx).id, ExistingById(ctx.existing), BaseDraft(p, ctx), p.challengers);
    ArgumentFrame(ClaimPart(p, ctx).aliases, ChallengedDraft(p, ctx), p.arguments);
    RevisionsKeepDistinct(ExistingById(ctx.existing), ArguedDraft(p, ctx), p.revisions);
  }

  ghost predicate DistinctHypotheses(hs: seq<HypothesisSnapshot>) {
    forall i, j :: 0 <= i < j < |hs| ==> hs[i].hypothesisId != hs[j].hypothesisId
  }

  lemma {:induction false} PutKeepsDistinct(hs: seq<HypothesisSnapshot>, h: HypothesisSnapshot)
    requires DistinctHypotheses(hs)
    ensures DistinctHypotheses(Put(hs, h))
  {
    if hs != [] && hs[0].hypothesisId != h.hypothesisId {
      PutKeepsDistinct(hs[1..], h);
      PutHasId(hs[1..], h, hs[0].hypothesisId);
      assert !HasId(hs[1..], hs[0].hypothesisId);
      forall j | 0 <= j < |Put(hs[1..], h)| ensures Put(hs[1..], h)[j].hypothesisId != hs[0].hypothesisId {
        assert Put(hs[1..], h)[j] in Put(hs[1..], h);
      }
    }
  }

  lemma {:induction false} ServiceHypothesesAreDistinct(refs: seq<HypothesisRef>)
    ensures DistinctHypotheses(ExistingHypotheses(refs))
  {
    if |refs| != 0 {
      ServiceHypothesesAreDistinct(refs[..|refs| - 1]);
      PutKeepsDistinct(ExistingHypotheses(refs[..|refs| - 1]), SnapshotHypothesis(refs[|refs| - 1]));
    }
  }

  lemma ServiceNodesAreDistinct(s: Snapshot, run: string)
    requires s.currentBest != []
    ensures DistinctIds(ExistingNodes(ServiceContext(s, run)))
  {
    ServiceHypothesesAreDistinct(s.currentBest + s.targets);
  }

  lemma DistinctDetermines(nodes: seq<Node>)
    requires DistinctIds(nodes)
    ensures KeyDetermines(NodeKey, nodes)
  {
  }

  /** The services' canonical graph, sorted by node id as it is digested, does not depend on the order of a proposal's lists,
      under distinct ids and agreement of candidates that share a key. */
  lemma ServiceDigestIgnoresOrder(
    p: Proposal, q: Proposal, s: Snapshot, run: string, le: (NodeId, NodeId) -> bool, a: seq<Node>, b: seq<Node>)
    requires Shuffled(p, q) && DistinctlyIdentified(p) && s.currentBest != []
    requires var ctx := ServiceContext(s, run);
      EvidenceAgrees(p.evidence) && ClaimsAgree(EvidencePart(p, ctx).aliases, p.claims)
    requires TotalOrder(le)
    requires Permuted(a, Canonical(p, ServiceContext(s, run)).nodes) && SortedBy(le, NodeKey, a)
    requires Permuted(b, Canonical(q, ServiceContext(s, run)).nodes) && SortedBy(le, NodeKey, b)
    ensures a == b && Canonical(p, ServiceContext(s, run)).edges == Canonical(q, ServiceContext(s, run)).edges
  {
    var ctx := ServiceContext(s, run);
    ServiceNodesAreDistinct(s, run);
    CanonicalNodesAreDistinct(p, ctx);
    DistinctDetermines(Canonical(p, ctx).nodes);
    SortedGraphIsTheSame(p, q, ctx, le, a, b);
  }
}
