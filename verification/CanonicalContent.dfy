/** What a canonical graph contains: exactly the sum of what each evidence key, admitted claim, challenger, argument and
    supersession contributes on its own, each node made by the first candidate of its key. */
module CanonicalContent {
  import opened Prelude
  import opened Proposals
  import opened Canonicalization
  import opened CanonicalFacts
  import opened CanonicalReasons
  import opened Permutation
  import opened Pipeline

  /** An admitted supersession draws one edge, from the next version of the superseding hypothesis. */
  ghost function Supersession(existing: map<string, HypothesisSnapshot>, hypotheses: map<string, Node>, r: Revision): multiset<Edge> {
    if r.action != Supersede || RevisionRejection(existing, hypotheses, r).Some? then multiset{} else
      var version := existing[r.supersedes.value].version;
      multiset{Edge(EdgeKind.Supersedes, HypothesisNode(r.hypothesisId, version + 1), HypothesisNode(r.supersedes.value, version),
                    RationaleNote(r.rationale))}
  }

  lemma RevisionEdgeStep(existing: map<string, HypothesisSnapshot>, d: Draft, hypotheses: map<string, Node>, r: Revision)
    requires d.hypotheses.Keys == hypotheses.Keys
    ensures AddRevision(existing, d, r).edges == d.edges + Supersession(existing, hypotheses, r)
  {
  }

  lemma {:induction false} RevisionEdgeFacts(existing: map<string, HypothesisSnapshot>, d: Draft, rs: seq<Revision>)
    ensures AddRevisions(existing, d, rs).edges ==
      d.edges + BagSum((r: Revision) => Supersession(existing, d.hypotheses, r), rs)
  {
    if |rs| != 0 {
      var init, r := rs[..|rs| - 1], rs[|rs| - 1];
      RevisionEdgeFacts(existing, d, init);
      RevisionFrame(existing, d, init);
      RevisionEdgeStep(existing, AddRevisions(existing, d, init), d.hypotheses, r);
    }
  }

  ghost function ListedEdges(p: Proposal, ctx: Context): multiset<Edge> {
    var prov, aliases := ProvenanceOf(p, ctx).id, EvidencePart(p, ctx).aliases;
    assert forall id :: id in AdmittedIds(aliases, p.claims) ==> id.ClaimNode?;
    multiset(RecordedEdges(EvidenceIds(p.evidence), prov)) + multiset(AllClaimEdges(AdmittedIds(aliases, p.claims), prov))
  }

  lemma BaseEdges(p: Proposal, ctx: Context)
    ensures BaseDraft(p, ctx).edges == ListedEdges(p, ctx)
  {
    EvidenceFacts(ProvenanceOf(p, ctx).id, p.evidence);
    ClaimFacts(ProvenanceOf(p, ctx).id, EvidencePart(p, ctx).aliases, p.claims);
  }

  ghost function Challenging(p: Proposal, ctx: Context): multiset<Edge> {
    BagSum((c: Challenger) => ChallengerContribution(ctx, ProvenanceOf(p, ctx).id, ExistingById(ctx.existing), c), p.challengers)
  }

  ghost function Arguing(p: Proposal, ctx: Context): multiset<Edge> {
    BagSum((a: Argument) => ArgumentEdges(ClaimPart(p, ctx).aliases, ChallengedDraft(p, ctx).hypotheses, a), p.arguments)
  }

  ghost function Superseding(p: Proposal, ctx: Context): multiset<Edge> {
    BagSum((r: Revision) => Supersession(ExistingById(ctx.existing), ChallengedDraft(p, ctx).hypotheses, r), p.revisions)
  }

  /** The whole edge bag, for every proposal and context: multiplicities included, nothing is lost or drawn twice. */
  lemma EdgesAreContributions(p: Proposal, ctx: Context)
    ensures Canonical(p, ctx).edges == ListedEdges(p, ctx) + Challenging(p, ctx) + Arguing(p, ctx) + Superseding(p, ctx)
  {
    var existing := ExistingById(ctx.existing);
    BaseEdges(p, ctx);
    ChallengerEdgeFacts(ctx, ProvenanceOf(p, ctx).id, existing, BaseDraft(p, ctx), p.challengers);
    ArgumentEdgeFacts(ClaimPart(p, ctx).aliases, ChallengedDraft(p, ctx), p.arguments);
    HypothesesInPlay(p, ctx);
    RevisionEdgeFacts(existing, ArguedDraft(p, ctx), p.revisions);
  }

  lemma SupersessionIsAdmitted(p: Proposal, ctx: Context, r: Revision)
    requires !Canonical(p, ctx).Quarantined() && r in p.revisions && r.action == Supersede
    ensures RevisionRejection(ExistingById(ctx.existing), ChallengedDraft(p, ctx).hypotheses, r) == None
  {
    QuarantineSet(p, ctx);
    var f := (q: Revision) => SupersedeRejection(ExistingById(ctx.existing), ChallengedDraft(p, ctx).hypotheses, q);
    CollectEmpty(f, p.revisions);
    assert f(r) == None;
  }

  /** In a graph of the services that is not quarantined, every supersession is drawn from version 2 of the superseding
      hypothesis to version 1 of its predecessor, and both are nodes of the graph. */
  lemma SupersessionReachesTheGraph(p: Proposal, s: Snapshot, run: string, r: Revision)
    requires s.currentBest != [] && r in p.revisions && r.action == Supersede
    requires !Canonical(p, ServiceContext(s, run)).Quarantined()
    ensures r.supersedes.Some? && r.supersedes.value in AttackFrontier(s)
    ensures var g, e := Canonical(p, ServiceContext(s, run)), Edge(
        EdgeKind.Supersedes, HypothesisNode(r.hypothesisId, 2), HypothesisNode(r.supersedes.value, 1), RationaleNote(r.rationale));
      e in g.edges && e.source in Ids(g.nodes) && e.target in Ids(g.nodes)
  {
    var ctx := ServiceContext(s, run);
    var existing, hypotheses := ExistingById(ctx.existing), ChallengedDraft(p, ctx).hypotheses;
    ServiceExisting(s, run);
    SupersessionIsAdmitted(p, ctx, r);
    var e := Edge(
      EdgeKind.Supersedes, HypothesisNode(r.hypothesisId, 2), HypothesisNode(r.supersedes.value, 1), RationaleNote(r.rationale));
    assert e in Supersession(existing, hypotheses, r);
    BagSumHas((q: Revision) => Supersession(existing, hypotheses, q), p.revisions, r, e);
    EdgesAreContributions(p, ctx);
    CanonicalEdgesWithin(p, ctx);
  }

  // ----- nodes

  ghost function SupersedingId(existing: map<string, HypothesisSnapshot>, hypotheses: map<string, Node>, r: Revision)
    : Option<NodeId>
  {
    if r.action != Supersede || RevisionRejection(existing, hypotheses, r).Some? then None
    else Some(HypothesisNode(r.hypothesisId, existing[r.supersedes.value].version + 1))
  }

  lemma RevisionIdStep(existing: map<string, HypothesisSnapshot>, d: Draft, hypotheses: map<string, Node>, r: Revision)
    requires d.hypotheses.Keys == hypotheses.Keys
    ensures Ids(AddRevision(existing, d, r).nodes) == Ids(d.nodes) +
      match SupersedingId(existing, hypotheses, r) case Some(id) => {id} case None => {}
  {
    if SupersedingId(existing, hypotheses, r).Some? {
      var version := existing[r.supersedes.value].version;
      IdsReplaceOrAppend(d.nodes, VersionedNode(d.hypotheses[r.hypothesisId], r, version + 1));
    }
  }

  lemma {:induction false} RevisionIdFacts(existing: map<string, HypothesisSnapshot>, d: Draft, rs: seq<Revision>)
    ensures Ids(AddRevisions(existing, d, rs).nodes) ==
      Ids(d.nodes) + Collect((r: Revision) => SupersedingId(existing, d.hypotheses, r), rs)
  {
    if |rs| != 0 {
      var init, r := rs[..|rs| - 1], rs[|rs| - 1];
      RevisionIdFacts(existing, d, init);
      RevisionFrame(existing, d, init);
      assert rs == init + [r];
      CollectGrow((q: Revision) => SupersedingId(existing, d.hypotheses, q), init, r);
      RevisionIdStep(existing, AddRevisions(existing, d, init), d.hypotheses, r);
    }
  }

  ghost function SupersedingIds(p: Proposal, ctx: Context): set<NodeId> {
    Collect((r: Revision) => SupersedingId(ExistingById(ctx.existing), ChallengedDraft(p, ctx).hypotheses, r), p.revisions)
  }

  /** The node ids of any graph: provenance, existing hypotheses, one per evidence key, admitted claim, superseding version and,
      if the current best is known, challenger, and no others. */
  lemma NodesAreContributions(p: Proposal, ctx: Context)
    ensures Ids(Canonical(p, ctx).nodes) ==
      {ProvenanceOf(p, ctx).id} + Ids(ExistingNodes(ctx)) + EvidenceIds(p.evidence)
      + AdmittedIds(EvidencePart(p, ctx).aliases, p.claims)
      + (if HasBest(ctx, ExistingById(ctx.existing)) then CandidateIds(ExistingById(ctx.existing), p.challengers) else {})
      + SupersedingIds(p, ctx)
  {
    var existing := ExistingById(ctx.existing);
    BaseNodes(p, ctx);
    if HasBest(ctx, existing) {
      ChallengerIdFacts(ctx, ProvenanceOf(p, ctx).id, existing, BaseDraft(p, ctx), p.challengers);
    } else {
      NoBestNoChange(ctx, ProvenanceOf(p, ctx).id, existing, BaseDraft(p, ctx), p.challengers);
    }
    HypothesesInPlay(p, ctx);
    RevisionIdFacts(existing, ArguedDraft(p, ctx), p.revisions);
  }

  // ----- which candidate makes the node

  ghost predicate FirstEvidence(n: Node, es: seq<Evidence>, i: nat) {
    i < |es| && n == EvidenceNodeOf(es[i]) && forall j :: 0 <= j < i ==> EvidenceIdOf(es[j]) != n.id
  }

  /** The node of an evidence key is made by the first candidate with that key. */
  lemma {:induction false} FirstEvidenceWins(prov: NodeId, es: seq<Evidence>, n: Node)
    requires n in IndexEvidence(prov, es).nodes
    ensures exists i: nat :: FirstEvidence(n, es, i)
  {
    if |es| != 0 {
      var init, k := es[..|es| - 1], |es| - 1;
      if n in IndexEvidence(prov, init).nodes {
        FirstEvidenceWins(prov, init, n);
        var i: nat :| FirstEvidence(n, init, i);
        assert FirstEvidence(n, es, i);
      } else {
        EvidenceFacts(prov, init);
        assert EvidenceIdOf(es[k]) !in EvidenceIds(init);
        assert forall j :: 0 <= j < k ==> init[j] == es[j] && EvidenceIdOf(es[j]) in EvidenceIds(init);
        assert FirstEvidence(n, es, k);
      }
    }
  }

  ghost predicate FirstClaim(n: Node, aliases: map<string, NodeId>, cs: seq<Claim>, i: nat) {
    && i < |cs| && Admitted(aliases, cs[i]) && n == ClaimNodeOf(aliases, cs[i])
    && forall j :: 0 <= j < i && Admitted(aliases, cs[j]) ==> ClaimIdOfClaim(aliases, cs[j]) != n.id
  }

  lemma AdmittedIdOf(aliases: map<string, NodeId>, cs: seq<Claim>, j: nat)
    requires j < |cs| && Admitted(aliases, cs[j])
    ensures ClaimIdOfClaim(aliases, cs[j]) in AdmittedIds(aliases, cs)
  {
    var f := (c: Claim) => if Admitted(aliases, c) then Some(ClaimIdOfClaim(aliases, c)) else None;
    assert f(cs[j]) == Some(ClaimIdOfClaim(aliases, cs[j]));
    CollectHas(f, cs, cs[j]);
  }

  lemma NewClaimNode(prov: NodeId, aliases: map<string, NodeId>, x: ClaimIndex, c: Claim, n: Node)
    requires n in AddClaim(prov, aliases, x, c).nodes && n !in x.nodes
    ensures Admitted(aliases, c) && n == ClaimNodeOf(aliases, c) && n.id == ClaimIdOfClaim(aliases, c) && n.id !in x.byKey
  {
  }

  lemma NewClaimIsFirst(prov: NodeId, aliases: map<string, NodeId>, init: seq<Claim>, c: Claim, n: Node)
    requires n in AddClaim(prov, aliases, IndexClaims(prov, aliases, init), c).nodes && n !in IndexClaims(prov, aliases, init).nodes
    ensures FirstClaim(n, aliases, init + [c], |init|)
  {
    ClaimFacts(prov, aliases, init);
    NewClaimNode(prov, aliases, IndexClaims(prov, aliases, init), c, n);
    forall j | 0 <= j < |init| && Admitted(aliases, init[j]) ensures ClaimIdOfClaim(aliases, init[j]) != n.id {
      AdmittedIdOf(aliases, init, j);
    }
  }

  lemma FirstClaimStays(n: Node, aliases: map<string, NodeId>, init: seq<Claim>, c: Claim, i: nat)
    requires FirstClaim(n, aliases, init, i)
    ensures FirstClaim(n, aliases, init + [c], i)
  {
  }

  ghost predicate HasFirstClaim(n: Node, aliases: map<string, NodeId>, cs: seq<Claim>) {
    exists i: nat :: FirstClaim(n, aliases, cs, i)
  }

  lemma FirstClaimStep(prov: NodeId, aliases: map<string, NodeId>, init: seq<Claim>, c: Claim, n: Node)
    requires n in AddClaim(prov, aliases, IndexClaims(prov, aliases, init), c).nodes
    requires n in IndexClaims(prov, aliases, init).nodes ==> HasFirstClaim(n, aliases, init)
    ensures HasFirstClaim(n, aliases, init + [c])
  {
    if n in IndexClaims(prov, aliases, init).nodes {
      var i: nat :| FirstClaim(n, aliases, init, i);
      FirstClaimStays(n, aliases, init, c, i);
    } else {
      NewClaimIsFirst(prov, aliases, init, c, n);
    }
  }

  /** Likewise for claims, among the admitted ones. */
  lemma {:induction false} FirstClaimWins(prov: NodeId, aliases: map<string, NodeId>, cs: seq<Claim>, n: Node)
    requires n in IndexClaims(prov, aliases, cs).nodes
    ensures HasFirstClaim(n, aliases, cs)
  {
    if |cs| != 0 {
      var init, c := cs[..|cs| - 1], cs[|cs| - 1];
      if n in IndexClaims(prov, aliases, init).nodes { FirstClaimWins(prov, aliases, init, n); }
      FirstClaimStep(prov, aliases, init, c, n);
      assert cs == init + [c];
    }
  }
}
