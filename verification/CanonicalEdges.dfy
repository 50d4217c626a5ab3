/** Every edge and every quarantine reason of a canonical graph, read off the proposal and its context alone: which nodes an
    edge joins, in which direction, with which note, and how often it is drawn. */
module CanonicalEdges {
  import opened Prelude
  import opened Proposals
  import opened Canonicalization
  import opened CanonicalFacts
  import opened CanonicalReasons
  import opened Permutation
  import opened CanonicalContent

  // ----- what the context knows

  ghost predicate InContext(hs: seq<HypothesisSnapshot>, h: string) {
    exists x :: x in hs && x.hypothesisId == h
  }

  /** The version of the last snapshot of a hypothesis, or 1 for one the context does not list. */
  ghost function ContextVersion(hs: seq<HypothesisSnapshot>, h: string): nat {
    if |hs| == 0 then 1
    else if hs[|hs| - 1].hypothesisId == h then hs[|hs| - 1].version
    else ContextVersion(hs[..|hs| - 1], h)
  }

  ghost predicate BestKnown(ctx: Context) {
    ctx.currentBest.Some? && InContext(ctx.existing, ctx.currentBest.value)
  }

  ghost predicate IsChallenger(p: Proposal, h: string) {
    exists c :: c in p.challengers && c.hypothesisId == h
  }

  ghost predicate InPlay(p: Proposal, ctx: Context, h: string) {
    InContext(ctx.existing, h) || (BestKnown(ctx) && IsChallenger(p, h))
  }

  lemma {:induction false} ContextRead(hs: seq<HypothesisSnapshot>, h: string)
    ensures h in ExistingById(hs) <==> InContext(hs, h)
    ensures h in ExistingById(hs) ==>
      ExistingById(hs)[h].hypothesisId == h && ExistingById(hs)[h].version == ContextVersion(hs, h)
    ensures h !in ExistingById(hs) ==> ContextVersion(hs, h) == 1
  {
    if |hs| != 0 {
      var init, x := hs[..|hs| - 1], hs[|hs| - 1];
      ContextRead(init, h);
      assert hs == init + [x];
    }
  }

  lemma BestRead(ctx: Context)
    ensures HasBest(ctx, ExistingById(ctx.existing)) <==> BestKnown(ctx)
  {
    if ctx.currentBest.Some? { ContextRead(ctx.existing, ctx.currentBest.value); }
  }

  lemma InPlayRead(p: Proposal, ctx: Context, h: string)
    ensures h in ChallengedDraft(p, ctx).hypotheses <==> InPlay(p, ctx, h)
  {
    HypothesesInPlay(p, ctx);
    ContextRead(ctx.existing, h);
    BestRead(ctx);
  }

  // ----- the node a hypothesis id stands for while arguments are drawn

  ghost predicate Standing(existing: map<string, HypothesisSnapshot>, hypotheses: map<string, Node>) {
    forall h :: h in hypotheses ==>
      hypotheses[h].id == HypothesisNode(h, if h in existing then existing[h].version else 1)
  }

  lemma {:induction false} IndexOfExisting(prov: Node, hs: seq<HypothesisSnapshot>, nodes: seq<Node>)
    requires !prov.props.HypothesisProps? && |nodes| == |hs|
    requires forall i :: 0 <= i < |hs| ==>
      && nodes[i].id == HypothesisNode(hs[i].hypothesisId, hs[i].version)
      && nodes[i].props.HypothesisProps? && nodes[i].props.hypothesisId == hs[i].hypothesisId
    ensures HypothesisIndex([prov] + nodes).Keys == ExistingById(hs).Keys
    ensures forall h :: h in ExistingById(hs) ==>
      HypothesisIndex([prov] + nodes)[h].id == HypothesisNode(h, ExistingById(hs)[h].version)
    decreases |hs|
  {
    var k := |hs|;
    var all := [prov] + nodes;
    if k == 0 {
      assert all[..|all| - 1] == [];
    } else {
      assert all[..|all| - 1] == [prov] + nodes[..k - 1];
      IndexOfExisting(prov, hs[..k - 1], nodes[..k - 1]);
    }
  }

  lemma BaseStands(p: Proposal, ctx: Context)
    ensures Standing(ExistingById(ctx.existing), BaseDraft(p, ctx).hypotheses)
  {
    BaseHypotheses(p, ctx);
    IndexOfExisting(ProvenanceOf(p, ctx), ctx.existing, ExistingNodes(ctx));
  }

  lemma {:induction false} ChallengersStand(
    ctx: Context, prov: NodeId, existing: map<string, HypothesisSnapshot>, d: Draft, cs: seq<Challenger>)
    requires Standing(existing, d.hypotheses)
    ensures Standing(existing, AddChallengers(ctx, prov, existing, d, cs).hypotheses)
  {
    if |cs| != 0 { ChallengersStand(ctx, prov, existing, d, cs[..|cs| - 1]); }
  }

  lemma HypothesisRead(p: Proposal, ctx: Context, h: string)
    requires h in ChallengedDraft(p, ctx).hypotheses
    ensures ChallengedDraft(p, ctx).hypotheses[h].id == HypothesisNode(h, ContextVersion(ctx.existing, h))
  {
    var prov, existing := ProvenanceOf(p, ctx).id, ExistingById(ctx.existing);
    BaseStands(p, ctx);
    ChallengersStand(ctx, prov, existing, BaseDraft(p, ctx), p.challengers);
    ContextRead(ctx.existing, h);
  }

  // ----- the node an artifact id or a claim id stands for

  /** The last candidate with an artifact id gives the node it stands for. */
  ghost function LastEvidence(es: seq<Evidence>, id: string): Option<NodeId> {
    if |es| == 0 then None
    else if es[|es| - 1].artifactId == id then Some(EvidenceNode(es[|es| - 1].kind, Lower(Strip(es[|es| - 1].sourceUrl))))
    else LastEvidence(es[..|es| - 1], id)
  }

  ghost predicate Groundable(es: seq<Evidence>, c: Claim) {
    CanonicalScope(c.temporalScope) && forall id :: id in c.artifactIds ==> LastEvidence(es, id).Some?
  }

  /** The node of a claim: normalized text and scope, and the evidence it cites. */
  ghost function NodeOfClaim(es: seq<Evidence>, c: Claim): Option<NodeId> {
    if !Groundable(es, c) then None else
      Some(ClaimNode(Lower(NormalizeText(c.text)), Lower(NormalizeText(c.temporalScope)),
                     set id | id in c.artifactIds :: LastEvidence(es, id).value))
  }

  /** The last claim with a claim id that has a node gives the node it stands for. */
  ghost function LastClaim(es: seq<Evidence>, cs: seq<Claim>, id: string): Option<NodeId> {
    if |cs| == 0 then None
    else if cs[|cs| - 1].claimId == id && Groundable(es, cs[|cs| - 1]) then NodeOfClaim(es, cs[|cs| - 1])
    else LastClaim(es, cs[..|cs| - 1], id)
  }

  ghost function Lookup(m: map<string, NodeId>, id: string): Option<NodeId> {
    if id in m then Some(m[id]) else None
  }

  lemma {:induction false} EvidenceRead(prov: NodeId, es: seq<Evidence>, id: string)
    ensures Lookup(IndexEvidence(prov, es).aliases, id) == LastEvidence(es, id)
  {
    if |es| != 0 {
      EvidenceRead(prov, es[..|es| - 1], id);
      AddEvidenceAlias(prov, IndexEvidence(prov, es[..|es| - 1]), es[|es| - 1]);
    }
  }

  ghost predicate Reads(es: seq<Evidence>, aliases: map<string, NodeId>) {
    forall id :: Lookup(aliases, id) == LastEvidence(es, id)
  }

  lemma PartReads(p: Proposal, ctx: Context)
    ensures Reads(p.evidence, EvidencePart(p, ctx).aliases)
  {
    forall id ensures Lookup(EvidencePart(p, ctx).aliases, id) == LastEvidence(p.evidence, id) {
      EvidenceRead(ProvenanceOf(p, ctx).id, p.evidence, id);
    }
  }

  lemma AdmittedRead(es: seq<Evidence>, aliases: map<string, NodeId>, c: Claim)
    requires Reads(es, aliases)
    ensures Admitted(aliases, c) <==> Groundable(es, c)
  {
    AdmittedIff(aliases, c);
    forall id | id in c.artifactIds ensures id in aliases <==> LastEvidence(es, id).Some? {
      assert Lookup(aliases, id) == LastEvidence(es, id);
    }
  }

  lemma ClaimNodeRead(es: seq<Evidence>, aliases: map<string, NodeId>, c: Claim)
    requires Reads(es, aliases) && Groundable(es, c)
    ensures NodeOfClaim(es, c) == Some(ClaimIdOfClaim(aliases, c))
  {
    AdmittedRead(es, aliases, c);
    AdmittedIff(aliases, c);
    forall id | id in c.artifactIds ensures id in aliases && aliases[id] == LastEvidence(es, id).value {
      assert Lookup(aliases, id) == LastEvidence(es, id);
    }
    assert FoundArtifacts(aliases, c.artifactIds) == set id | id in c.artifactIds :: LastEvidence(es, id).value;
  }

  lemma AddClaimAlias(prov: NodeId, aliases: map<string, NodeId>, x: ClaimIndex, c: Claim)
    ensures AddClaim(prov, aliases, x, c).aliases ==
      if Admitted(aliases, c) then x.aliases[c.claimId := ClaimIdOfClaim(aliases, c)] else x.aliases
  {
  }

  lemma {:induction false} ClaimRead(prov: NodeId, es: seq<Evidence>, aliases: map<string, NodeId>, cs: seq<Claim>, id: string)
    requires Reads(es, aliases)
    ensures Lookup(IndexClaims(prov, aliases, cs).aliases, id) == LastClaim(es, cs, id)
  {
    if |cs| != 0 {
      var init, c := cs[..|cs| - 1], cs[|cs| - 1];
      ClaimRead(prov, es, aliases, init, id);
      AddClaimAlias(prov, aliases, IndexClaims(prov, aliases, init), c);
      AdmittedRead(es, aliases, c);
      if Groundable(es, c) { ClaimNodeRead(es, aliases, c); }
    }
  }

  lemma CitedRead(p: Proposal, ctx: Context, id: string)
    ensures Lookup(ClaimPart(p, ctx).aliases, id) == LastClaim(p.evidence, p.claims, id)
  {
    PartReads(p, ctx);
    ClaimRead(ProvenanceOf(p, ctx).id, p.evidence, EvidencePart(p, ctx).aliases, p.claims, id);
  }

  // ----- how often each part of a proposal draws an edge

  ghost function Total<A>(f: A -> nat, xs: seq<A>): nat {
    if |xs| == 0 then 0 else Total(f, xs[..|xs| - 1]) + f(xs[|xs| - 1])
  }

  lemma {:induction false} TotalCounts<A, B>(f: A -> multiset<B>, g: A -> nat, xs: seq<A>, y: B)
    requires forall x :: x in xs ==> f(x)[y] == g(x)
    ensures BagSum(f, xs)[y] == Total(g, xs)
  {
    if |xs| != 0 {
      TotalCounts(f, g, xs[..|xs| - 1], y);
      assert xs[|xs| - 1] in xs;
    }
  }

  /** One RECORDED_IN edge to the provenance node for each evidence key. */
  ghost predicate FromEvidence(p: Proposal, ctx: Context, e: Edge) {
    exists x :: x in p.evidence &&
      e == Edge(RecordedIn, EvidenceNode(x.kind, Lower(Strip(x.sourceUrl))), ProvenanceNode(ctx.proposalId), NoNote)
  }

  /** One RECORDED_IN edge for each claim node, and one DERIVED_FROM edge from it to each evidence node it cites. */
  ghost predicate FromClaim(p: Proposal, ctx: Context, c: Claim, e: Edge) {
    && NodeOfClaim(p.evidence, c) == Some(e.source) && e.note == NoNote
    && ((e.kind == RecordedIn && e.target == ProvenanceNode(ctx.proposalId))
        || (e.kind == DerivedFrom && exists id :: id in c.artifactIds && LastEvidence(p.evidence, id) == Some(e.target)))
  }

  /** With a known current best: the candidate version's RECORDED_IN edge and its CHALLENGES edge to the current best. */
  ghost function FromChallenger(ctx: Context, c: Challenger, e: Edge): nat {
    if !BestKnown(ctx) then 0 else
      var candidate := HypothesisNode(c.hypothesisId, ContextVersion(ctx.existing, c.hypothesisId));
      var best := HypothesisNode(ctx.currentBest.value, ContextVersion(ctx.existing, ctx.currentBest.value));
      if e == Edge(RecordedIn, candidate, ProvenanceNode(ctx.proposalId), NoNote) then 1
      else if e == Edge(Challenges, candidate, best, NoNote) then 1
      else 0
  }

  ghost predicate CanBeDrawn(p: Proposal, ctx: Context, a: Argument) {
    InPlay(p, ctx, a.target) && forall id :: id in a.claimIds ==> LastClaim(p.evidence, p.claims, id).Some?
  }

  /** For an argument on a known hypothesis whose claims all have nodes: one edge of its stance, from the claim node to the
      hypothesis, for each claim id it names that stands for the node. */
  ghost function FromArgument(p: Proposal, ctx: Context, a: Argument, e: Edge): nat {
    if CanBeDrawn(p, ctx, a)
       && e.kind == (match a.stance case Support => Supports case Challenge => Challenges)
       && e.target == HypothesisNode(a.target, ContextVersion(ctx.existing, a.target))
       && e.note == ArgumentNote(a.argumentId, a.rationale)
    then |set id | id in a.claimIds && LastClaim(p.evidence, p.claims, id) == Some(e.source)|
    else 0
  }

  /** For a supersession of a hypothesis of the context by a known one: the edge from its next version to the superseded. */
  ghost function FromRevision(p: Proposal, ctx: Context, r: Revision, e: Edge): nat {
    if r.action == Supersede && r.supersedes.Some? && InContext(ctx.existing, r.supersedes.value) && InPlay(p, ctx, r.hypothesisId)
       && (var v := ContextVersion(ctx.existing, r.supersedes.value);
           e == Edge(EdgeKind.Supersedes, HypothesisNode(r.hypothesisId, v + 1), HypothesisNode(r.supersedes.value, v),
                     RationaleNote(r.rationale)))
    then 1 else 0
  }

  ghost function Drawn(p: Proposal, ctx: Context, e: Edge): nat {
    (if FromEvidence(p, ctx, e) then 1 else 0)
    + (if exists c :: c in p.claims && FromClaim(p, ctx, c, e) then 1 else 0)
    + Total((c: Challenger) => FromChallenger(ctx, c, e), p.challengers)
    + Total((a: Argument) => FromArgument(p, ctx, a, e), p.arguments)
    + Total((r: Revision) => FromRevision(p, ctx, r, e), p.revisions)
  }

  lemma EvidenceEdgeRead(p: Proposal, ctx: Context, e: Edge)
    ensures e in RecordedEdges(EvidenceIds(p.evidence), ProvenanceOf(p, ctx).id) <==> FromEvidence(p, ctx, e)
  {
    if FromEvidence(p, ctx, e) {
      var x :| x in p.evidence &&
        e == Edge(RecordedIn, EvidenceNode(x.kind, Lower(Strip(x.sourceUrl))), ProvenanceNode(ctx.proposalId), NoNote);
      assert EvidenceIdOf(x) in EvidenceIds(p.evidence);
    }
  }

  lemma ClaimEdgeOfOne(p: Proposal, ctx: Context, c: Claim, e: Edge)
    requires Groundable(p.evidence, c)
    ensures e in ClaimEdges(NodeOfClaim(p.evidence, c).value, ProvenanceNode(ctx.proposalId)) <==> FromClaim(p, ctx, c, e)
  {
  }

  lemma ClaimIdsRead(p: Proposal, ctx: Context, id: NodeId)
    ensures id in AdmittedIds(EvidencePart(p, ctx).aliases, p.claims) <==>
      exists c :: c in p.claims && NodeOfClaim(p.evidence, c) == Some(id)
  {
    var aliases := EvidencePart(p, ctx).aliases;
    PartReads(p, ctx);
    forall c ensures Admitted(aliases, c) <==> Groundable(p.evidence, c) { AdmittedRead(p.evidence, aliases, c); }
    forall c | Groundable(p.evidence, c) ensures NodeOfClaim(p.evidence, c) == Some(ClaimIdOfClaim(aliases, c)) {
      ClaimNodeRead(p.evidence, aliases, c);
    }
  }

  lemma ClaimEdgeRead(p: Proposal, ctx: Context, e: Edge)
    requires forall id :: id in AdmittedIds(EvidencePart(p, ctx).aliases, p.claims) ==> id.ClaimNode?
    ensures e in AllClaimEdges(AdmittedIds(EvidencePart(p, ctx).aliases, p.claims), ProvenanceOf(p, ctx).id) <==>
      exists c :: c in p.claims && FromClaim(p, ctx, c, e)
  {
    var prov, ids := ProvenanceOf(p, ctx).id, AdmittedIds(EvidencePart(p, ctx).aliases, p.claims);
    if e in AllClaimEdges(ids, prov) {
      var id :| id in ids && e in ClaimEdges(id, prov);
      ClaimIdsRead(p, ctx, id);
      var c :| c in p.claims && NodeOfClaim(p.evidence, c) == Some(id);
      ClaimEdgeOfOne(p, ctx, c, e);
    }
    if c :| c in p.claims && FromClaim(p, ctx, c, e) {
      ClaimIdsRead(p, ctx, e.source);
      ClaimEdgeOfOne(p, ctx, c, e);
    }
  }

  lemma ListedRead(p: Proposal, ctx: Context, e: Edge)
    ensures ListedEdges(p, ctx)[e] ==
      (if FromEvidence(p, ctx, e) then 1 else 0) + (if exists c :: c in p.claims && FromClaim(p, ctx, c, e) then 1 else 0)
  {
    EvidenceEdgeRead(p, ctx, e);
    assert forall id :: id in AdmittedIds(EvidencePart(p, ctx).aliases, p.claims) ==> id.ClaimNode?;
    ClaimEdgeRead(p, ctx, e);
  }

  lemma ChallengerRead(ctx: Context, prov: NodeId, c: Challenger, e: Edge)
    requires prov == ProvenanceNode(ctx.proposalId)
    ensures ChallengerContribution(ctx, prov, ExistingById(ctx.existing), c)[e] == FromChallenger(ctx, c, e)
  {
    BestRead(ctx);
    ContextRead(ctx.existing, c.hypothesisId);
    if BestKnown(ctx) { ContextRead(ctx.existing, ctx.currentBest.value); }
  }

  ghost function NamesOf(aliases: map<string, NodeId>, ids: seq<string>, n: NodeId): set<string>
    requires forall id :: id in ids ==> id in aliases
  {
    set id | id in ids && aliases[id] == n
  }

  lemma NamesGrow(aliases: map<string, NodeId>, init: seq<string>, id: string, n: NodeId)
    requires id in aliases && id !in init && forall x :: x in init ==> x in aliases
    ensures |NamesOf(aliases, init + [id], n)| == |NamesOf(aliases, init, n)| + if aliases[id] == n then 1 else 0
  {
    assert NamesOf(aliases, init + [id], n) == NamesOf(aliases, init, n) + if aliases[id] == n then {id} else {};
  }

  lemma {:induction false} ClaimEdgesCount(aliases: map<string, NodeId>, a: Argument, target: NodeId, ids: seq<string>, e: Edge)
    requires forall id :: id in ids ==> id in aliases
    requires forall i, j :: 0 <= i < j < |ids| ==> ids[i] != ids[j]
    ensures ClaimEdgesOf(aliases, a, target, ids)[e] ==
      if e == Edge(ArgumentKind(a), e.source, target, ArgumentNote(a.argumentId, a.rationale))
      then |NamesOf(aliases, ids, e.source)| else 0
  {
    if |ids| == 0 {
      assert NamesOf(aliases, ids, e.source) == {};
    } else {
      var init, last := ids[..|ids| - 1], ids[|ids| - 1];
      ClaimEdgesCount(aliases, a, target, init, e);
      assert ids == init + [last];
      NamesGrow(aliases, init, last, e.source);
    }
  }

  lemma RejectionRead(p: Proposal, ctx: Context, a: Argument)
    ensures ArgumentRejection(ClaimPart(p, ctx).aliases, ChallengedDraft(p, ctx).hypotheses, a) == None <==> CanBeDrawn(p, ctx, a)
  {
    InPlayRead(p, ctx, a.target);
    forall id ensures Lookup(ClaimPart(p, ctx).aliases, id) == LastClaim(p.evidence, p.claims, id) { CitedRead(p, ctx, id); }
  }

  lemma ArgumentRead(p: Proposal, ctx: Context, a: Argument, e: Edge)
    ensures ArgumentEdges(ClaimPart(p, ctx).aliases, ChallengedDraft(p, ctx).hypotheses, a)[e] == FromArgument(p, ctx, a, e)
  {
    var aliases, hypotheses := ClaimPart(p, ctx).aliases, ChallengedDraft(p, ctx).hypotheses;
    RejectionRead(p, ctx, a);
    if CanBeDrawn(p, ctx, a) {
      HypothesisRead(p, ctx, a.target);
      ClaimEdgesCount(aliases, a, hypotheses[a.target].id, Dedup(a.claimIds), e);
      forall id ensures Lookup(aliases, id) == LastClaim(p.evidence, p.claims, id) { CitedRead(p, ctx, id); }
      assert NamesOf(aliases, Dedup(a.claimIds), e.source)
        == set id | id in a.claimIds && LastClaim(p.evidence, p.claims, id) == Some(e.source);
    }
  }

  lemma RevisionRead(p: Proposal, ctx: Context, r: Revision, e: Edge)
    ensures Supersession(ExistingById(ctx.existing), ChallengedDraft(p, ctx).hypotheses, r)[e] == FromRevision(p, ctx, r, e)
  {
    InPlayRead(p, ctx, r.hypothesisId);
    if r.supersedes.Some? { ContextRead(ctx.existing, r.supersedes.value); }
  }

  lemma ChallengingRead(p: Proposal, ctx: Context, e: Edge)
    ensures Challenging(p, ctx)[e] == Total((c: Challenger) => FromChallenger(ctx, c, e), p.challengers)
  {
    var prov := ProvenanceOf(p, ctx).id;
    forall c ensures ChallengerContribution(ctx, prov, ExistingById(ctx.existing), c)[e] == FromChallenger(ctx, c, e) {
      ChallengerRead(ctx, prov, c, e);
    }
    TotalCounts((c: Challenger) => ChallengerContribution(ctx, prov, ExistingById(ctx.existing), c),
                (c: Challenger) => FromChallenger(ctx, c, e), p.challengers, e);
  }

  lemma ArguingRead(p: Proposal, ctx: Context, e: Edge)
    ensures Arguing(p, ctx)[e] == Total((a: Argument) => FromArgument(p, ctx, a, e), p.arguments)
  {
    var aliases, hypotheses := ClaimPart(p, ctx).aliases, ChallengedDraft(p, ctx).hypotheses;
    forall a ensures ArgumentEdges(aliases, hypotheses, a)[e] == FromArgument(p, ctx, a, e) { ArgumentRead(p, ctx, a, e); }
    TotalCounts((a: Argument) => ArgumentEdges(aliases, hypotheses, a), (a: Argument) => FromArgument(p, ctx, a, e), p.arguments, e);
  }

  lemma SupersedingRead(p: Proposal, ctx: Context, e: Edge)
    ensures Superseding(p, ctx)[e] == Total((r: Revision) => FromRevision(p, ctx, r, e), p.revisions)
  {
    var existing, hypotheses := ExistingById(ctx.existing), ChallengedDraft(p, ctx).hypotheses;
    forall r ensures Supersession(existing, hypotheses, r)[e] == FromRevision(p, ctx, r, e) { RevisionRead(p, ctx, r, e); }
    TotalCounts((r: Revision) => Supersession(existing, hypotheses, r), (r: Revision) => FromRevision(p, ctx, r, e), p.revisions, e);
  }

  /** How often any edge is in any canonical graph, from the proposal and context alone. */
  lemma EdgesAreDrawn(p: Proposal, ctx: Context, e: Edge)
    ensures Canonical(p, ctx).edges[e] == Drawn(p, ctx, e)
  {
    EdgesAreContributions(p, ctx);
    ListedRead(p, ctx, e);
    ChallengingRead(p, ctx, e);
    ArguingRead(p, ctx, e);
    SupersedingRead(p, ctx, e);
  }

  // ----- challengers against the current best

  /** From a challenger's candidate version to a hypothesis, both at their versions of the context. */
  ghost function Attack(ctx: Context, best: string, c: Challenger): Edge {
    Edge(Challenges,
         HypothesisNode(c.hypothesisId, ContextVersion(ctx.existing, c.hypothesisId)),
         HypothesisNode(best, ContextVersion(ctx.existing, best)), NoNote)
  }

  ghost function CandidateRecord(ctx: Context, c: Challenger): Edge {
    Edge(RecordedIn, HypothesisNode(c.hypothesisId, ContextVersion(ctx.existing, c.hypothesisId)),
         ProvenanceNode(ctx.proposalId), NoNote)
  }

  lemma {:induction false} TotalZero<A>(f: A -> nat, xs: seq<A>)
    requires forall x :: x in xs ==> f(x) == 0
    ensures Total(f, xs) == 0
  {
    if |xs| != 0 {
      assert xs[|xs| - 1] in xs;
      TotalZero(f, xs[..|xs| - 1]);
    }
  }

  lemma {:induction false} TotalIsCount<A, B>(f: A -> nat, g: A -> B, xs: seq<A>, y: B)
    requires forall x :: x in xs ==> f(x) == if g(x) == y then 1 else 0
    ensures Total(f, xs) == multiset(Map(g, xs))[y]
  {
    if |xs| != 0 {
      var init, x := xs[..|xs| - 1], xs[|xs| - 1];
      assert x in xs;
      TotalIsCount(f, g, init, y);
      assert Map(g, xs) == Map(g, init) + [g(x)];
    }
  }

  ghost predicate FromHypothesisAlone(e: Edge) {
    e.note == NoNote && (e.kind == Challenges || (e.kind == RecordedIn && e.source.HypothesisNode?))
  }

  lemma OnlyChallengersDraw(p: Proposal, ctx: Context, e: Edge)
    requires FromHypothesisAlone(e)
    ensures Canonical(p, ctx).edges[e] == Total((c: Challenger) => FromChallenger(ctx, c, e), p.challengers)
  {
    EdgesAreDrawn(p, ctx, e);
    TotalZero((a: Argument) => FromArgument(p, ctx, a, e), p.arguments);
    TotalZero((r: Revision) => FromRevision(p, ctx, r, e), p.revisions);
  }

  /** For every proposal and context with a known current best, the CHALLENGES edges without an argument are one per
      challenger, from its candidate version to the current best's version of the context. */
  lemma ChallengersAttackTheBest(p: Proposal, ctx: Context, e: Edge)
    requires BestKnown(ctx) && e.kind == Challenges && e.note == NoNote
    ensures Canonical(p, ctx).edges[e] ==
      multiset(Map((c: Challenger) => Attack(ctx, ctx.currentBest.value, c), p.challengers))[e]
  {
    OnlyChallengersDraw(p, ctx, e);
    TotalIsCount((c: Challenger) => FromChallenger(ctx, c, e),
                 (c: Challenger) => Attack(ctx, ctx.currentBest.value, c), p.challengers, e);
  }

  /** So are the RECORDED_IN edges of hypotheses: one per challenger, from its candidate version to the provenance node. */
  lemma ChallengersAreRecorded(p: Proposal, ctx: Context, e: Edge)
    requires BestKnown(ctx) && e.kind == RecordedIn && e.source.HypothesisNode?
    ensures Canonical(p, ctx).edges[e] ==
      multiset(Map((c: Challenger) => CandidateRecord(ctx, c), p.challengers))[e]
  {
    EdgesAreDrawn(p, ctx, e);
    TotalZero((a: Argument) => FromArgument(p, ctx, a, e), p.arguments);
    TotalZero((r: Revision) => FromRevision(p, ctx, r, e), p.revisions);
    TotalIsCount((c: Challenger) => FromChallenger(ctx, c, e), (c: Challenger) => CandidateRecord(ctx, c), p.challengers, e);
  }

  /** With no known current best there are neither. */
  lemma NoBestNoAttack(p: Proposal, ctx: Context, e: Edge)
    requires !BestKnown(ctx) && FromHypothesisAlone(e)
    ensures e !in Canonical(p, ctx).edges
  {
    OnlyChallengersDraw(p, ctx, e);
    TotalZero((c: Challenger) => FromChallenger(ctx, c, e), p.challengers);
  }
}
