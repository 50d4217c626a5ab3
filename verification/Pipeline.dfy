/** What one stage of the proposal pipeline guarantees to the next: validation, competition, canonicalization. */
module Pipeline {
  import opened Prelude
  import opened Proposals
  import opened Canonicalization
  import opened CanonicalFacts
  import opened CanonicalReasons
  import opened Competition
  import Validator

  // ----- the context the services build from a snapshot

  function SnapshotHypothesis(r: HypothesisRef): HypothesisSnapshot {
    HypothesisSnapshot(r.hypothesisId, r.title, r.summary, 1)
  }

  /** A dictionary insert on an insertion-ordered dictionary keyed by hypothesis id. */
  function Put(hs: seq<HypothesisSnapshot>, h: HypothesisSnapshot): seq<HypothesisSnapshot> {
    if hs == [] then [h]
    else if hs[0].hypothesisId == h.hypothesisId then [h] + hs[1..]
    else [hs[0]] + Put(hs[1..], h)
  }

  function ExistingHypotheses(refs: seq<HypothesisRef>): seq<HypothesisSnapshot> {
    if |refs| == 0 then [] else Put(ExistingHypotheses(refs[..|refs| - 1]), SnapshotHypothesis(refs[|refs| - 1]))
  }

  function ServiceContext(s: Snapshot, run: string): Context
    requires s.currentBest != []
  {
    Context(s.topic, run, "proposal:" + run, Some(s.currentBest[0].hypothesisId), ExistingHypotheses(s.currentBest + s.targets))
  }

  ghost predicate HasId(hs: seq<HypothesisSnapshot>, id: string) {
    exists h :: h in hs && h.hypothesisId == id
  }

  ghost predicate FirstVersions(hs: seq<HypothesisSnapshot>) {
    forall h :: h in hs ==> h.version == 1
  }

  const SnapshotIdOf: HypothesisSnapshot -> string := (h: HypothesisSnapshot) => h.hypothesisId

  lemma {:induction false} PutHasId(hs: seq<HypothesisSnapshot>, h: HypothesisSnapshot, id: string)
    ensures HasId(Put(hs, h), id) <==> HasId(hs, id) || id == h.hypothesisId
  {
    if hs != [] {
      assert hs == [hs[0]] + hs[1..];
      HasIdCons(hs[0], hs[1..], id);
      HasIdCons(h, hs[1..], id);
      if hs[0].hypothesisId != h.hypothesisId {
        PutHasId(hs[1..], h, id);
        HasIdCons(hs[0], Put(hs[1..], h), id);
      }
    }
  }

  lemma {:induction false} PutKeepsVersions(hs: seq<HypothesisSnapshot>, h: HypothesisSnapshot)
    requires FirstVersions(hs) && h.version == 1
    ensures FirstVersions(Put(hs, h))
  {
    if hs != [] {
      assert hs == [hs[0]] + hs[1..];
      PutKeepsVersions(hs[1..], h);
    }
  }

  lemma HasIdCons(h: HypothesisSnapshot, hs: seq<HypothesisSnapshot>, id: string)
    ensures HasId([h] + hs, id) <==> h.hypothesisId == id || HasId(hs, id)
  {
    if h.hypothesisId == id {
      assert h in [h] + hs;
    }
    if x :| x in hs && x.hypothesisId == id {
      assert x in [h] + hs;
    }
  }

  lemma {:induction false} ExistingHypothesisFacts(refs: seq<HypothesisRef>)
    ensures forall id :: HasId(ExistingHypotheses(refs), id) <==> exists r :: r in refs && r.hypothesisId == id
    ensures FirstVersions(ExistingHypotheses(refs))
  {
    if |refs| != 0 {
      var k := |refs| - 1;
      ExistingHypothesisFacts(refs[..k]);
      var hs, h := ExistingHypotheses(refs[..k]), SnapshotHypothesis(refs[k]);
      PutKeepsVersions(hs, h);
      assert refs == refs[..k] + [refs[k]];
      forall id ensures HasId(Put(hs, h), id) <==> HasId(hs, id) || id == h.hypothesisId {
        PutHasId(hs, h, id);
      }
    }
  }

  /** The canonicalizer is told of the attack frontier and nothing else, each hypothesis at version 1. */
  lemma ServiceExisting(s: Snapshot, run: string)
    requires s.currentBest != []
    ensures ExistingById(ServiceContext(s, run).existing).Keys == AttackFrontier(s)
    ensures forall id :: id in AttackFrontier(s) ==> ExistingById(ServiceContext(s, run).existing)[id].version == 1
    ensures FirstVersions(ServiceContext(s, run).existing)
    ensures HasBest(ServiceContext(s, run), ExistingById(ServiceContext(s, run).existing))
  {
    var refs := s.currentBest + s.targets;
    var hs := ExistingHypotheses(refs);
    ExistingHypothesisFacts(refs);
    ExistingFacts(hs);
    assert refs[0] == s.currentBest[0];
    forall id ensures id in ExistingById(hs) <==> id in AttackFrontier(s) {
      assert id in ExistingById(hs) <==> HasId(hs, id);
      assert (exists r :: r in refs && r.hypothesisId == id) <==> id in CurrentBestIds(s) || id in TargetIds(s);
    }
  }

  // ----- validation, then canonicalization

  ghost function ForeignPredecessor(s: Snapshot, r: Revision): Option<Reason> {
    if r.action == Supersede && r.supersedes.Some? && r.supersedes.value !in AttackFrontier(s)
    then Some(StalePredecessor(r.hypothesisId, r.supersedes.value)) else None
  }

  lemma ClaimsAdmitted(p: Proposal, s: Snapshot, retained: Option<set<string>>, ctx: Context)
    requires Validator.Accepted(p, s, retained)
    ensures forall c :: c in p.claims ==> Admitted(EvidencePart(p, ctx).aliases, c)
    ensures Rejections(EvidencePart(p, ctx).aliases, p.claims) == {}
    ensures forall id :: id in ClaimIds(p) ==> id in ClaimPart(p, ctx).aliases
  {
    var prov, aliases := ProvenanceOf(p, ctx).id, EvidencePart(p, ctx).aliases;
    EvidenceAliasKeys(prov, p.evidence);
    forall c | c in p.claims ensures Admitted(aliases, c) {
      AdmittedIff(aliases, c);
      forall id | id in c.artifactIds ensures id in aliases {
        assert id in Validator.Elements(c.artifactIds);
      }
    }
    ClaimAliasKeys(prov, aliases, p.claims);
  }

  lemma ArgumentsAdmitted(p: Proposal, s: Snapshot, retained: Option<set<string>>, run: string)
    requires s.currentBest != [] && Validator.Accepted(p, s, retained)
    ensures var ctx := ServiceContext(s, run);
      ArgumentReasons(ClaimPart(p, ctx).aliases, ChallengedDraft(p, ctx).hypotheses, p.arguments) == {}
  {
    var ctx := ServiceContext(s, run);
    ServiceExisting(s, run);
    HypothesesInPlay(p, ctx);
    ClaimsAdmitted(p, s, retained, ctx);
    forall a | a in p.arguments ensures ArgumentRejection(ClaimPart(p, ctx).aliases, ChallengedDraft(p, ctx).hypotheses, a) == None {
      assert a.target in KnownHypotheses(p, ctx);
      forall id | id in a.claimIds ensures id in ClaimPart(p, ctx).aliases {
        assert id in Validator.Elements(a.claimIds);
      }
    }
  }

  lemma RevisionTargetInPlay(p: Proposal, s: Snapshot, retained: Option<set<string>>, run: string, r: Revision)
    requires s.currentBest != [] && Validator.Accepted(p, s, retained) && r in p.revisions
    ensures r.hypothesisId in ChallengedDraft(p, ServiceContext(s, run)).hypotheses
  {
    ServiceExisting(s, run);
    HypothesesInPlay(p, ServiceContext(s, run));
    assert r.hypothesisId in KnownHypotheses(p, ServiceContext(s, run));
  }

  lemma RevisionRejectedExactly(p: Proposal, s: Snapshot, retained: Option<set<string>>, run: string, r: Revision)
    requires s.currentBest != [] && Validator.Accepted(p, s, retained) && r in p.revisions
    ensures var ctx := ServiceContext(s, run);
      SupersedeRejection(ExistingById(ctx.existing), ChallengedDraft(p, ctx).hypotheses, r) == ForeignPredecessor(s, r)
  {
    ServiceExisting(s, run);
    RevisionTargetInPlay(p, s, retained, run, r);
  }

  lemma RevisionsRejectedExactly(p: Proposal, s: Snapshot, retained: Option<set<string>>, run: string)
    requires s.currentBest != [] && Validator.Accepted(p, s, retained)
    ensures var ctx := ServiceContext(s, run);
      RevisionReasons(ExistingById(ctx.existing), ChallengedDraft(p, ctx).hypotheses, p.revisions) ==
        Collect((r: Revision) => ForeignPredecessor(s, r), p.revisions)
  {
    var ctx := ServiceContext(s, run);
    var existing, hypotheses := ExistingById(ctx.existing), ChallengedDraft(p, ctx).hypotheses;
    forall r | r in p.revisions ensures SupersedeRejection(existing, hypotheses, r) == ForeignPredecessor(s, r) {
      RevisionRejectedExactly(p, s, retained, run, r);
    }
  }

  /** A validated proposal, canonicalized against the snapshot it was validated against, is quarantined for exactly its
      supersede revisions whose predecessor the snapshot does not list; no other quarantine reason can arise. */
  lemma ValidatedQuarantineReasons(p: Proposal, s: Snapshot, retained: Option<set<string>>, run: string)
    requires s.currentBest != [] && Validator.Accepted(p, s, retained)
    ensures Canonical(p, ServiceContext(s, run)).reasons == Collect((r: Revision) => ForeignPredecessor(s, r), p.revisions)
  {
    var ctx := ServiceContext(s, run);
    ServiceExisting(s, run);
    QuarantineSet(p, ctx);
    ClaimsAdmitted(p, s, retained, ctx);
    ArgumentsAdmitted(p, s, retained, run);
    RevisionsRejectedExactly(p, s, retained, run);
    assert ChallengerReasons(ctx, ExistingById(ctx.existing), p.challengers) == {};
  }

  lemma ValidatedQuarantineIff(p: Proposal, s: Snapshot, retained: Option<set<string>>, run: string)
    requires s.currentBest != [] && Validator.Accepted(p, s, retained)
    ensures Canonical(p, ServiceContext(s, run)).Quarantined() <==>
      exists r :: r in p.revisions && r.action == Supersede && r.supersedes.value !in AttackFrontier(s)
  {
    ValidatedQuarantineReasons(p, s, retained, run);
    var f := (r: Revision) => ForeignPredecessor(s, r);
    if r :| r in p.revisions && r.action == Supersede && r.supersedes.value !in AttackFrontier(s) {
      assert f(r).value in Collect(f, p.revisions);
    }
  }

  function SampleSnapshot(): Snapshot {
    Snapshot("topic", 1, [HypothesisRef("best", "t", "s")], [], [], "d")
  }

  /** Two challengers, one superseding the other. */
  function SampleProposal(): Proposal {
    Proposal("summary",
      [Evidence("art", WebPage, "url", "t", "2024", "n")],
      [Claim("claim", "text", ["art"], "2024")],
      [Argument("pro", Support, "best", ["claim"], "r"), Argument("con", Challenge, "best", ["claim"], "r")],
      [Challenger("x", "t", "s", Proposed), Challenger("y", "t", "s", Proposed)],
      [],
      [Revision("best", Weaken, "r", None), Revision("x", Supersede, "r", Some("y"))],
      ExecutionMeta(1, 0, 0))
  }

  /** Validation and the competition rules together do not imply canonicalization: a challenger superseding a fellow
      challenger passes both and is quarantined. */
  lemma AcceptedCanStillBeQuarantined()
    ensures Validator.Accepted(SampleProposal(), SampleSnapshot(), None)
    ensures CompetitionVerdict(FullFrontier(SampleSnapshot()), SampleProposal()) == None
    ensures Canonical(SampleProposal(), ServiceContext(SampleSnapshot(), "run")).Quarantined()
  {
    var p, s := SampleProposal(), SampleSnapshot();
    ExampleAccepted(p, s);
    ExampleCompetes(p, s);
    var r := p.revisions[1];
    assert r in p.revisions && r.supersedes.value !in AttackFrontier(s);
    ValidatedQuarantineIff(p, s, None, "run");
  }

  lemma YearIsCanonical()
    ensures CanonicalScope("2024")
  {
    var w := "2024";
    assert Words(w, "") == Words(w[1..], "2") by { assert w[0] == '2' && [] + [w[0]] == "2"; }
    assert Words(w[1..], "2") == Words(w[2..], "20") by { assert w[1..][0] == '0' && "2" + ['0'] == "20" && w[1..][1..] == w[2..]; }
    assert Words(w[2..], "20") == Words(w[3..], "202") by { assert w[2..][0] == '2' && "20" + ['2'] == "202" && w[2..][1..] == w[3..]; }
    assert Words(w[3..], "202") == Words(w[4..], "2024") by { assert w[3..][0] == '4' && "202" + ['4'] == "2024" && w[3..][1..] == w[4..]; }
    assert w[4..] == "" && Words("", "2024") == ["2024"];
    assert NormalizeText(w) == w;
    assert YearAt(w, 0);
  }

  lemma ExampleAccepted(p: Proposal, s: Snapshot)
    requires |p.evidence| == 1 && |p.claims| == 1 && p.claims[0].artifactIds == [p.evidence[0].artifactId]
    requires p.claims[0].temporalScope == "2024"
    requires |p.challengers| == 2 && p.challengers[0].hypothesisId == "x" && p.challengers[1].hypothesisId == "y"
    requires CurrentBestIds(s) == {"best"}
    requires forall a :: a in p.arguments ==> a.claimIds == [p.claims[0].claimId] && a.target == "best"
    requires p.revisions == [Revision("best", Weaken, "r", None), Revision("x", Supersede, "r", Some("y"))]
    ensures Validator.Accepted(p, s, None)
  {
    YearIsCanonical();
    assert p.evidence[0] in p.evidence && p.claims[0] in p.claims;
    assert p.challengers[0] in p.challengers && p.challengers[1] in p.challengers;
    assert "x" in ChallengerIds(p) && "y" in ChallengerIds(p);
    assert "x"[0] != "y"[0];
  }

  lemma ExampleCompetes(p: Proposal, s: Snapshot)
    requires |p.evidence| == 1 && |p.claims| == 1 && p.claims[0].artifactIds == [p.evidence[0].artifactId]
    requires s.targets == [] && s.currentBest == [HypothesisRef("best", "t", "s")]
    requires |p.challengers| == 2
    requires |p.arguments| == 2 && p.arguments[0].stance == Support && p.arguments[1].stance == Challenge
    requires forall a :: a in p.arguments ==> a.claimIds == [p.claims[0].claimId] && a.target == "best"
    requires |p.revisions| == 2 && p.revisions[0] == Revision("best", Weaken, "r", None)
    ensures CompetitionVerdict(FullFrontier(s), p) == None
  {
    assert Declares(p, p.claims[0].claimId, p.claims[0]);
    assert p.evidence[0] in p.evidence && HasArtifact(p, p.evidence[0].artifactId);
    assert p.arguments[0] in p.arguments && p.arguments[1] in p.arguments;
    assert p.revisions[0] in p.revisions && s.currentBest[0] in s.currentBest;
    assert Listed(s, "best") && Presses(s, p.revisions[0]);
    forall h | h in CurrentBestIds(s) ensures Argued(p, h, Support) && Argued(p, h, Challenge) {
      assert h == "best";
    }
    CompetitionAcceptsIff(s, p);
  }

  // ----- competition, then canonicalization

  /** A stance on a hypothesis in the graph: an edge from a claim node that derives from evidence and is recorded in
      the provenance node. */
  ghost predicate Backed(edges: multiset<Edge>, prov: NodeId, h: string, kind: EdgeKind) {
    exists e, d :: e in edges && d in edges
      && e.kind == kind && e.target == HypothesisNode(h, 1) && e.source.ClaimNode?
      && d.kind == DerivedFrom && d.source == e.source && d.target.EvidenceNode?
      && Recorded(e.source, prov) in edges
  }

  ghost function KindOf(stance: Stance): EdgeKind {
    if stance.Support? then Supports else Challenges
  }

  lemma {:induction false} ChallengerEdgesGrow(
    ctx: Context, prov: NodeId, existing: map<string, HypothesisSnapshot>, d: Draft, cs: seq<Challenger>)
    ensures d.edges <= AddChallengers(ctx, prov, existing, d, cs).edges
  {
    if |cs| != 0 {
      ChallengerEdgesGrow(ctx, prov, existing, d, cs[..|cs| - 1]);
    }
  }

  lemma ChallengerKeepsVersion(
    ctx: Context, prov: NodeId, existing: map<string, HypothesisSnapshot>, d: Draft, c: Challenger, h: string)
    requires h in existing && existing[h].version == 1 && h in d.hypotheses && d.hypotheses[h].id == HypothesisNode(h, 1)
    ensures var x := AddChallenger(ctx, prov, existing, d, c); h in x.hypotheses && x.hypotheses[h].id == HypothesisNode(h, 1)
  {
  }

  lemma {:induction false} ChallengerVersions(
    ctx: Context, prov: NodeId, existing: map<string, HypothesisSnapshot>, d: Draft, cs: seq<Challenger>, h: string)
    requires h in existing && existing[h].version == 1
    requires h in d.hypotheses && d.hypotheses[h].id == HypothesisNode(h, 1)
    ensures var x := AddChallengers(ctx, prov, existing, d, cs);
      h in x.hypotheses && x.hypotheses[h].id == HypothesisNode(h, 1)
  {
    if |cs| != 0 {
      var init, c := cs[..|cs| - 1], cs[|cs| - 1];
      ChallengerVersions(ctx, prov, existing, d, init, h);
      ChallengerKeepsVersion(ctx, prov, existing, AddChallengers(ctx, prov, existing, d, init), c, h);
    }
  }

  /** Arguments about a listed hypothesis are drawn to its version-1 node, even when a challenger reuses its id. */
  lemma ListedTarget(p: Proposal, s: Snapshot, run: string, h: string)
    requires s.currentBest != [] && h in AttackFrontier(s)
    ensures var x := ChallengedDraft(p, ServiceContext(s, run)); h in x.hypotheses && x.hypotheses[h].id == HypothesisNode(h, 1)
  {
    var ctx := ServiceContext(s, run);
    var base := BaseDraft(p, ctx);
    var front := [ProvenanceOf(p, ctx)] + ExistingNodes(ctx);
    ServiceExisting(s, run);
    BaseHypotheses(p, ctx);
    BaseHypothesisIds(p, ctx);
    HypothesisIndexFacts(front);
    var n := base.hypotheses[h];
    assert n in ExistingNodes(ctx);
    var i :| 0 <= i < |ctx.existing| && ExistingNodes(ctx)[i] == n;
    assert ctx.existing[i] in ctx.existing;
    ChallengerVersions(ctx, ProvenanceOf(p, ctx).id, ExistingById(ctx.existing), base, p.challengers, h);
  }

  lemma DraftEdgesGrow(p: Proposal, ctx: Context)
    ensures ClaimPart(p, ctx).edges <= Canonical(p, ctx).edges
    ensures ArguedDraft(p, ctx).edges <= Canonical(p, ctx).edges
  {
    ChallengerEdgesGrow(ctx, ProvenanceOf(p, ctx).id, ExistingById(ctx.existing), BaseDraft(p, ctx), p.challengers);
    ArgumentEdgeFacts(ClaimPart(p, ctx).aliases, ChallengedDraft(p, ctx), p.arguments);
    RevisionFrame(ExistingById(ctx.existing), ArguedDraft(p, ctx), p.revisions);
  }

  /** An admitted claim node comes with a RECORDED_IN edge and a DERIVED_FROM edge to evidence. */
  lemma ClaimNodeIsBacked(p: Proposal, ctx: Context, id: NodeId) returns (d: Edge)
    requires WellFormed(p) && id in AdmittedIds(EvidencePart(p, ctx).aliases, p.claims)
    ensures id.ClaimNode?
    ensures Recorded(id, ProvenanceOf(p, ctx).id) in ClaimPart(p, ctx).edges
    ensures d in ClaimPart(p, ctx).edges && d.kind == DerivedFrom && d.source == id && d.target.EvidenceNode?
  {
    var prov, aliases := ProvenanceOf(p, ctx).id, EvidencePart(p, ctx).aliases;
    ClaimFacts(prov, aliases, p.claims);
    EvidenceAliasKeys(prov, p.evidence);
    var c :| c in p.claims && Admitted(aliases, c) && ClaimIdOfClaim(aliases, c) == id;
    AdmittedIff(aliases, c);
    assert c.artifactIds[0] in c.artifactIds;
    var a := aliases[c.artifactIds[0]];
    assert a in id.artifacts;
    d := Edge(DerivedFrom, id, a, NoNote);
    assert d in ClaimEdges(id, prov) && Recorded(id, prov) in ClaimEdges(id, prov);
    assert d in AllClaimEdges(AdmittedIds(aliases, p.claims), prov);
    assert Recorded(id, prov) in AllClaimEdges(AdmittedIds(aliases, p.claims), prov);
  }

  lemma NotRejected(p: Proposal, ctx: Context, a: Argument)
    requires !Canonical(p, ctx).Quarantined() && a in p.arguments
    ensures ArgumentRejection(ClaimPart(p, ctx).aliases, ChallengedDraft(p, ctx).hypotheses, a) == None
  {
    QuarantineSet(p, ctx);
    var f := (b: Argument) => ArgumentRejection(ClaimPart(p, ctx).aliases, ChallengedDraft(p, ctx).hypotheses, b);
    CollectEmpty(f, p.arguments);
    assert f(a) == None;
  }

  /** Every claim an argument of a graph that is not quarantined cites is drawn to its target. */
  lemma CitedClaimIsDrawn(p: Proposal, ctx: Context, a: Argument, claim: string)
    requires !Canonical(p, ctx).Quarantined() && a in p.arguments && claim in a.claimIds
    ensures var aliases, hypotheses := ClaimPart(p, ctx).aliases, ChallengedDraft(p, ctx).hypotheses;
      && claim in aliases && a.target in hypotheses
      && Edge(ArgumentKind(a), aliases[claim], hypotheses[a.target].id, ArgumentNote(a.argumentId, a.rationale))
         in Canonical(p, ctx).edges
  {
    var aliases, hypotheses := ClaimPart(p, ctx).aliases, ChallengedDraft(p, ctx).hypotheses;
    NotRejected(p, ctx, a);
    var e := Edge(ArgumentKind(a), aliases[claim], hypotheses[a.target].id, ArgumentNote(a.argumentId, a.rationale));
    assert claim in Dedup(a.claimIds);
    ClaimEdgesOfMembers(aliases, a, hypotheses[a.target].id, Dedup(a.claimIds));
    assert e in ArgumentEdges(aliases, hypotheses, a);
    BagSumHas((b: Argument) => ArgumentEdges(aliases, hypotheses, b), p.arguments, a, e);
    ArgumentEdgeFacts(aliases, ChallengedDraft(p, ctx), p.arguments);
    DraftEdgesGrow(p, ctx);
  }

  lemma ArgumentIsBacked(p: Proposal, s: Snapshot, run: string, a: Argument)
    requires WellFormed(p) && s.currentBest != [] && a in p.arguments && a.target in AttackFrontier(s)
    requires !Canonical(p, ServiceContext(s, run)).Quarantined()
    ensures var ctx := ServiceContext(s, run);
      Backed(Canonical(p, ctx).edges, ProvenanceOf(p, ctx).id, a.target, KindOf(a.stance))
  {
    var ctx := ServiceContext(s, run);
    var claim := a.claimIds[0];
    CitedClaimIsDrawn(p, ctx, a, claim);
    ListedTarget(p, s, run, a.target);
    ClaimAliasTargets(ProvenanceOf(p, ctx).id, EvidencePart(p, ctx).aliases, p.claims);
    var d := ClaimNodeIsBacked(p, ctx, ClaimPart(p, ctx).aliases[claim]);
    DraftEdgesGrow(p, ctx);
    assert d in Canonical(p, ctx).edges;
  }

  /** A proposal the competition rules accept and the canonicalizer does not quarantine leaves every current-best
      hypothesis with an evidence-backed SUPPORTS edge and an evidence-backed CHALLENGES edge, and is never flagged as
      support-only. */
  lemma CompetitionReachesTheGraph(p: Proposal, s: Snapshot, run: string)
    requires WellFormed(p) && s.currentBest != []
    requires CompetitionVerdict(FullFrontier(s), p) == None
    requires !Canonical(p, ServiceContext(s, run)).Quarantined()
    ensures var r, prov := Canonical(p, ServiceContext(s, run)), ProvenanceOf(p, ServiceContext(s, run)).id;
      && (forall h :: h in CurrentBestIds(s) ==> Backed(r.edges, prov, h, Supports) && Backed(r.edges, prov, h, Challenges))
      && !r.supportOnly
  {
    var ctx := ServiceContext(s, run);
    var r, prov := Canonical(p, ctx), ProvenanceOf(p, ctx).id;
    CompetitionAcceptsIff(s, p);
    forall h | h in CurrentBestIds(s) ensures Backed(r.edges, prov, h, Supports) && Backed(r.edges, prov, h, Challenges) {
      assert Argued(p, h, Support) && Argued(p, h, Challenge);
      var pro :| pro in p.arguments && pro.target == h && pro.stance == Support;
      var con :| con in p.arguments && con.target == h && con.stance == Challenge;
      ArgumentIsBacked(p, s, run, pro);
      ArgumentIsBacked(p, s, run, con);
    }
    NotSupportOnly(p, s, run);
  }

  lemma NotSupportOnly(p: Proposal, s: Snapshot, run: string)
    requires s.currentBest != [] && !Canonical(p, ServiceContext(s, run)).Quarantined()
    requires forall h :: h in CurrentBestIds(s) ==> Argued(p, h, Challenge)
    ensures !Canonical(p, ServiceContext(s, run)).supportOnly
  {
    var ctx := ServiceContext(s, run);
    var h := s.currentBest[0].hypothesisId;
    assert s.currentBest[0] in s.currentBest && Argued(p, h, Challenge);
    var con :| con in p.arguments && con.target == h && con.stance == Challenge;
    NotRejected(p, ctx, con);
    var aliases, d := ClaimPart(p, ctx).aliases, ChallengedDraft(p, ctx);
    assert CountsAsChallenge(aliases, d.hypotheses, con);
    ArgumentFrame(aliases, d, p.arguments);
    ArgumentChallenges(aliases, d, p.arguments);
    RevisionFrame(ExistingById(ctx.existing), ArguedDraft(p, ctx), p.revisions);
    ChallengesStartAtZero(p, ctx);
  }

  lemma {:induction false} ChallengersKeepCount(
    ctx: Context, prov: NodeId, existing: map<string, HypothesisSnapshot>, d: Draft, cs: seq<Challenger>)
    ensures AddChallengers(ctx, prov, existing, d, cs).challenges == d.challenges
  {
    if |cs| != 0 {
      ChallengersKeepCount(ctx, prov, existing, d, cs[..|cs| - 1]);
    }
  }

  lemma ChallengesStartAtZero(p: Proposal, ctx: Context)
    ensures ChallengedDraft(p, ctx).challenges == 0
  {
    ChallengersKeepCount(ctx, ProvenanceOf(p, ctx).id, ExistingById(ctx.existing), BaseDraft(p, ctx), p.challengers);
  }
}
