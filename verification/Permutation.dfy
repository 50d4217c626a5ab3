/** Canonicalization does not depend on the order in which a proposal lists its evidence, claims, arguments and
    challengers. */
module Permutation {
  import opened Prelude
  import opened Proposals
  import opened Canonicalization
  import opened CanonicalFacts
  import opened CanonicalReasons
  import opened Ordering

  ghost predicate Shuffled(p: Proposal, q: Proposal) {
    && Permuted(p.evidence, q.evidence) && Permuted(p.claims, q.claims)
    && Permuted(p.arguments, q.arguments) && Permuted(p.challengers, q.challengers)
    && p.revisions == q.revisions && p.summary == q.summary && p.meta == q.meta
  }

  ghost predicate DistinctlyIdentified(p: Proposal) {
    && Distinct(Map(ArtifactIdOf, p.evidence))
    && Distinct(Map(ClaimIdOf, p.claims))
    && Distinct(Map(ChallengerIdOf, p.challengers))
  }

  lemma ShuffledStaysDistinct(p: Proposal, q: Proposal)
    requires Shuffled(p, q) && DistinctlyIdentified(p)
    ensures DistinctlyIdentified(q)
  {
    DistinctPermuted(ArtifactIdOf, p.evidence, q.evidence);
    DistinctPermuted(ClaimIdOf, p.claims, q.claims);
    DistinctPermuted(ChallengerIdOf, p.challengers, q.challengers);
  }

  // ----- evidence and claims

  lemma EvidencePermuted(prov: NodeId, es: seq<Evidence>, fs: seq<Evidence>)
    requires Permuted(es, fs)
    ensures EvidenceIds(es) == EvidenceIds(fs)
    ensures IndexEvidence(prov, es).edges == IndexEvidence(prov, fs).edges
  {
    PermutedSameElements(es, fs);
    EvidenceFacts(prov, es);
    EvidenceFacts(prov, fs);
    assert EvidenceIds(es) == EvidenceIds(fs);
  }

  lemma EvidenceAliasesPermuted(prov: NodeId, es: seq<Evidence>, fs: seq<Evidence>)
    requires Permuted(es, fs) && Distinct(Map(ArtifactIdOf, es)) && Distinct(Map(ArtifactIdOf, fs))
    ensures IndexEvidence(prov, es).aliases == IndexEvidence(prov, fs).aliases
  {
    EvidenceAliases(prov, es);
    EvidenceAliases(prov, fs);
    OverlaysUnique(map[], ArtifactIdOf, EvidenceBinding, es, fs, IndexEvidence(prov, es).aliases, IndexEvidence(prov, fs).aliases);
  }

  lemma ClaimsPermuted(prov: NodeId, aliases: map<string, NodeId>, cs: seq<Claim>, ds: seq<Claim>)
    requires Permuted(cs, ds)
    ensures AdmittedIds(aliases, cs) == AdmittedIds(aliases, ds)
    ensures IndexClaims(prov, aliases, cs).edges == IndexClaims(prov, aliases, ds).edges
    ensures IndexClaims(prov, aliases, cs).reasons == IndexClaims(prov, aliases, ds).reasons
  {
    ClaimFacts(prov, aliases, cs);
    ClaimFacts(prov, aliases, ds);
    ClaimReasons(prov, aliases, cs);
    ClaimReasons(prov, aliases, ds);
    CollectPermuted((c: Claim) => RejectionOf(aliases, c), cs, ds);
    CollectPermuted((c: Claim) => if Admitted(aliases, c) then Some(ClaimIdOfClaim(aliases, c)) else None, cs, ds);
  }

  lemma ClaimAliasesPermuted(prov: NodeId, aliases: map<string, NodeId>, cs: seq<Claim>, ds: seq<Claim>)
    requires Permuted(cs, ds) && Distinct(Map(ClaimIdOf, cs)) && Distinct(Map(ClaimIdOf, ds))
    ensures IndexClaims(prov, aliases, cs).aliases == IndexClaims(prov, aliases, ds).aliases
  {
    ClaimAliases(prov, aliases, cs);
    ClaimAliases(prov, aliases, ds);
    OverlaysUnique(map[], ClaimIdOf, ClaimBinding(aliases), cs, ds,
                   IndexClaims(prov, aliases, cs).aliases, IndexClaims(prov, aliases, ds).aliases);
  }

  /** The nodes of a distinct listing form the same bag as the set of its elements. */
  lemma {:induction false} DistinctIdsBag(nodes: seq<Node>)
    requires DistinctIds(nodes)
    ensures multiset(nodes) == multiset(set n | n in nodes)
  {
    if |nodes| == 0 {
      assert (set n | n in nodes) == {};
    } else {
      var k := |nodes| - 1;
      assert nodes == nodes[..k] + [nodes[k]];
      DistinctIdsBag(nodes[..k]);
      assert nodes[k] !in nodes[..k];
      assert (set n | n in nodes) == (set n | n in nodes[..k]) + {nodes[k]};
    }
  }

  ghost predicate EvidenceAgrees(es: seq<Evidence>) {
    forall e, f :: e in es && f in es && EvidenceIdOf(e) == EvidenceIdOf(f) ==> EvidenceNodeOf(e) == EvidenceNodeOf(f)
  }

  ghost predicate ClaimsAgree(aliases: map<string, NodeId>, cs: seq<Claim>) {
    forall c, d | c in cs && d in cs && Admitted(aliases, c) && Admitted(aliases, d) ::
      ClaimIdOfClaim(aliases, c) == ClaimIdOfClaim(aliases, d) ==> ClaimNodeOf(aliases, c) == ClaimNodeOf(aliases, d)
  }

  lemma EvidenceNodeSet(prov: NodeId, es: seq<Evidence>)
    requires EvidenceAgrees(es)
    ensures (set n | n in IndexEvidence(prov, es).nodes) == set e | e in es :: EvidenceNodeOf(e)
  {
    var nodes := IndexEvidence(prov, es).nodes;
    EvidenceFacts(prov, es);
    EvidenceNodesAreCandidates(prov, es);
    forall e | e in es ensures EvidenceNodeOf(e) in nodes {
      assert EvidenceIdOf(e) in Ids(nodes);
      var n :| n in nodes && n.id == EvidenceIdOf(e);
      var f :| f in es && n == EvidenceNodeOf(f);
    }
  }

  lemma EvidenceNodeBag(prov: NodeId, es: seq<Evidence>)
    requires EvidenceAgrees(es)
    ensures multiset(IndexEvidence(prov, es).nodes) == multiset(set e | e in es :: EvidenceNodeOf(e))
  {
    EvidenceNodeSet(prov, es);
    EvidenceFacts(prov, es);
    DistinctIdsBag(IndexEvidence(prov, es).nodes);
  }

  lemma EvidenceNodesPermuted(prov: NodeId, es: seq<Evidence>, fs: seq<Evidence>)
    requires Permuted(es, fs) && EvidenceAgrees(es)
    ensures Permuted(IndexEvidence(prov, es).nodes, IndexEvidence(prov, fs).nodes)
  {
    PermutedSameElements(es, fs);
    EvidenceNodeBag(prov, es);
    EvidenceNodeBag(prov, fs);
    assert (set e | e in es :: EvidenceNodeOf(e)) == (set e | e in fs :: EvidenceNodeOf(e));
  }

  lemma ClaimNodeSet(prov: NodeId, aliases: map<string, NodeId>, cs: seq<Claim>)
    requires ClaimsAgree(aliases, cs)
    ensures (set n | n in IndexClaims(prov, aliases, cs).nodes) ==
      set c | c in cs && Admitted(aliases, c) :: ClaimNodeOf(aliases, c)
  {
    var nodes := IndexClaims(prov, aliases, cs).nodes;
    ClaimFacts(prov, aliases, cs);
    ClaimNodesAreClaims(prov, aliases, cs);
    forall c | c in cs && Admitted(aliases, c) ensures ClaimNodeOf(aliases, c) in nodes {
      assert ClaimIdOfClaim(aliases, c) in AdmittedIds(aliases, cs);
      var n :| n in nodes && n.id == ClaimIdOfClaim(aliases, c);
      var d :| d in cs && Admitted(aliases, d) && n == ClaimNodeOf(aliases, d);
    }
  }

  lemma ClaimNodeBag(prov: NodeId, aliases: map<string, NodeId>, cs: seq<Claim>)
    requires ClaimsAgree(aliases, cs)
    ensures multiset(IndexClaims(prov, aliases, cs).nodes) ==
      multiset(set c | c in cs && Admitted(aliases, c) :: ClaimNodeOf(aliases, c))
  {
    ClaimNodeSet(prov, aliases, cs);
    ClaimFacts(prov, aliases, cs);
    DistinctIdsBag(IndexClaims(prov, aliases, cs).nodes);
  }

  lemma ClaimNodesPermuted(prov: NodeId, aliases: map<string, NodeId>, cs: seq<Claim>, ds: seq<Claim>)
    requires Permuted(cs, ds) && ClaimsAgree(aliases, cs)
    ensures Permuted(IndexClaims(prov, aliases, cs).nodes, IndexClaims(prov, aliases, ds).nodes)
  {
    PermutedSameElements(cs, ds);
    ClaimNodeBag(prov, aliases, cs);
    ClaimNodeBag(prov, aliases, ds);
    assert (set c | c in cs && Admitted(aliases, c) :: ClaimNodeOf(aliases, c)) ==
      (set c | c in ds && Admitted(aliases, c) :: ClaimNodeOf(aliases, c));
  }

  // ----- drafts that differ at most in node order, or only in stored properties

  ghost predicate Alike(a: Draft, b: Draft) {
    && Ids(a.nodes) == Ids(b.nodes) && a.edges == b.edges && a.hypotheses == b.hypotheses && a.reasons == b.reasons
    && (a.challenges == 0 <==> b.challenges == 0)
  }

  lemma BaseAlike(p: Proposal, q: Proposal, ctx: Context)
    requires Shuffled(p, q) && DistinctlyIdentified(p)
    ensures ClaimPart(p, ctx).aliases == ClaimPart(q, ctx).aliases
    ensures Alike(BaseDraft(p, ctx), BaseDraft(q, ctx))
  {
    var prov := ProvenanceOf(p, ctx).id;
    ShuffledStaysDistinct(p, q);
    EvidencePermuted(prov, p.evidence, q.evidence);
    EvidenceAliasesPermuted(prov, p.evidence, q.evidence);
    ClaimsPermuted(prov, EvidencePart(p, ctx).aliases, p.claims, q.claims);
    ClaimAliasesPermuted(prov, EvidencePart(p, ctx).aliases, p.claims, q.claims);
    BaseNodes(p, ctx);
    BaseNodes(q, ctx);
    BaseHypotheses(p, ctx);
    BaseHypotheses(q, ctx);
  }

  lemma BasePermuted(p: Proposal, q: Proposal, ctx: Context)
    requires Shuffled(p, q) && DistinctlyIdentified(p)
    requires EvidenceAgrees(p.evidence) && ClaimsAgree(EvidencePart(p, ctx).aliases, p.claims)
    ensures Permuted(BaseDraft(p, ctx).nodes, BaseDraft(q, ctx).nodes)
  {
    var prov := ProvenanceOf(p, ctx).id;
    ShuffledStaysDistinct(p, q);
    EvidenceAliasesPermuted(prov, p.evidence, q.evidence);
    EvidenceNodesPermuted(prov, p.evidence, q.evidence);
    ClaimNodesPermuted(prov, EvidencePart(p, ctx).aliases, p.claims, q.claims);
  }

  // ----- challengers

  ghost function ChallengerContribution(ctx: Context, prov: NodeId, existing: map<string, HypothesisSnapshot>, c: Challenger)
    : multiset<Edge>
  {
    if HasBest(ctx, existing) then ChallengerEdges(prov, existing[ctx.currentBest.value], CandidateNode(existing, c))
    else multiset{}
  }

  lemma ChallengerEdgeStep(ctx: Context, prov: NodeId, existing: map<string, HypothesisSnapshot>, d: Draft, c: Challenger)
    ensures AddChallenger(ctx, prov, existing, d, c).edges == d.edges + ChallengerContribution(ctx, prov, existing, c)
  {
  }

  lemma {:induction false} ChallengerEdgeFacts(
    ctx: Context, prov: NodeId, existing: map<string, HypothesisSnapshot>, d: Draft, cs: seq<Challenger>)
    ensures AddChallengers(ctx, prov, existing, d, cs).edges ==
      d.edges + BagSum((c: Challenger) => ChallengerContribution(ctx, prov, existing, c), cs)
  {
    if |cs| != 0 {
      var init, c := cs[..|cs| - 1], cs[|cs| - 1];
      ChallengerEdgeFacts(ctx, prov, existing, d, init);
      ChallengerEdgeStep(ctx, prov, existing, AddChallengers(ctx, prov, existing, d, init), c);
    }
  }

  ghost function CandidateIds(existing: map<string, HypothesisSnapshot>, cs: seq<Challenger>): set<NodeId> {
    set c | c in cs :: CandidateNode(existing, c).id
  }

  lemma CandidateIdsGrow(existing: map<string, HypothesisSnapshot>, init: seq<Challenger>, c: Challenger)
    ensures CandidateIds(existing, init + [c]) == CandidateIds(existing, init) + {CandidateNode(existing, c).id}
  {
  }

  lemma ChallengerNodeStep(ctx: Context, prov: NodeId, existing: map<string, HypothesisSnapshot>, d: Draft, c: Challenger)
    requires HasBest(ctx, existing)
    ensures AddChallenger(ctx, prov, existing, d, c).nodes == ReplaceOrAppend(d.nodes, CandidateNode(existing, c))
  {
  }

  lemma {:induction false} ChallengerIdFacts(
    ctx: Context, prov: NodeId, existing: map<string, HypothesisSnapshot>, d: Draft, cs: seq<Challenger>)
    requires HasBest(ctx, existing)
    ensures Ids(AddChallengers(ctx, prov, existing, d, cs).nodes) == Ids(d.nodes) + CandidateIds(existing, cs)
  {
    if |cs| != 0 {
      var rest, c := cs[..|cs| - 1], cs[|cs| - 1];
      var init := AddChallengers(ctx, prov, existing, d, rest);
      ChallengerIdFacts(ctx, prov, existing, d, rest);
      assert cs == rest + [c];
      CandidateIdsGrow(existing, rest, c);
      IdsReplaceOrAppend(init.nodes, CandidateNode(existing, c));
      ChallengerNodeStep(ctx, prov, existing, init, c);
    }
  }

  lemma {:induction false} NoBestNoChange(
    ctx: Context, prov: NodeId, existing: map<string, HypothesisSnapshot>, d: Draft, cs: seq<Challenger>)
    requires !HasBest(ctx, existing)
    ensures AddChallengers(ctx, prov, existing, d, cs).nodes == d.nodes
    ensures AddChallengers(ctx, prov, existing, d, cs).hypotheses == d.hypotheses
  {
    if |cs| != 0 {
      NoBestNoChange(ctx, prov, existing, d, cs[..|cs| - 1]);
    }
  }

  ghost function CandidateBinding(existing: map<string, HypothesisSnapshot>): Challenger -> Option<Node> {
    (c: Challenger) => Some(CandidateNode(existing, c))
  }

  lemma {:induction false} ChallengerMap(
    ctx: Context, prov: NodeId, existing: map<string, HypothesisSnapshot>, d: Draft, cs: seq<Challenger>)
    requires HasBest(ctx, existing) && Distinct(Map(ChallengerIdOf, cs))
    ensures Overlays(d.hypotheses, ChallengerIdOf, CandidateBinding(existing), cs,
                     AddChallengers(ctx, prov, existing, d, cs).hypotheses)
  {
    if |cs| != 0 {
      var k := |cs| - 1;
      assert Map(ChallengerIdOf, cs[..k]) == Map(ChallengerIdOf, cs)[..k];
      ChallengerMap(ctx, prov, existing, d, cs[..k]);
      assert cs == cs[..k] + [cs[k]];
      OnlyLastHasItsId(ChallengerIdOf, cs);
      OverlaysGrow(d.hypotheses, ChallengerIdOf, CandidateBinding(existing), cs[..k], cs[k],
                   AddChallengers(ctx, prov, existing, d, cs[..k]).hypotheses);
    }
  }

  lemma ChallengerMapPermuted(
    ctx: Context, prov: NodeId, existing: map<string, HypothesisSnapshot>, d: Draft, e: Draft,
    cs: seq<Challenger>, ds: seq<Challenger>)
    requires d.hypotheses == e.hypotheses
    requires Permuted(cs, ds) && Distinct(Map(ChallengerIdOf, cs)) && Distinct(Map(ChallengerIdOf, ds))
    ensures AddChallengers(ctx, prov, existing, d, cs).hypotheses == AddChallengers(ctx, prov, existing, e, ds).hypotheses
  {
    if !HasBest(ctx, existing) {
      NoBestNoChange(ctx, prov, existing, d, cs);
      NoBestNoChange(ctx, prov, existing, e, ds);
    } else {
      ChallengerMap(ctx, prov, existing, d, cs);
      ChallengerMap(ctx, prov, existing, e, ds);
      OverlaysUnique(d.hypotheses, ChallengerIdOf, CandidateBinding(existing), cs, ds,
        AddChallengers(ctx, prov, existing, d, cs).hypotheses, AddChallengers(ctx, prov, existing, e, ds).hypotheses);
    }
  }

  lemma ChallengersAlike(
    ctx: Context, prov: NodeId, existing: map<string, HypothesisSnapshot>, d: Draft, e: Draft,
    cs: seq<Challenger>, ds: seq<Challenger>)
    requires Alike(d, e)
    requires Permuted(cs, ds) && Distinct(Map(ChallengerIdOf, cs)) && Distinct(Map(ChallengerIdOf, ds))
    requires d.challenges == e.challenges == 0
    ensures Alike(AddChallengers(ctx, prov, existing, d, cs), AddChallengers(ctx, prov, existing, e, ds))
  {
    PermutedSameElements(cs, ds);
    ChallengerReasonFacts(ctx, prov, existing, d, cs);
    ChallengerReasonFacts(ctx, prov, existing, e, ds);
    CollectPermuted((c: Challenger) => ChallengerRejection(ctx, existing, c), cs, ds);
    ChallengerEdgeFacts(ctx, prov, existing, d, cs);
    ChallengerEdgeFacts(ctx, prov, existing, e, ds);
    BagSumPermuted((c: Challenger) => ChallengerContribution(ctx, prov, existing, c), cs, ds);
    ChallengerMapPermuted(ctx, prov, existing, d, e, cs, ds);
    ChallengersKeepZero(ctx, prov, existing, d, cs);
    ChallengersKeepZero(ctx, prov, existing, e, ds);
    if HasBest(ctx, existing) {
      ChallengerIdFacts(ctx, prov, existing, d, cs);
      ChallengerIdFacts(ctx, prov, existing, e, ds);
      assert CandidateIds(existing, cs) == CandidateIds(existing, ds);
    } else {
      NoBestNoChange(ctx, prov, existing, d, cs);
      NoBestNoChange(ctx, prov, existing, e, ds);
    }
  }

  lemma {:induction false} ChallengersKeepZero(
    ctx: Context, prov: NodeId, existing: map<string, HypothesisSnapshot>, d: Draft, cs: seq<Challenger>)
    requires d.challenges == 0
    ensures AddChallengers(ctx, prov, existing, d, cs).challenges == 0
  {
    if |cs| != 0 {
      ChallengersKeepZero(ctx, prov, existing, d, cs[..|cs| - 1]);
    }
  }

  // ----- the node list after the challengers, said as a substitution plus the fresh candidates

  ghost function CandidateMap(existing: map<string, HypothesisSnapshot>, cs: seq<Challenger>): map<NodeId, Node> {
    if |cs| == 0 then map[] else
      var n := CandidateNode(existing, cs[|cs| - 1]);
      CandidateMap(existing, cs[..|cs| - 1])[n.id := n]
  }

  ghost function Substitute(repl: map<NodeId, Node>, n: Node): Node {
    if n.id in repl then repl[n.id] else n
  }

  ghost function FreshBag(existing: map<string, HypothesisSnapshot>, ids: set<NodeId>, c: Challenger): multiset<Node> {
    if CandidateNode(existing, c).id in ids then multiset{} else multiset{CandidateNode(existing, c)}
  }

  /** The candidates that are new to the draft, in proposal order. */
  ghost function Fresh(existing: map<string, HypothesisSnapshot>, ids: set<NodeId>, cs: seq<Challenger>): seq<Node> {
    if |cs| == 0 then [] else
      var n := CandidateNode(existing, cs[|cs| - 1]);
      Fresh(existing, ids, cs[..|cs| - 1]) + if n.id in ids then [] else [n]
  }

  lemma {:induction false} FreshIsBag(existing: map<string, HypothesisSnapshot>, ids: set<NodeId>, cs: seq<Challenger>)
    ensures multiset(Fresh(existing, ids, cs)) == BagSum((c: Challenger) => FreshBag(existing, ids, c), cs)
  {
    if |cs| != 0 {
      FreshIsBag(existing, ids, cs[..|cs| - 1]);
    }
  }

  lemma {:induction false} FreshAvoids(
    existing: map<string, HypothesisSnapshot>, ids: set<NodeId>, cs: seq<Challenger>, id: NodeId)
    requires forall c :: c in cs ==> CandidateNode(existing, c).id != id
    ensures forall n :: n in Fresh(existing, ids, cs) ==> n.id != id
  {
    if |cs| != 0 {
      FreshAvoids(existing, ids, cs[..|cs| - 1], id);
    }
  }

  ghost function CandidateIdOf(existing: map<string, HypothesisSnapshot>): Challenger -> NodeId {
    (c: Challenger) => CandidateNode(existing, c).id
  }

  ghost predicate OwnIds(repl: map<NodeId, Node>) {
    forall id :: id in repl ==> repl[id].id == id
  }

  lemma LastCandidateIsNew(existing: map<string, HypothesisSnapshot>, cs: seq<Challenger>)
    requires |cs| > 0 && Distinct(Map(ChallengerIdOf, cs))
    ensures forall c :: c in cs[..|cs| - 1] ==> CandidateNode(existing, c).id != CandidateNode(existing, cs[|cs| - 1]).id
  {
    OnlyLastHasItsId(ChallengerIdOf, cs);
    forall c | c in cs[..|cs| - 1] ensures CandidateNode(existing, c).id != CandidateNode(existing, cs[|cs| - 1]).id {
      assert ChallengerIdOf(c) != ChallengerIdOf(cs[|cs| - 1]);
    }
  }

  lemma {:induction false} CandidateMapFacts(existing: map<string, HypothesisSnapshot>, cs: seq<Challenger>)
    requires Distinct(Map(ChallengerIdOf, cs))
    ensures Overlays(map[], CandidateIdOf(existing), CandidateBinding(existing), cs, CandidateMap(existing, cs))
    ensures OwnIds(CandidateMap(existing, cs))
    ensures |cs| > 0 ==> forall c :: c in cs[..|cs| - 1] ==> CandidateNode(existing, c).id != CandidateNode(existing, cs[|cs| - 1]).id
  {
    if |cs| != 0 {
      var init, c := cs[..|cs| - 1], cs[|cs| - 1];
      assert Map(ChallengerIdOf, init) == Map(ChallengerIdOf, cs)[..|cs| - 1];
      CandidateMapFacts(existing, init);
      assert cs == init + [c];
      LastCandidateIsNew(existing, cs);
      OverlaysGrow(map[], CandidateIdOf(existing), CandidateBinding(existing), init, c, CandidateMap(existing, init));
    }
  }

  /** One more replacement on a substituted list with fresh candidates behind it. */
  lemma SubstituteStep(base: seq<Node>, before: map<NodeId, Node>, extra: seq<Node>, n: Node)
    requires n.id !in before && OwnIds(before)
    requires forall m :: m in extra ==> m.id != n.id
    ensures ReplaceOrAppend(Map((m: Node) => Substitute(before, m), base) + extra, n) ==
      Map((m: Node) => Substitute(before[n.id := n], m), base) + extra + if n.id in Ids(base) then [] else [n]
  {
    var now := Map((m: Node) => Substitute(before, m), base);
    SubstitutedIds(before, base);
    IdsConcat(now, extra);
    var out := Map((m: Node) => Substitute(before[n.id := n], m), base);
    if n.id in Ids(base) {
      assert ReplaceOrAppend(now + extra, n) == out + extra;
    } else {
      assert forall i :: 0 <= i < |base| ==> base[i].id in Ids(base);
      assert now == out;
    }
  }

  lemma SubstitutedIds(repl: map<NodeId, Node>, base: seq<Node>)
    requires OwnIds(repl)
    ensures Ids(Map((m: Node) => Substitute(repl, m), base)) == Ids(base)
  {
    var now := Map((m: Node) => Substitute(repl, m), base);
    forall id | id in Ids(base) ensures id in Ids(now) {
      var i :| 0 <= i < |base| && base[i].id == id;
      assert now[i] in now;
    }
  }

  ghost function Revised(existing: map<string, HypothesisSnapshot>, base: seq<Node>, cs: seq<Challenger>): seq<Node> {
    Map((m: Node) => Substitute(CandidateMap(existing, cs), m), base) + Fresh(existing, Ids(base), cs)
  }

  lemma RevisedStep(existing: map<string, HypothesisSnapshot>, base: seq<Node>, cs: seq<Challenger>)
    requires |cs| > 0 && Distinct(Map(ChallengerIdOf, cs))
    ensures Revised(existing, base, cs) ==
      ReplaceOrAppend(Revised(existing, base, cs[..|cs| - 1]), CandidateNode(existing, cs[|cs| - 1]))
  {
    var k := |cs| - 1;
    var n, before := CandidateNode(existing, cs[k]), CandidateMap(existing, cs[..k]);
    assert Map(ChallengerIdOf, cs[..k]) == Map(ChallengerIdOf, cs)[..k];
    CandidateMapFacts(existing, cs);
    CandidateMapFacts(existing, cs[..k]);
    FreshAvoids(existing, Ids(base), cs[..k], n.id);
    SubstituteStep(base, before, Fresh(existing, Ids(base), cs[..k]), n);
  }

  /** The node list after the challengers: every known node, replaced where a candidate has its id, then the others. */
  lemma {:induction false} ChallengerNodes(
    ctx: Context, prov: NodeId, existing: map<string, HypothesisSnapshot>, d: Draft, cs: seq<Challenger>)
    requires HasBest(ctx, existing) && Distinct(Map(ChallengerIdOf, cs))
    ensures AddChallengers(ctx, prov, existing, d, cs).nodes == Revised(existing, d.nodes, cs)
  {
    if |cs| == 0 {
      assert Map((m: Node) => Substitute(map[], m), d.nodes) == d.nodes;
    } else {
      assert Map(ChallengerIdOf, cs[..|cs| - 1]) == Map(ChallengerIdOf, cs)[..|cs| - 1];
      ChallengerNodes(ctx, prov, existing, d, cs[..|cs| - 1]);
      RevisedStep(existing, d.nodes, cs);
    }
  }

  lemma ChallengerNodesPermuted(
    ctx: Context, prov: NodeId, existing: map<string, HypothesisSnapshot>, d: Draft, e: Draft,
    cs: seq<Challenger>, ds: seq<Challenger>)
    requires Permuted(d.nodes, e.nodes) && Ids(d.nodes) == Ids(e.nodes)
    requires Permuted(cs, ds) && Distinct(Map(ChallengerIdOf, cs)) && Distinct(Map(ChallengerIdOf, ds))
    ensures Permuted(AddChallengers(ctx, prov, existing, d, cs).nodes, AddChallengers(ctx, prov, existing, e, ds).nodes)
  {
    PermutedSameElements(cs, ds);
    if !HasBest(ctx, existing) {
      NoBestNoChange(ctx, prov, existing, d, cs);
      NoBestNoChange(ctx, prov, existing, e, ds);
    } else {
      ChallengerNodes(ctx, prov, existing, d, cs);
      ChallengerNodes(ctx, prov, existing, e, ds);
      CandidateMapPermuted(existing, cs, ds);
      MapPermuted((m: Node) => Substitute(CandidateMap(existing, cs), m), d.nodes, e.nodes);
      FreshIsBag(existing, Ids(d.nodes), cs);
      FreshIsBag(existing, Ids(d.nodes), ds);
      BagSumPermuted((c: Challenger) => FreshBag(existing, Ids(d.nodes), c), cs, ds);
    }
  }

  lemma CandidateMapPermuted(existing: map<string, HypothesisSnapshot>, cs: seq<Challenger>, ds: seq<Challenger>)
    requires Permuted(cs, ds) && Distinct(Map(ChallengerIdOf, cs)) && Distinct(Map(ChallengerIdOf, ds))
    ensures CandidateMap(existing, cs) == CandidateMap(existing, ds)
  {
    CandidateMapFacts(existing, cs);
    CandidateMapFacts(existing, ds);
    OverlaysUnique(map[], CandidateIdOf(existing), CandidateBinding(existing), cs, ds,
                   CandidateMap(existing, cs), CandidateMap(existing, ds));
  }

  // ----- arguments and revisions

  lemma ArgumentsAlike(aliases: map<string, NodeId>, d: Draft, e: Draft, args: seq<Argument>, brgs: seq<Argument>)
    requires Alike(d, e) && Permuted(args, brgs)
    requires d.challenges == e.challenges == 0
    ensures Alike(AddArguments(aliases, d, args), AddArguments(aliases, e, brgs))
  {
    PermutedSameElements(args, brgs);
    ArgumentFrame(aliases, d, args);
    ArgumentFrame(aliases, e, brgs);
    ArgumentChallenges(aliases, d, args);
    ArgumentChallenges(aliases, e, brgs);
    ArgumentReasonFacts(aliases, d, args);
    ArgumentReasonFacts(aliases, e, brgs);
    CollectPermuted((a: Argument) => ArgumentRejection(aliases, d.hypotheses, a), args, brgs);
    ArgumentEdgeFacts(aliases, d, args);
    ArgumentEdgeFacts(aliases, e, brgs);
    BagSumPermuted((a: Argument) => ArgumentEdges(aliases, d.hypotheses, a), args, brgs);
  }

  lemma {:induction false} RevisionsAlike(existing: map<string, HypothesisSnapshot>, d: Draft, e: Draft, rs: seq<Revision>)
    requires Alike(d, e)
    ensures Alike(AddRevisions(existing, d, rs), AddRevisions(existing, e, rs))
    ensures Permuted(d.nodes, e.nodes) ==> Permuted(AddRevisions(existing, d, rs).nodes, AddRevisions(existing, e, rs).nodes)
  {
    if |rs| != 0 {
      var k := |rs| - 1;
      var x, y := AddRevisions(existing, d, rs[..k]), AddRevisions(existing, e, rs[..k]);
      RevisionsAlike(existing, d, e, rs[..k]);
      if rs[k].action == Supersede && RevisionRejection(existing, x.hypotheses, rs[k]) == None {
        var n := VersionedNode(x.hypotheses[rs[k].hypothesisId], rs[k], existing[rs[k].supersedes.value].version + 1);
        IdsReplaceOrAppend(x.nodes, n);
        IdsReplaceOrAppend(y.nodes, n);
        if Permuted(x.nodes, y.nodes) {
          MapPermuted((m: Node) => ReplaceNode(n, m), x.nodes, y.nodes);
        }
      }
    }
  }

  // ----- the whole pass

  lemma FinalAlike(p: Proposal, q: Proposal, ctx: Context)
    requires Shuffled(p, q) && DistinctlyIdentified(p)
    ensures Alike(FinalDraft(p, ctx), FinalDraft(q, ctx))
  {
    var prov, existing := ProvenanceOf(p, ctx).id, ExistingById(ctx.existing);
    ShuffledStaysDistinct(p, q);
    BaseAlike(p, q, ctx);
    ChallengersAlike(ctx, prov, existing, BaseDraft(p, ctx), BaseDraft(q, ctx), p.challengers, q.challengers);
    ChallengersKeepZero(ctx, prov, existing, BaseDraft(p, ctx), p.challengers);
    ChallengersKeepZero(ctx, prov, existing, BaseDraft(q, ctx), q.challengers);
    ArgumentsAlike(ClaimPart(p, ctx).aliases, ChallengedDraft(p, ctx), ChallengedDraft(q, ctx), p.arguments, q.arguments);
    RevisionsAlike(existing, ArguedDraft(p, ctx), ArguedDraft(q, ctx), p.revisions);
  }

  /** With distinct artifact, claim and challenger ids, the order of evidence, claims, arguments and challengers changes
      neither the node ids, nor the edges with their multiplicity, nor the quarantine reasons, nor the review flag. */
  lemma OrderDoesNotMatter(p: Proposal, q: Proposal, ctx: Context)
    requires Shuffled(p, q) && DistinctlyIdentified(p)
    ensures var a, b := Canonical(p, ctx), Canonical(q, ctx);
      && Ids(a.nodes) == Ids(b.nodes) && a.edges == b.edges && a.reasons == b.reasons && a.supportOnly == b.supportOnly
  {
    FinalAlike(p, q, ctx);
    CanonicalGraphIsClosed(p, ctx);
    CanonicalGraphIsClosed(q, ctx);
    PermutedSameElements(p.arguments, q.arguments);
  }

  /** Nor the number of evidence and claim nodes reported by the deduplication summary. */
  lemma OrderDoesNotMatterToCounts(p: Proposal, q: Proposal, ctx: Context)
    requires Shuffled(p, q) && DistinctlyIdentified(p)
    ensures Canonical(p, ctx).evidenceOut == Canonical(q, ctx).evidenceOut
    ensures Canonical(p, ctx).claimsOut == Canonical(q, ctx).claimsOut
  {
    var prov := ProvenanceOf(p, ctx).id;
    ShuffledStaysDistinct(p, q);
    EvidencePermuted(prov, p.evidence, q.evidence);
    EvidenceAliasesPermuted(prov, p.evidence, q.evidence);
    ClaimsPermuted(prov, EvidencePart(p, ctx).aliases, p.claims, q.claims);
    EvidenceFacts(prov, p.evidence);
    EvidenceFacts(prov, q.evidence);
    ClaimFacts(prov, EvidencePart(p, ctx).aliases, p.claims);
    ClaimFacts(prov, EvidencePart(p, ctx).aliases, q.claims);
    KeyCount(EvidencePart(p, ctx).byKey, EvidencePart(q, ctx).byKey);
    KeyCount(ClaimPart(p, ctx).byKey, ClaimPart(q, ctx).byKey);
  }

  lemma KeyCount(a: map<NodeId, Node>, b: map<NodeId, Node>)
    requires a.Keys == b.Keys
    ensures |a| == |b|
  {
    assert |a| == |a.Keys| && |b| == |b.Keys|;
  }

  /** When candidates that share a key also agree on what is stored for them, the node lists are permutations too. */
  lemma OrderDoesNotMatterToNodes(p: Proposal, q: Proposal, ctx: Context)
    requires Shuffled(p, q) && DistinctlyIdentified(p)
    requires EvidenceAgrees(p.evidence) && ClaimsAgree(EvidencePart(p, ctx).aliases, p.claims)
    ensures Permuted(Canonical(p, ctx).nodes, Canonical(q, ctx).nodes)
  {
    var prov, existing := ProvenanceOf(p, ctx).id, ExistingById(ctx.existing);
    ShuffledStaysDistinct(p, q);
    BaseAlike(p, q, ctx);
    BasePermuted(p, q, ctx);
    ChallengersAlike(ctx, prov, existing, BaseDraft(p, ctx), BaseDraft(q, ctx), p.challengers, q.challengers);
    ChallengerNodesPermuted(ctx, prov, existing, BaseDraft(p, ctx), BaseDraft(q, ctx), p.challengers, q.challengers);
    ChallengersKeepZero(ctx, prov, existing, BaseDraft(p, ctx), p.challengers);
    ChallengersKeepZero(ctx, prov, existing, BaseDraft(q, ctx), q.challengers);
    ArgumentsAlike(ClaimPart(p, ctx).aliases, ChallengedDraft(p, ctx), ChallengedDraft(q, ctx), p.arguments, q.arguments);
    ArgumentFrame(ClaimPart(p, ctx).aliases, ChallengedDraft(p, ctx), p.arguments);
    ArgumentFrame(ClaimPart(p, ctx).aliases, ChallengedDraft(q, ctx), q.arguments);
    RevisionsAlike(existing, ArguedDraft(p, ctx), ArguedDraft(q, ctx), p.revisions);
  }

  // ----- the sorted graph the digest is taken of

  const NodeKey: Node -> NodeId := (n: Node) => n.id

  /** Under agreement and distinct node ids, any sort of the nodes by id gives both proposals the same list; the edges,
      whose ids are their content, are equal as bags already, so the digest of the sorted graph is the same. */
  lemma SortedGraphIsTheSame(
    p: Proposal, q: Proposal, ctx: Context, le: (NodeId, NodeId) -> bool, a: seq<Node>, b: seq<Node>)
    requires Shuffled(p, q) && DistinctlyIdentified(p)
    requires EvidenceAgrees(p.evidence) && ClaimsAgree(EvidencePart(p, ctx).aliases, p.claims)
    requires TotalOrder(le) && KeyDetermines(NodeKey, Canonical(p, ctx).nodes)
    requires Permuted(a, Canonical(p, ctx).nodes) && SortedBy(le, NodeKey, a)
    requires Permuted(b, Canonical(q, ctx).nodes) && SortedBy(le, NodeKey, b)
    ensures a == b && Canonical(p, ctx).edges == Canonical(q, ctx).edges
  {
    OrderDoesNotMatter(p, q, ctx);
    OrderDoesNotMatterToNodes(p, q, ctx);
    PermutedSameElements(a, Canonical(p, ctx).nodes);
    SortedListingIsUnique(le, NodeKey, a, b);
  }
}
