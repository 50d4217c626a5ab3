/** The quarantine set, the hypotheses in play and the edges of a canonical graph, each said as one comprehension
    over the proposal instead of a loop. */
module CanonicalReasons {
  import opened Prelude
  import opened Proposals
  import opened Canonicalization
  import opened CanonicalFacts

  // ----- challengers

  ghost function ChallengerRejection(ctx: Context, existing: map<string, HypothesisSnapshot>, c: Challenger): Option<Reason> {
    match ctx.currentBest
    case None => Some(NoCurrentBest(c.hypothesisId))
    case Some(best) => if best in existing then None else Some(CurrentBestNotInContext(c.hypothesisId, best))
  }

  ghost function ChallengerReasons(ctx: Context, existing: map<string, HypothesisSnapshot>, cs: seq<Challenger>): set<Reason> {
    Collect((c: Challenger) => ChallengerRejection(ctx, existing, c), cs)
  }

  ghost predicate HasBest(ctx: Context, existing: map<string, HypothesisSnapshot>) {
    ctx.currentBest.Some? && ctx.currentBest.value in existing
  }

  ghost function AdmittedChallengerIds(ctx: Context, existing: map<string, HypothesisSnapshot>, cs: seq<Challenger>): set<string> {
    if HasBest(ctx, existing) then set c | c in cs :: c.hypothesisId else {}
  }

  lemma ChallengerStep(ctx: Context, prov: NodeId, existing: map<string, HypothesisSnapshot>, d: Draft, c: Challenger)
    ensures var e := AddChallenger(ctx, prov, existing, d, c);
      && e.reasons == (match ChallengerRejection(ctx, existing, c) case Some(r) => d.reasons + {r} case None => d.reasons)
      && e.hypotheses.Keys == d.hypotheses.Keys + (if HasBest(ctx, existing) then {c.hypothesisId} else {})
  {
  }

  lemma {:induction false} ChallengerReasonFacts(
    ctx: Context, prov: NodeId, existing: map<string, HypothesisSnapshot>, d: Draft, cs: seq<Challenger>)
    ensures AddChallengers(ctx, prov, existing, d, cs).reasons == d.reasons + ChallengerReasons(ctx, existing, cs)
  {
    if |cs| != 0 {
      var init, c := cs[..|cs| - 1], cs[|cs| - 1];
      ChallengerReasonFacts(ctx, prov, existing, d, init);
      assert cs == init + [c];
      CollectGrow((e: Challenger) => ChallengerRejection(ctx, existing, e), init, c);
      ChallengerStep(ctx, prov, existing, AddChallengers(ctx, prov, existing, d, init), c);
    }
  }

  lemma AdmittedChallengersGrow(ctx: Context, existing: map<string, HypothesisSnapshot>, init: seq<Challenger>, c: Challenger)
    ensures AdmittedChallengerIds(ctx, existing, init + [c]) ==
      AdmittedChallengerIds(ctx, existing, init) + if HasBest(ctx, existing) then {c.hypothesisId} else {}
  {
  }

  lemma {:induction false} ChallengerHypotheses(
    ctx: Context, prov: NodeId, existing: map<string, HypothesisSnapshot>, d: Draft, cs: seq<Challenger>)
    ensures AddChallengers(ctx, prov, existing, d, cs).hypotheses.Keys ==
      d.hypotheses.Keys + AdmittedChallengerIds(ctx, existing, cs)
  {
    if |cs| != 0 {
      var init, c := cs[..|cs| - 1], cs[|cs| - 1];
      ChallengerHypotheses(ctx, prov, existing, d, init);
      assert cs == init + [c];
      AdmittedChallengersGrow(ctx, existing, init, c);
      ChallengerStep(ctx, prov, existing, AddChallengers(ctx, prov, existing, d, init), c);
    }
  }

  // ----- arguments

  ghost function ArgumentReasons(aliases: map<string, NodeId>, hypotheses: map<string, Node>, args: seq<Argument>): set<Reason> {
    Collect((a: Argument) => ArgumentRejection(aliases, hypotheses, a), args)
  }

  ghost predicate CountsAsChallenge(aliases: map<string, NodeId>, hypotheses: map<string, Node>, a: Argument) {
    a.stance.Challenge? && ArgumentRejection(aliases, hypotheses, a) == None
  }

  lemma {:induction false} ArgumentFrame(aliases: map<string, NodeId>, d: Draft, args: seq<Argument>)
    ensures AddArguments(aliases, d, args).nodes == d.nodes
    ensures AddArguments(aliases, d, args).hypotheses == d.hypotheses
    ensures AddArguments(aliases, d, args).challenges >= d.challenges
  {
    if |args| != 0 {
      ArgumentFrame(aliases, d, args[..|args| - 1]);
    }
  }

  lemma {:induction false} ArgumentChallenges(aliases: map<string, NodeId>, d: Draft, args: seq<Argument>)
    ensures AddArguments(aliases, d, args).challenges == d.challenges <==>
      !exists a :: a in args && CountsAsChallenge(aliases, d.hypotheses, a)
  {
    if |args| != 0 {
      var k := |args| - 1;
      ArgumentChallenges(aliases, d, args[..k]);
      ArgumentFrame(aliases, d, args[..k]);
      assert args == args[..k] + [args[k]];
      assert (exists a :: a in args && CountsAsChallenge(aliases, d.hypotheses, a)) <==>
        (exists a :: a in args[..k] && CountsAsChallenge(aliases, d.hypotheses, a)) || CountsAsChallenge(aliases, d.hypotheses, args[k]);
    }
  }

  lemma {:induction false} ArgumentReasonFacts(aliases: map<string, NodeId>, d: Draft, args: seq<Argument>)
    ensures AddArguments(aliases, d, args).reasons == d.reasons + ArgumentReasons(aliases, d.hypotheses, args)
  {
    if |args| != 0 {
      var k := |args| - 1;
      var a := args[k];
      ArgumentReasonFacts(aliases, d, args[..k]);
      ArgumentFrame(aliases, d, args[..k]);
      assert args == args[..k] + [a];
      CollectGrow((b: Argument) => ArgumentRejection(aliases, d.hypotheses, b), args[..k], a);
    }
  }

  /** The argument pass adds exactly the sum of what each argument contributes. */
  lemma {:induction false} ArgumentEdgeFacts(aliases: map<string, NodeId>, d: Draft, args: seq<Argument>)
    ensures AddArguments(aliases, d, args).edges ==
      d.edges + BagSum((a: Argument) => ArgumentEdges(aliases, d.hypotheses, a), args)
  {
    if |args| != 0 {
      var k := |args| - 1;
      ArgumentEdgeFacts(aliases, d, args[..k]);
      ArgumentFrame(aliases, d, args[..k]);
    }
  }

  lemma {:induction false} BagSumHas<A, B>(f: A -> multiset<B>, xs: seq<A>, x: A, y: B)
    requires x in xs && y in f(x)
    ensures y in BagSum(f, xs)
  {
    var k := |xs| - 1;
    if x != xs[k] {
      assert x in xs[..k];
      BagSumHas(f, xs[..k], x, y);
    }
  }

  lemma {:induction false} MissingCounts(aliases: map<string, NodeId>, ids: seq<string>, id: string)
    ensures MissingArtifacts(aliases, ids)[id] == if id in aliases then 0 else multiset(ids)[id]
  {
    if |ids| != 0 {
      MissingCounts(aliases, ids[..|ids| - 1], id);
      assert ids == ids[..|ids| - 1] + [ids[|ids| - 1]];
    }
  }

  lemma MissingIffUnknown(aliases: map<string, NodeId>, ids: seq<string>)
    ensures MissingArtifacts(aliases, ids) == multiset{} <==> forall id :: id in ids ==> id in aliases
  {
    forall id ensures id in MissingArtifacts(aliases, ids) <==> id in multiset(ids) && id !in aliases {
      MissingCounts(aliases, ids, id);
    }
    forall id ensures id in multiset(ids) <==> id in ids {}
  }

  /** A claim is admitted exactly when its scope is canonical and all its artifacts are known. */
  lemma AdmittedIff(aliases: map<string, NodeId>, c: Claim)
    ensures Admitted(aliases, c) <==>
      CanonicalScope(c.temporalScope) && forall id :: id in c.artifactIds ==> id in aliases
  {
    MissingIffUnknown(aliases, c.artifactIds);
  }

  // ----- revisions

  ghost function SupersedeRejection(
    existing: map<string, HypothesisSnapshot>, hypotheses: map<string, Node>, r: Revision): Option<Reason>
  {
    if r.action == Supersede then RevisionRejection(existing, hypotheses, r) else None
  }

  ghost function RevisionReasons(
    existing: map<string, HypothesisSnapshot>, hypotheses: map<string, Node>, rs: seq<Revision>): set<Reason>
  {
    Collect((r: Revision) => SupersedeRejection(existing, hypotheses, r), rs)
  }

  lemma {:induction false} RevisionFrame(existing: map<string, HypothesisSnapshot>, d: Draft, rs: seq<Revision>)
    ensures AddRevisions(existing, d, rs).hypotheses.Keys == d.hypotheses.Keys
    ensures AddRevisions(existing, d, rs).challenges == d.challenges
    ensures d.edges <= AddRevisions(existing, d, rs).edges
  {
    if |rs| != 0 {
      RevisionFrame(existing, d, rs[..|rs| - 1]);
    }
  }

  lemma RevisionReasonStep(existing: map<string, HypothesisSnapshot>, d: Draft, hypotheses: map<string, Node>, r: Revision)
    requires d.hypotheses.Keys == hypotheses.Keys
    ensures AddRevision(existing, d, r).reasons ==
      match SupersedeRejection(existing, hypotheses, r) case Some(reason) => d.reasons + {reason} case None => d.reasons
  {
  }

  lemma {:induction false} RevisionReasonFacts(existing: map<string, HypothesisSnapshot>, d: Draft, rs: seq<Revision>)
    ensures AddRevisions(existing, d, rs).reasons == d.reasons + RevisionReasons(existing, d.hypotheses, rs)
  {
    if |rs| != 0 {
      var init, r := rs[..|rs| - 1], rs[|rs| - 1];
      RevisionReasonFacts(existing, d, init);
      RevisionFrame(existing, d, init);
      assert rs == init + [r];
      CollectGrow((r: Revision) => SupersedeRejection(existing, d.hypotheses, r), init, r);
      RevisionReasonStep(existing, AddRevisions(existing, d, init), d.hypotheses, r);
    }
  }

  // ----- all together

  ghost function KnownHypotheses(p: Proposal, ctx: Context): set<string> {
    ExistingById(ctx.existing).Keys + AdmittedChallengerIds(ctx, ExistingById(ctx.existing), p.challengers)
  }

  lemma HypothesesInPlay(p: Proposal, ctx: Context)
    ensures ChallengedDraft(p, ctx).hypotheses.Keys == KnownHypotheses(p, ctx)
    ensures ArguedDraft(p, ctx).hypotheses == ChallengedDraft(p, ctx).hypotheses
    ensures ArguedDraft(p, ctx).nodes == ChallengedDraft(p, ctx).nodes
  {
    BaseHypothesisIds(p, ctx);
    ChallengerHypotheses(ctx, ProvenanceOf(p, ctx).id, ExistingById(ctx.existing), BaseDraft(p, ctx), p.challengers);
    ArgumentFrame(ClaimPart(p, ctx).aliases, ChallengedDraft(p, ctx), p.arguments);
  }

  /** The whole quarantine set: what each claim, challenger, argument and supersession is rejected for. */
  lemma QuarantineSet(p: Proposal, ctx: Context)
    ensures Canonical(p, ctx).reasons ==
      Rejections(EvidencePart(p, ctx).aliases, p.claims)
      + ChallengerReasons(ctx, ExistingById(ctx.existing), p.challengers)
      + ArgumentReasons(ClaimPart(p, ctx).aliases, ChallengedDraft(p, ctx).hypotheses, p.arguments)
      + RevisionReasons(ExistingById(ctx.existing), ChallengedDraft(p, ctx).hypotheses, p.revisions)
  {
    var prov, existing := ProvenanceOf(p, ctx).id, ExistingById(ctx.existing);
    CanonicalGraphIsClosed(p, ctx);
    ClaimReasons(prov, EvidencePart(p, ctx).aliases, p.claims);
    ChallengerReasonFacts(ctx, prov, existing, BaseDraft(p, ctx), p.challengers);
    ArgumentReasonFacts(ClaimPart(p, ctx).aliases, ChallengedDraft(p, ctx), p.arguments);
    HypothesesInPlay(p, ctx);
    RevisionReasonFacts(existing, ArguedDraft(p, ctx), p.revisions);
  }
}
