/** Exactly when each quarantine reason is given, read off the proposal and its context alone. */
module CanonicalQuarantine {
  import opened Prelude
  import opened Proposals
  import opened Canonicalization
  import opened CanonicalFacts
  import opened CanonicalReasons
  import opened Pipeline
  import opened CanonicalEdges

  /** The ids of a list that stand for no node, as often as they are listed. */
  ghost predicate Lacks(ids: seq<string>, missing: multiset<string>, resolve: string -> Option<NodeId>) {
    missing != multiset{} && forall id :: missing[id] == if resolve(id) == None then multiset(ids)[id] else 0
  }

  ghost function EvidenceOf(p: Proposal): string -> Option<NodeId> {
    id => LastEvidence(p.evidence, id)
  }

  ghost function ClaimOf(p: Proposal): string -> Option<NodeId> {
    id => LastClaim(p.evidence, p.claims, id)
  }

  ghost predicate ClaimDue(p: Proposal, c: Claim, reason: Reason) {
    match reason
    case EmptyScope(id) => id == c.claimId && NormalizeText(c.temporalScope) == ""
    case UncanonicalScope(id, scope) =>
      id == c.claimId && scope == c.temporalScope && NormalizeText(scope) != "" && !CanonicalScope(scope)
    case MissingEvidence(id, missing) =>
      id == c.claimId && CanonicalScope(c.temporalScope) && Lacks(c.artifactIds, missing, EvidenceOf(p))
    case _ => false
  }

  ghost predicate ChallengerDue(ctx: Context, c: Challenger, reason: Reason) {
    match reason
    case NoCurrentBest(id) => id == c.hypothesisId && ctx.currentBest == None
    case CurrentBestNotInContext(id, best) =>
      id == c.hypothesisId && ctx.currentBest == Some(best) && !InContext(ctx.existing, best)
    case _ => false
  }

  ghost predicate ArgumentDue(p: Proposal, ctx: Context, a: Argument, reason: Reason) {
    match reason
    case UnknownTarget(id, target) => id == a.argumentId && target == a.target && !InPlay(p, ctx, target)
    case MissingClaims(id, missing) =>
      id == a.argumentId && InPlay(p, ctx, a.target) && Lacks(a.claimIds, missing, ClaimOf(p))
    case _ => false
  }

  ghost predicate RevisionDue(p: Proposal, ctx: Context, r: Revision, reason: Reason) {
    && r.action == Supersede
    && match reason
       case SupersedeWithoutPredecessor(h) => h == r.hypothesisId && r.supersedes == None
       case StalePredecessor(h, pred) =>
         h == r.hypothesisId && r.supersedes == Some(pred) && !InContext(ctx.existing, pred)
       case MissingSuperseding(h) =>
         h == r.hypothesisId && r.supersedes.Some? && InContext(ctx.existing, r.supersedes.value) && !InPlay(p, ctx, h)
       case _ => false
  }

  ghost predicate Due(p: Proposal, ctx: Context, reason: Reason) {
    || (exists c :: c in p.claims && ClaimDue(p, c, reason))
    || (exists c :: c in p.challengers && ChallengerDue(ctx, c, reason))
    || (exists a :: a in p.arguments && ArgumentDue(p, ctx, a, reason))
    || (exists r :: r in p.revisions && RevisionDue(p, ctx, r, reason))
  }

  lemma MissingRead(aliases: map<string, NodeId>, resolve: string -> Option<NodeId>, ids: seq<string>, missing: multiset<string>)
    requires forall id :: Lookup(aliases, id) == resolve(id)
    ensures missing == MissingArtifacts(aliases, ids) && missing != multiset{} <==> Lacks(ids, missing, resolve)
  {
    forall id ensures MissingArtifacts(aliases, ids)[id] == if resolve(id) == None then multiset(ids)[id] else 0 {
      MissingCounts(aliases, ids, id);
      assert Lookup(aliases, id) == resolve(id);
    }
    if Lacks(ids, missing, resolve) {
      assert forall id :: missing[id] == MissingArtifacts(aliases, ids)[id];
    }
  }

  lemma ClaimReasonRead(p: Proposal, ctx: Context, c: Claim, reason: Reason)
    ensures RejectionOf(EvidencePart(p, ctx).aliases, c) == Some(reason) <==> ClaimDue(p, c, reason)
  {
    var aliases := EvidencePart(p, ctx).aliases;
    PartReads(p, ctx);
    assert forall id :: Lookup(aliases, id) == EvidenceOf(p)(id);
    if reason.MissingEvidence? { MissingRead(aliases, EvidenceOf(p), c.artifactIds, reason.artifacts); }
    EmptyIsNotCanonical(c.temporalScope);
  }

  lemma EmptyIsNotCanonical(scope: string)
    ensures CanonicalScope(scope) ==> NormalizeText(scope) != ""
  {
  }

  lemma ChallengerReasonRead(ctx: Context, c: Challenger, reason: Reason)
    ensures ChallengerRejection(ctx, ExistingById(ctx.existing), c) == Some(reason) <==> ChallengerDue(ctx, c, reason)
  {
    if ctx.currentBest.Some? { ContextRead(ctx.existing, ctx.currentBest.value); }
  }

  lemma MissingIffListed(p: Proposal, ctx: Context, ids: seq<string>)
    ensures (forall id | id in ids :: id in ClaimPart(p, ctx).aliases) <==> MissingOf(ClaimPart(p, ctx).aliases, ids) == multiset{}
  {
    MissingIffUnknown(ClaimPart(p, ctx).aliases, ids);
  }

  lemma ArgumentReasonRead(p: Proposal, ctx: Context, a: Argument, reason: Reason)
    ensures ArgumentRejection(ClaimPart(p, ctx).aliases, ChallengedDraft(p, ctx).hypotheses, a) == Some(reason)
      <==> ArgumentDue(p, ctx, a, reason)
  {
    InPlayRead(p, ctx, a.target);
    MissingIffListed(p, ctx, a.claimIds);
    forall id ensures Lookup(ClaimPart(p, ctx).aliases, id) == ClaimOf(p)(id) { CitedRead(p, ctx, id); }
    if reason.MissingClaims? { MissingRead(ClaimPart(p, ctx).aliases, ClaimOf(p), a.claimIds, reason.claims); }
  }

  lemma RevisionReasonRead(p: Proposal, ctx: Context, r: Revision, reason: Reason)
    ensures SupersedeRejection(ExistingById(ctx.existing), ChallengedDraft(p, ctx).hypotheses, r) == Some(reason)
      <==> RevisionDue(p, ctx, r, reason)
  {
    InPlayRead(p, ctx, r.hypothesisId);
    if r.supersedes.Some? { ContextRead(ctx.existing, r.supersedes.value); }
  }

  lemma CollectIs<A, B>(f: A -> Option<B>, due: A -> bool, xs: seq<A>, y: B)
    requires forall x :: x in xs ==> (f(x) == Some(y) <==> due(x))
    ensures y in Collect(f, xs) <==> exists x :: x in xs && due(x)
  {
    if x :| x in xs && due(x) { CollectHas(f, xs, x); }
  }

  lemma ClaimsDue(p: Proposal, ctx: Context, reason: Reason)
    ensures reason in Rejections(EvidencePart(p, ctx).aliases, p.claims) <==> exists c :: c in p.claims && ClaimDue(p, c, reason)
  {
    forall c { ClaimReasonRead(p, ctx, c, reason); }
    CollectIs((c: Claim) => RejectionOf(EvidencePart(p, ctx).aliases, c), (c: Claim) => ClaimDue(p, c, reason), p.claims, reason);
  }

  lemma ChallengersDue(p: Proposal, ctx: Context, reason: Reason)
    ensures reason in ChallengerReasons(ctx, ExistingById(ctx.existing), p.challengers)
      <==> exists c :: c in p.challengers && ChallengerDue(ctx, c, reason)
  {
    forall c { ChallengerReasonRead(ctx, c, reason); }
    CollectIs((c: Challenger) => ChallengerRejection(ctx, ExistingById(ctx.existing), c),
              (c: Challenger) => ChallengerDue(ctx, c, reason), p.challengers, reason);
  }

  lemma ArgumentsDue(p: Proposal, ctx: Context, reason: Reason)
    ensures reason in ArgumentReasons(ClaimPart(p, ctx).aliases, ChallengedDraft(p, ctx).hypotheses, p.arguments)
      <==> exists a :: a in p.arguments && ArgumentDue(p, ctx, a, reason)
  {
    forall a { ArgumentReasonRead(p, ctx, a, reason); }
    CollectIs((a: Argument) => ArgumentRejection(ClaimPart(p, ctx).aliases, ChallengedDraft(p, ctx).hypotheses, a),
              (a: Argument) => ArgumentDue(p, ctx, a, reason), p.arguments, reason);
  }

  lemma RevisionsDue(p: Proposal, ctx: Context, reason: Reason)
    ensures reason in RevisionReasons(ExistingById(ctx.existing), ChallengedDraft(p, ctx).hypotheses, p.revisions)
      <==> exists r :: r in p.revisions && RevisionDue(p, ctx, r, reason)
  {
    forall r { RevisionReasonRead(p, ctx, r, reason); }
    CollectIs((r: Revision) => SupersedeRejection(ExistingById(ctx.existing), ChallengedDraft(p, ctx).hypotheses, r),
              (r: Revision) => RevisionDue(p, ctx, r, reason), p.revisions, reason);
  }

  /** For every proposal, context and reason: the reason is given exactly when it is due. */
  lemma ReasonsAreDue(p: Proposal, ctx: Context, reason: Reason)
    ensures reason in Canonical(p, ctx).reasons <==> Due(p, ctx, reason)
  {
    QuarantineSet(p, ctx);
    ClaimsDue(p, ctx, reason);
    ChallengersDue(p, ctx, reason);
    ArgumentsDue(p, ctx, reason);
    RevisionsDue(p, ctx, reason);
  }

  // ----- the review flag and the counts

  lemma ArgumentCounts(p: Proposal, ctx: Context, a: Argument)
    ensures CountsAsChallenge(ClaimPart(p, ctx).aliases, ChallengedDraft(p, ctx).hypotheses, a)
      <==> a.stance == Challenge && CanBeDrawn(p, ctx, a)
  {
    RejectionRead(p, ctx, a);
  }

  /** The support-only flag is raised exactly when there are arguments and none of the drawn ones challenges. */
  lemma SupportOnlyIff(p: Proposal, ctx: Context)
    ensures Canonical(p, ctx).supportOnly <==>
      p.arguments != [] && !exists a :: a in p.arguments && a.stance == Challenge && CanBeDrawn(p, ctx, a)
  {
    var aliases, d := ClaimPart(p, ctx).aliases, ChallengedDraft(p, ctx);
    ChallengesStartAtZero(p, ctx);
    ArgumentChallenges(aliases, d, p.arguments);
    RevisionFrame(ExistingById(ctx.existing), ArguedDraft(p, ctx), p.revisions);
    forall a { ArgumentCounts(p, ctx, a); }
  }

  /** The deduplication counts are the numbers of distinct evidence keys and of distinct claim nodes. */
  lemma CountsAreKeys(p: Proposal, ctx: Context)
    ensures Canonical(p, ctx).evidenceOut == |set e | e in p.evidence :: EvidenceNode(e.kind, Lower(Strip(e.sourceUrl)))|
    ensures Canonical(p, ctx).claimsOut ==
      |set c | c in p.claims && NodeOfClaim(p.evidence, c).Some? :: NodeOfClaim(p.evidence, c).value|
  {
    var prov, aliases := ProvenanceOf(p, ctx).id, EvidencePart(p, ctx).aliases;
    EvidenceFacts(prov, p.evidence);
    assert EvidenceIds(p.evidence) == set e | e in p.evidence :: EvidenceNode(e.kind, Lower(Strip(e.sourceUrl)));
    ClaimFacts(prov, aliases, p.claims);
    forall id { ClaimIdsRead(p, ctx, id); }
    assert AdmittedIds(aliases, p.claims) ==
      set c | c in p.claims && NodeOfClaim(p.evidence, c).Some? :: NodeOfClaim(p.evidence, c).value;
    assert |EvidencePart(p, ctx).byKey| == |EvidencePart(p, ctx).byKey.Keys|;
    assert |ClaimPart(p, ctx).byKey| == |ClaimPart(p, ctx).byKey.Keys|;
  }
}
