/** The competition rules a proposal must meet before its run may leave CODEX_EXECUTING. */
module Competition {
  import opened Prelude
  import opened Proposals

  /** What the orchestrator asks of a proposal; the intent builder sets all four flags. */
  datatype Frontier = Frontier(
    snapshot: Snapshot, requiresAttack: bool, requiresChallenger: bool, requiresPressure: bool, collectsBoth: bool)

  datatype CompetitionError =
    | UndeclaredClaims(ids: set<string>)
    | UndeclaredArtifacts(ids: set<string>)
    | CurrentBestNotChallenged
    | CurrentBestNotSupported
    | NoChallenger
    | NoRevisionPressure

  function FullFrontier(s: Snapshot): Frontier {
    Frontier(s, true, true, true, true)
  }

  /** Later claims of one id win. */
  function ClaimsById(cs: seq<Claim>): map<string, Claim> {
    if |cs| == 0 then map[] else ClaimsById(cs[..|cs| - 1])[cs[|cs| - 1].claimId := cs[|cs| - 1]]
  }

  predicate OnFrontier(s: Snapshot, a: Argument) {
    a.target in AttackFrontier(s)
  }

  function UnknownClaimIds(s: Snapshot, p: Proposal): set<string> {
    set a, id | a in p.arguments && OnFrontier(s, a) && id in a.claimIds && id !in ClaimIds(p) :: id
  }

  function UnknownArtifactIds(s: Snapshot, p: Proposal): set<string> {
    var byId := ClaimsById(p.claims);
    set a, id, artifact | a in p.arguments && OnFrontier(s, a) && id in a.claimIds && id in byId
      && artifact in byId[id].artifactIds && artifact !in ArtifactIds(p) :: artifact
  }

  function ArguedBestIds(s: Snapshot, p: Proposal, stance: Stance): set<string> {
    set a | a in p.arguments && a.stance == stance && a.target in CurrentBestIds(s) :: a.target
  }

  predicate TargetsFrontier(s: Snapshot, r: Revision) {
    match r.action
    case Weaken => r.hypothesisId in AttackFrontier(s)
    case Retire => r.hypothesisId in AttackFrontier(s)
    case Supersede =>
      r.hypothesisId in AttackFrontier(s) || (r.supersedes.Some? && r.supersedes.value in AttackFrontier(s))
    case Strengthen => false
  }

  predicate Reconciles(s: Snapshot, c: ConflictAssessment) {
    c.status in {Reconciled, Escalated} && c.conflictId in s.activeConflicts
  }

  function CompetitionVerdict(f: Frontier, p: Proposal): Option<CompetitionError> {
    var s := f.snapshot;
    if UnknownClaimIds(s, p) != {} then Some(UndeclaredClaims(UnknownClaimIds(s, p)))
    else if UnknownArtifactIds(s, p) != {} then Some(UndeclaredArtifacts(UnknownArtifactIds(s, p)))
    else if f.requiresAttack && ArguedBestIds(s, p, Challenge) != CurrentBestIds(s) then Some(CurrentBestNotChallenged)
    else if f.collectsBoth && ArguedBestIds(s, p, Support) != CurrentBestIds(s) then Some(CurrentBestNotSupported)
    else if f.requiresChallenger && p.challengers == [] then Some(NoChallenger)
    else if f.requiresPressure
         && !(exists c | c in p.conflicts :: Reconciles(s, c))
         && !(exists r | r in p.revisions :: TargetsFrontier(s, r)) then Some(NoRevisionPressure)
    else None
  }

  ghost predicate Argued(p: Proposal, h: string, stance: Stance) {
    exists a :: a in p.arguments && a.target == h && a.stance == stance
  }

  /** The hypotheses a proposal is asked to attack: the current best and the challengers the snapshot lists. */
  ghost predicate Listed(s: Snapshot, h: string) {
    exists ref :: (ref in s.currentBest || ref in s.targets) && ref.hypothesisId == h
  }

  ghost predicate Declares(p: Proposal, id: string, c: Claim) {
    exists i :: 0 <= i < |p.claims| && c == p.claims[i] && c.claimId == id && forall j :: i < j < |p.claims| ==> p.claims[j].claimId != id
  }

  ghost predicate HasArtifact(p: Proposal, id: string) {
    exists e :: e in p.evidence && e.artifactId == id
  }

  ghost predicate CitesArtifacts(p: Proposal, c: Claim) {
    forall x :: x in c.artifactIds ==> HasArtifact(p, x)
  }

  /** Every claim an argument about a listed hypothesis cites is declared, and its (last) declaration cites only declared
      evidence. */
  ghost predicate Grounded(s: Snapshot, p: Proposal) {
    forall a, id :: a in p.arguments && Listed(s, a.target) && id in a.claimIds ==> exists c :: Declares(p, id, c) && CitesArtifacts(p, c)
  }

  ghost predicate Presses(s: Snapshot, r: Revision) {
    || ((r.action == Weaken || r.action == Retire) && Listed(s, r.hypothesisId))
    || (r.action == Supersede && (Listed(s, r.hypothesisId) || exists h :: r.supersedes == Some(h) && Listed(s, h)))
  }

  ghost predicate Settles(s: Snapshot, c: ConflictAssessment) {
    c.conflictId in s.activeConflicts && (c.status == Reconciled || c.status == Escalated)
  }

  /** A listed hypothesis is weakened, retired or one end of a supersession, or an active conflict is reconciled or
      escalated. */
  ghost predicate PressuresFrontier(s: Snapshot, p: Proposal) {
    (exists r :: r in p.revisions && Presses(s, r)) || (exists c :: c in p.conflicts && Settles(s, c))
  }

  lemma ListedIff(s: Snapshot, h: string)
    ensures h in AttackFrontier(s) <==> Listed(s, h)
  {
  }

  lemma PressureIff(s: Snapshot, p: Proposal)
    ensures PressuresFrontier(s, p) <==>
      (exists c :: c in p.conflicts && Reconciles(s, c)) || (exists r :: r in p.revisions && TargetsFrontier(s, r))
  {
    forall h { ListedIff(s, h); }
    forall r ensures Presses(s, r) <==> TargetsFrontier(s, r) {}
    forall c ensures Settles(s, c) <==> Reconciles(s, c) {}
  }

  lemma {:induction false} LastDeclared(cs: seq<Claim>, id: string)
    requires id in ClaimsById(cs)
    ensures exists i ::
      0 <= i < |cs| && ClaimsById(cs)[id] == cs[i] && cs[i].claimId == id && forall j :: i < j < |cs| ==> cs[j].claimId != id
  {
    var k := |cs| - 1;
    if cs[k].claimId == id {
      assert ClaimsById(cs)[id] == cs[k];
    } else {
      LastDeclared(cs[..k], id);
      var i :| 0 <= i < k && ClaimsById(cs)[id] == cs[..k][i] && cs[i].claimId == id && forall j :: i < j < k ==> cs[..k][j].claimId != id;
      forall j | i < j < |cs| ensures cs[j].claimId != id { assert j < k ==> cs[..k][j] == cs[j]; }
    }
  }

  lemma DeclaresRead(p: Proposal, id: string, c: Claim)
    ensures Declares(p, id, c) <==> id in ClaimsById(p.claims) && ClaimsById(p.claims)[id] == c
  {
    ClaimsByIdFacts(p.claims);
    if id in ClaimsById(p.claims) { LastDeclared(p.claims, id); }
  }

  lemma {:induction false} ClaimsByIdFacts(cs: seq<Claim>)
    ensures forall id :: id in ClaimsById(cs) <==> exists c :: c in cs && c.claimId == id
    ensures forall id :: id in ClaimsById(cs) ==> ClaimsById(cs)[id] in cs && ClaimsById(cs)[id].claimId == id
  {
    if |cs| != 0 {
      ClaimsByIdFacts(cs[..|cs| - 1]);
      assert cs == cs[..|cs| - 1] + [cs[|cs| - 1]];
    }
  }

  lemma ClaimsByIdDeclared(p: Proposal, id: string)
    ensures id in ClaimsById(p.claims) <==> id in ClaimIds(p)
  {
    ClaimsByIdFacts(p.claims);
  }

  lemma GroundedIsKnown(s: Snapshot, p: Proposal)
    requires Grounded(s, p)
    ensures UnknownClaimIds(s, p) == {} && UnknownArtifactIds(s, p) == {}
  {
    forall a, id | a in p.arguments && OnFrontier(s, a) && id in a.claimIds
      ensures id in ClaimIds(p) && id in ClaimsById(p.claims) && CitesArtifacts(p, ClaimsById(p.claims)[id])
    {
      ListedIff(s, a.target);
      var c :| Declares(p, id, c) && CitesArtifacts(p, c);
      DeclaresRead(p, id, c);
      ClaimsByIdDeclared(p, id);
    }
    forall x ensures HasArtifact(p, x) <==> x in ArtifactIds(p) {}
  }

  lemma ArtifactIsKnown(s: Snapshot, p: Proposal, a: Argument, id: string, x: string)
    requires UnknownArtifactIds(s, p) == {} && a in p.arguments && OnFrontier(s, a) && id in a.claimIds
    requires id in ClaimsById(p.claims) && x in ClaimsById(p.claims)[id].artifactIds
    ensures HasArtifact(p, x)
  {
    assert x !in ArtifactIds(p) ==> x in UnknownArtifactIds(s, p);
  }

  lemma KnownIsGrounded(s: Snapshot, p: Proposal)
    requires UnknownClaimIds(s, p) == {} && UnknownArtifactIds(s, p) == {}
    ensures Grounded(s, p)
  {
    forall a, id | a in p.arguments && Listed(s, a.target) && id in a.claimIds ensures exists c :: Declares(p, id, c) && CitesArtifacts(p, c) {
      ListedIff(s, a.target);
      assert id !in ClaimIds(p) ==> id in UnknownClaimIds(s, p);
      ClaimsByIdDeclared(p, id);
      var c := ClaimsById(p.claims)[id];
      DeclaresRead(p, id, c);
      forall x | x in c.artifactIds ensures HasArtifact(p, x) { ArtifactIsKnown(s, p, a, id, x); }
    }
  }

  lemma GroundedIff(s: Snapshot, p: Proposal)
    ensures Grounded(s, p) <==> UnknownClaimIds(s, p) == {} && UnknownArtifactIds(s, p) == {}
  {
    if Grounded(s, p) { GroundedIsKnown(s, p); }
    if UnknownClaimIds(s, p) == {} && UnknownArtifactIds(s, p) == {} { KnownIsGrounded(s, p); }
  }

  lemma ArguedIff(s: Snapshot, p: Proposal, stance: Stance)
    ensures ArguedBestIds(s, p, stance) == CurrentBestIds(s) <==> forall h :: h in CurrentBestIds(s) ==> Argued(p, h, stance)
  {
    if ArguedBestIds(s, p, stance) == CurrentBestIds(s) {
      forall h | h in CurrentBestIds(s) ensures Argued(p, h, stance) {
        assert h in ArguedBestIds(s, p, stance);
      }
    }
  }

  /** Acceptance under the full frontier, said without the order of the checks: cited claims are grounded, every
      current best is both supported and challenged, there is a challenger, and something presses on the frontier. */
  lemma CompetitionAcceptsIff(s: Snapshot, p: Proposal)
    ensures CompetitionVerdict(FullFrontier(s), p) == None <==>
      && Grounded(s, p)
      && (forall h :: h in CurrentBestIds(s) ==> Argued(p, h, Support) && Argued(p, h, Challenge))
      && p.challengers != []
      && PressuresFrontier(s, p)
  {
    GroundedIff(s, p);
    ArguedIff(s, p, Support);
    ArguedIff(s, p, Challenge);
    PressureIff(s, p);
  }

  ghost predicate ArguedThroughout(s: Snapshot, p: Proposal, stance: Stance) {
    forall h :: h in CurrentBestIds(s) ==> Argued(p, h, stance)
  }

  ghost predicate CitedOnFrontier(s: Snapshot, p: Proposal, id: string) {
    exists a :: a in p.arguments && Listed(s, a.target) && id in a.claimIds
  }

  /** A claim cited on the frontier cites an artifact that is not declared. */
  ghost predicate Lacking(s: Snapshot, p: Proposal, id: string, c: Claim, x: string) {
    CitedOnFrontier(s, p, id) && Declares(p, id, c) && x in c.artifactIds && !HasArtifact(p, x)
  }

  /** What a proposal is refused for; of several reasons the first of this list is given. */
  ghost predicate RefusedFor(s: Snapshot, p: Proposal, e: CompetitionError) {
    match e
    case UndeclaredClaims(ids) =>
      ids != {} && forall id :: id in ids <==> CitedOnFrontier(s, p, id) && !exists c :: Declares(p, id, c)
    case UndeclaredArtifacts(ids) =>
      && (forall id :: CitedOnFrontier(s, p, id) ==> exists c :: Declares(p, id, c)) && ids != {}
      && forall x :: x in ids <==> exists id, c :: Lacking(s, p, id, c, x)
    case CurrentBestNotChallenged => Grounded(s, p) && !ArguedThroughout(s, p, Challenge)
    case CurrentBestNotSupported => Grounded(s, p) && ArguedThroughout(s, p, Challenge) && !ArguedThroughout(s, p, Support)
    case NoChallenger =>
      Grounded(s, p) && ArguedThroughout(s, p, Challenge) && ArguedThroughout(s, p, Support) && p.challengers == []
    case NoRevisionPressure =>
      && Grounded(s, p) && ArguedThroughout(s, p, Challenge) && ArguedThroughout(s, p, Support) && p.challengers != []
      && !PressuresFrontier(s, p)
  }

  lemma UnknownClaimRead(s: Snapshot, p: Proposal, id: string)
    ensures id in UnknownClaimIds(s, p) <==> CitedOnFrontier(s, p, id) && !exists c :: Declares(p, id, c)
  {
    ClaimsByIdDeclared(p, id);
    forall c { DeclaresRead(p, id, c); }
    forall h { ListedIff(s, h); }
    if id in ClaimsById(p.claims) { assert Declares(p, id, ClaimsById(p.claims)[id]); }
  }

  lemma LackingIsUnknown(s: Snapshot, p: Proposal, id: string, c: Claim, x: string)
    requires Lacking(s, p, id, c, x)
    ensures x in UnknownArtifactIds(s, p)
  {
    var a :| a in p.arguments && Listed(s, a.target) && id in a.claimIds;
    ListedIff(s, a.target);
    DeclaresRead(p, id, c);
    assert x !in ArtifactIds(p);
  }

  lemma UnknownArtifactRead(s: Snapshot, p: Proposal, x: string)
    ensures x in UnknownArtifactIds(s, p) <==> exists id, c :: Lacking(s, p, id, c, x)
  {
    forall id, c | Lacking(s, p, id, c, x) ensures x in UnknownArtifactIds(s, p) { LackingIsUnknown(s, p, id, c, x); }
    if x in UnknownArtifactIds(s, p) {
      var a, id :| a in p.arguments && OnFrontier(s, a) && id in a.claimIds && id in ClaimsById(p.claims)
        && x in ClaimsById(p.claims)[id].artifactIds && x !in ArtifactIds(p);
      ListedIff(s, a.target);
      DeclaresRead(p, id, ClaimsById(p.claims)[id]);
      assert Lacking(s, p, id, ClaimsById(p.claims)[id], x);
    }
  }

  lemma AllClaimsDeclared(s: Snapshot, p: Proposal)
    ensures UnknownClaimIds(s, p) == {} <==> forall id :: CitedOnFrontier(s, p, id) ==> exists c :: Declares(p, id, c)
  {
    forall id { UnknownClaimRead(s, p, id); }
  }

  lemma UngroundedFor(s: Snapshot, p: Proposal, e: CompetitionError)
    requires e.UndeclaredClaims? || e.UndeclaredArtifacts?
    ensures CompetitionVerdict(FullFrontier(s), p) == Some(e) <==> RefusedFor(s, p, e)
  {
    forall id { UnknownClaimRead(s, p, id); }
    forall x { UnknownArtifactRead(s, p, x); }
    AllClaimsDeclared(s, p);
    match e
    case UndeclaredClaims(ids) => assert RefusedFor(s, p, e) ==> ids == UnknownClaimIds(s, p);
    case UndeclaredArtifacts(ids) => assert RefusedFor(s, p, e) ==> ids == UnknownArtifactIds(s, p);
  }

  /** Each refusal is given exactly when it is due. */
  lemma RefusedIff(s: Snapshot, p: Proposal, e: CompetitionError)
    ensures CompetitionVerdict(FullFrontier(s), p) == Some(e) <==> RefusedFor(s, p, e)
  {
    if e.UndeclaredClaims? || e.UndeclaredArtifacts? {
      UngroundedFor(s, p, e);
    } else {
      GroundedIff(s, p);
      ArguedIff(s, p, Support);
      ArguedIff(s, p, Challenge);
      PressureIff(s, p);
    }
  }

  /** Strengthening presses on nothing: revisions that only strengthen are refused unless an active conflict is settled,
      whatever else the proposal says. */
  lemma StrengtheningIsNoPressure(s: Snapshot, p: Proposal)
    requires forall r :: r in p.revisions ==> r.action == Strengthen
    requires forall c :: c in p.conflicts && c.conflictId in s.activeConflicts ==> c.status == Unresolved
    ensures CompetitionVerdict(FullFrontier(s), p).Some?
  {
    CompetitionAcceptsIff(s, p);
  }
}
