/** The semantic layer of final-output validation. */
module Validator {
  import opened Prelude
  import opened Proposals

  datatype Violation =
    | DuplicateArtifacts(ids: set<string>)
    | DuplicateClaims(ids: set<string>)
    | DuplicateChallengers(ids: set<string>)
    | ScopeNotCanonical(index: nat)
    | UnknownArtifacts(index: nat, missing: set<string>)
    | UnknownClaims(index: nat, missing: set<string>)
    | UnknownArgumentTarget(index: nat, target: string)
    | SupersedeWithoutPredecessor(index: nat)
    | UnknownRevisionHypothesis(index: nat, hypothesisId: string)
    | UnknownPredecessor(index: nat, predecessor: string)
    | LostToCompaction(omitted: set<string>)
  {
    predicate Repairable() {
      ScopeNotCanonical? || SupersedeWithoutPredecessor?
    }
  }

  function Elements(xs: seq<string>): set<string> {
    set x | x in xs
  }

  /** The hypotheses a proposal may talk about: the snapshot's current best and the proposal's own challengers. */
  function Known(p: Proposal, s: Snapshot): set<string> {
    CurrentBestIds(s) + ChallengerIds(p)
  }

  ghost predicate Repeated(x: string, xs: seq<string>) {
    exists i, j :: 0 <= i < j < |xs| && xs[i] == x && xs[j] == x
  }

  ghost predicate IsRepeated(ids: set<string>, xs: seq<string>) {
    ids != {} && forall x :: x in ids <==> Repeated(x, xs)
  }

  /** When a violation is due, kind by kind. */
  ghost predicate Violates(p: Proposal, s: Snapshot, retained: Option<set<string>>, v: Violation) {
    match v
    case DuplicateArtifacts(ids) => IsRepeated(ids, Map(ArtifactIdOf, p.evidence))
    case DuplicateClaims(ids) => IsRepeated(ids, Map(ClaimIdOf, p.claims))
    case DuplicateChallengers(ids) => IsRepeated(ids, Map(ChallengerIdOf, p.challengers))
    case ScopeNotCanonical(i) => i < |p.claims| && !CanonicalScope(p.claims[i].temporalScope)
    case UnknownArtifacts(i, missing) =>
      i < |p.claims| && missing != {} && missing == Elements(p.claims[i].artifactIds) - ArtifactIds(p)
    case UnknownClaims(i, missing) =>
      i < |p.arguments| && missing != {} && missing == Elements(p.arguments[i].claimIds) - ClaimIds(p)
    case UnknownArgumentTarget(i, target) =>
      i < |p.arguments| && target == p.arguments[i].target && target !in Known(p, s)
    case SupersedeWithoutPredecessor(i) =>
      i < |p.revisions| && p.revisions[i].action == Supersede && p.revisions[i].supersedes == None
    case UnknownRevisionHypothesis(i, id) =>
      i < |p.revisions| && id == p.revisions[i].hypothesisId && id !in Known(p, s)
    case UnknownPredecessor(i, pred) =>
      i < |p.revisions| && p.revisions[i].supersedes == Some(pred) && pred !in Known(p, s)
    case LostToCompaction(omitted) =>
      retained.Some? && omitted != {} && omitted == ArtifactIds(p) - retained.value
  }

  /** A proposal nothing is wrong with, said in terms of its references. */
  ghost predicate Accepted(p: Proposal, s: Snapshot, retained: Option<set<string>>) {
    && ReferencesHold(p, s, retained)
    && (forall c :: c in p.claims ==> CanonicalScope(c.temporalScope))
    && (forall r :: r in p.revisions && r.action == Supersede ==> r.supersedes.Some?)
  }

  /** Ids are distinct and every reference resolves: the part of acceptance no repair prompt is offered for. */
  ghost predicate ReferencesHold(p: Proposal, s: Snapshot, retained: Option<set<string>>) {
    && Distinct(Map(ArtifactIdOf, p.evidence))
    && Distinct(Map(ClaimIdOf, p.claims))
    && Distinct(Map(ChallengerIdOf, p.challengers))
    && (forall c :: c in p.claims ==> Elements(c.artifactIds) <= ArtifactIds(p))
    && (forall a :: a in p.arguments ==> Elements(a.claimIds) <= ClaimIds(p) && a.target in Known(p, s))
    && (forall r :: r in p.revisions ==>
          r.hypothesisId in Known(p, s) && (r.supersedes.Some? ==> r.supersedes.value in Known(p, s)))
    && (retained.Some? ==> ArtifactIds(p) <= retained.value)
  }

  /** The ids a list uses more than once. */
  method DuplicateIds(values: seq<string>) returns (duplicates: set<string>)
    ensures forall x :: x in duplicates <==> Repeated(x, values)
  {
    var seen: set<string> := {};
    duplicates := {};
    for i := 0 to |values|
      invariant forall x :: x in seen <==> exists k :: 0 <= k < i && values[k] == x
      invariant forall x :: x in duplicates <==> Repeated(x, values[..i])
    {
      ghost var before := duplicates;
      assert values[..i + 1] == values[..i] + [values[i]];
      if values[i] in seen {
        duplicates := duplicates + {values[i]};
      }
      seen := seen + {values[i]};
      forall x ensures x in duplicates <==> Repeated(x, values[..i + 1]) {
        RepeatedGrow(values[..i], values[i], x);
        assert values[i] in values[..i] <==> exists k :: 0 <= k < i && values[k] == values[i];
      }
    }
    assert values[..|values|] == values;
  }

  lemma RepeatedGrow(xs: seq<string>, y: string, x: string)
    ensures Repeated(x, xs + [y]) <==> Repeated(x, xs) || (x == y && y in xs)
  {
    var ys := xs + [y];
    if Repeated(x, ys) {
      var i, j :| 0 <= i < j < |ys| && ys[i] == x && ys[j] == x;
      assert j < |xs| ==> xs[i] == x && xs[j] == x;
      assert j == |xs| ==> xs[i] == x;
    }
    if Repeated(x, xs) {
      var i, j :| 0 <= i < j < |xs| && xs[i] == x && xs[j] == x;
      assert ys[i] == x && ys[j] == x;
    }
    if x == y && y in xs {
      var i :| 0 <= i < |xs| && xs[i] == y;
      assert ys[i] == x && ys[|xs|] == x;
    }
  }

  /** Validation reports exactly the violations that are due. */
  method SemanticViolations(p: Proposal, s: Snapshot, retained: Option<set<string>>) returns (found: seq<Violation>)
    ensures forall v :: v in found <==> Violates(p, s, retained, v)
  {
    var duplicateParts := DuplicateViolations(p);
    var claimParts := ClaimViolations(p, s);
    var argumentParts := ArgumentViolations(p, s);
    var revisionParts := RevisionViolations(p, s);
    found := duplicateParts + claimParts + argumentParts + revisionParts;
    if retained.Some? {
      var omitted := ArtifactIds(p) - retained.value;
      if omitted != {} {
        found := found + [LostToCompaction(omitted)];
      }
    }
    forall v ensures v in found <==> Violates(p, s, retained, v) {
      assert v.DuplicateArtifacts? || v.DuplicateClaims? || v.DuplicateChallengers? ==>
        (v in found <==> v in duplicateParts);
    }
  }

  method DuplicateViolations(p: Proposal) returns (found: seq<Violation>)
    ensures forall v :: v in found ==> v.DuplicateArtifacts? || v.DuplicateClaims? || v.DuplicateChallengers?
    ensures forall ids :: DuplicateArtifacts(ids) in found <==> IsRepeated(ids, Map(ArtifactIdOf, p.evidence))
    ensures forall ids :: DuplicateClaims(ids) in found <==> IsRepeated(ids, Map(ClaimIdOf, p.claims))
    ensures forall ids :: DuplicateChallengers(ids) in found <==> IsRepeated(ids, Map(ChallengerIdOf, p.challengers))
  {
    var artifacts := DuplicateIds(Map(ArtifactIdOf, p.evidence));
    var claims := DuplicateIds(Map(ClaimIdOf, p.claims));
    var challengers := DuplicateIds(Map(ChallengerIdOf, p.challengers));
    assert forall ids :: IsRepeated(ids, Map(ArtifactIdOf, p.evidence)) <==> ids != {} && ids == artifacts;
    assert forall ids :: IsRepeated(ids, Map(ClaimIdOf, p.claims)) <==> ids != {} && ids == claims;
    assert forall ids :: IsRepeated(ids, Map(ChallengerIdOf, p.challengers)) <==> ids != {} && ids == challengers;
    found :=
      (if artifacts == {} then [] else [DuplicateArtifacts(artifacts)])
      + (if claims == {} then [] else [DuplicateClaims(claims)])
      + (if challengers == {} then [] else [DuplicateChallengers(challengers)]);
  }

  ghost predicate ClaimViolation(p: Proposal, s: Snapshot, n: nat, v: Violation) {
    (v.ScopeNotCanonical? || v.UnknownArtifacts?) && v.index < n && Violates(p, s, None, v)
  }

  method ClaimViolations(p: Proposal, ghost s: Snapshot) returns (found: seq<Violation>)
    ensures forall v :: v in found <==> ClaimViolation(p, s, |p.claims|, v)
  {
    found := [];
    for i := 0 to |p.claims|
      invariant forall v :: v in found <==> ClaimViolation(p, s, i, v)
    {
      if !CanonicalScope(p.claims[i].temporalScope) {
        found := found + [ScopeNotCanonical(i)];
      }
      var missing := Elements(p.claims[i].artifactIds) - ArtifactIds(p);
      if missing != {} {
        found := found + [UnknownArtifacts(i, missing)];
      }
    }
  }

  ghost predicate ArgumentViolation(p: Proposal, s: Snapshot, n: nat, v: Violation) {
    (v.UnknownClaims? || v.UnknownArgumentTarget?) && v.index < n && Violates(p, s, None, v)
  }

  method ArgumentViolations(p: Proposal, s: Snapshot) returns (found: seq<Violation>)
    ensures forall v :: v in found <==> ArgumentViolation(p, s, |p.arguments|, v)
  {
    found := [];
    for i := 0 to |p.arguments|
      invariant forall v :: v in found <==> ArgumentViolation(p, s, i, v)
    {
      var missing := Elements(p.arguments[i].claimIds) - ClaimIds(p);
      if missing != {} {
        found := found + [UnknownClaims(i, missing)];
      }
      if p.arguments[i].target !in Known(p, s) {
        found := found + [UnknownArgumentTarget(i, p.arguments[i].target)];
      }
    }
  }

  ghost predicate RevisionViolation(p: Proposal, s: Snapshot, n: nat, v: Violation) {
    && (v.SupersedeWithoutPredecessor? || v.UnknownRevisionHypothesis? || v.UnknownPredecessor?)
    && v.index < n && Violates(p, s, None, v)
  }

  method RevisionViolations(p: Proposal, s: Snapshot) returns (found: seq<Violation>)
    ensures forall v :: v in found <==> RevisionViolation(p, s, |p.revisions|, v)
  {
    found := [];
    for i := 0 to |p.revisions|
      invariant forall v :: v in found <==> RevisionViolation(p, s, i, v)
    {
      var r := p.revisions[i];
      if r.action == Supersede && r.supersedes == None {
        found := found + [SupersedeWithoutPredecessor(i)];
      }
      if r.hypothesisId !in Known(p, s) {
        found := found + [UnknownRevisionHypothesis(i, r.hypothesisId)];
      }
      if r.supersedes.Some? && r.supersedes.value !in Known(p, s) {
        found := found + [UnknownPredecessor(i, r.supersedes.value)];
      }
    }
  }

  lemma DistinctIffNoneRepeated(xs: seq<string>)
    ensures Distinct(xs) <==> !exists ids :: IsRepeated(ids, xs)
  {
    var ids := set x | x in xs && Repeated(x, xs);
    assert forall x :: Repeated(x, xs) ==> x in xs;
    if !Distinct(xs) {
      var i, j :| 0 <= i < j < |xs| && xs[i] == xs[j];
      assert Repeated(xs[i], xs);
      assert xs[i] in ids;
      assert IsRepeated(ids, xs);
    }
    if r :| IsRepeated(r, xs) {
      var x :| x in r;
    }
  }

  /** Every violation due is of a repairable kind exactly when ids are distinct and references resolve. */
  lemma RepairableIffReferencesHold(p: Proposal, s: Snapshot, retained: Option<set<string>>)
    ensures (forall v :: Violates(p, s, retained, v) ==> v.Repairable()) <==> ReferencesHold(p, s, retained)
  {
    DistinctIffNoneRepeated(Map(ArtifactIdOf, p.evidence));
    DistinctIffNoneRepeated(Map(ClaimIdOf, p.claims));
    DistinctIffNoneRepeated(Map(ChallengerIdOf, p.challengers));
    if forall v :: Violates(p, s, retained, v) ==> v.Repairable() {
      forall ids ensures !IsRepeated(ids, Map(ArtifactIdOf, p.evidence)) {
        assert !Violates(p, s, retained, DuplicateArtifacts(ids));
      }
      forall ids ensures !IsRepeated(ids, Map(ClaimIdOf, p.claims)) {
        assert !Violates(p, s, retained, DuplicateClaims(ids));
      }
      forall ids ensures !IsRepeated(ids, Map(ChallengerIdOf, p.challengers)) {
        assert !Violates(p, s, retained, DuplicateChallengers(ids));
      }
      ReferencesHoldWithoutViolations(p, s, retained);
    }
  }

  lemma EmptyDifference(a: set<string>, b: set<string>)
    requires a - b == {}
    ensures a <= b
  {
    forall x | x in a ensures x in b {
      assert x !in a - b;
    }
  }

  lemma ReferencesHoldWithoutViolations(p: Proposal, s: Snapshot, retained: Option<set<string>>)
    requires forall v :: Violates(p, s, retained, v) ==> v.Repairable()
    ensures forall c :: c in p.claims ==> Elements(c.artifactIds) <= ArtifactIds(p)
    ensures forall a :: a in p.arguments ==> Elements(a.claimIds) <= ClaimIds(p) && a.target in Known(p, s)
    ensures forall r :: r in p.revisions ==>
      r.hypothesisId in Known(p, s) && (r.supersedes.Some? ==> r.supersedes.value in Known(p, s))
    ensures retained.Some? ==> ArtifactIds(p) <= retained.value
  {
    forall c | c in p.claims ensures Elements(c.artifactIds) <= ArtifactIds(p) {
      var i :| 0 <= i < |p.claims| && p.claims[i] == c;
      assert !Violates(p, s, retained, UnknownArtifacts(i, Elements(c.artifactIds) - ArtifactIds(p)));
      EmptyDifference(Elements(c.artifactIds), ArtifactIds(p));
    }
    forall a | a in p.arguments ensures Elements(a.claimIds) <= ClaimIds(p) && a.target in Known(p, s) {
      var i :| 0 <= i < |p.arguments| && p.arguments[i] == a;
      assert !Violates(p, s, retained, UnknownClaims(i, Elements(a.claimIds) - ClaimIds(p)));
      EmptyDifference(Elements(a.claimIds), ClaimIds(p));
      assert !Violates(p, s, retained, UnknownArgumentTarget(i, a.target));
    }
    forall r | r in p.revisions
      ensures r.hypothesisId in Known(p, s) && (r.supersedes.Some? ==> r.supersedes.value in Known(p, s))
    {
      var i :| 0 <= i < |p.revisions| && p.revisions[i] == r;
      assert !Violates(p, s, retained, UnknownRevisionHypothesis(i, r.hypothesisId));
      if r.supersedes.Some? {
        assert !Violates(p, s, retained, UnknownPredecessor(i, r.supersedes.value));
      }
    }
    if retained.Some? {
      assert !Violates(p, s, retained, LostToCompaction(ArtifactIds(p) - retained.value));
      EmptyDifference(ArtifactIds(p), retained.value);
    }
  }

  /** Nothing is reported exactly when the proposal is accepted. */
  lemma NoViolationIffAccepted(p: Proposal, s: Snapshot, retained: Option<set<string>>)
    ensures (forall v :: !Violates(p, s, retained, v)) <==> Accepted(p, s, retained)
  {
    RepairableIffReferencesHold(p, s, retained);
    if forall v :: !Violates(p, s, retained, v) {
      forall c | c in p.claims ensures CanonicalScope(c.temporalScope) {
        var i :| 0 <= i < |p.claims| && p.claims[i] == c;
        assert !Violates(p, s, retained, ScopeNotCanonical(i));
      }
      forall r | r in p.revisions && r.action == Supersede ensures r.supersedes.Some? {
        var i :| 0 <= i < |p.revisions| && p.revisions[i] == r;
        assert !Violates(p, s, retained, SupersedeWithoutPredecessor(i));
      }
    }
  }
}
