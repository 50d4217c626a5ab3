/** The proposal bundle a run produces, the snapshot it was asked to attack, and the text rules both
    the validator and the canonicalizer apply to it. */
module Proposals {
  import opened Prelude

  datatype EvidenceKind = WebPage | WebResult | InternalNote
  datatype Stance = Support | Challenge
  datatype ChallengerStatus = Proposed | CarriedForward
  datatype ConflictStatus = Unresolved | Reconciled | Escalated
  datatype RevisionAction = Strengthen | Weaken | Retire | Supersede

  datatype Evidence = Evidence(
    artifactId: string, kind: EvidenceKind, sourceUrl: string, title: string, accessedAt: string, note: string)
  datatype Claim = Claim(claimId: string, text: string, artifactIds: seq<string>, temporalScope: string)
  datatype Argument = Argument(
    argumentId: string, stance: Stance, target: string, claimIds: seq<string>, rationale: string)
  datatype Challenger = Challenger(hypothesisId: string, title: string, statement: string, status: ChallengerStatus)
  datatype ConflictAssessment = ConflictAssessment(conflictId: string, status: ConflictStatus)
  datatype Revision = Revision(
    hypothesisId: string, action: RevisionAction, rationale: string, supersedes: Option<string>)
  datatype ExecutionMeta = ExecutionMeta(turnCount: nat, toolCallCount: nat, repairAttempts: nat)

  datatype Proposal = Proposal(
    summary: string,
    evidence: seq<Evidence>,
    claims: seq<Claim>,
    arguments: seq<Argument>,
    challengers: seq<Challenger>,
    conflicts: seq<ConflictAssessment>,
    revisions: seq<Revision>,
    meta: ExecutionMeta)

  datatype HypothesisRef = HypothesisRef(hypothesisId: string, title: string, summary: string)

  /** The part of a topic snapshot that proposals are judged against. */
  datatype Snapshot = Snapshot(
    topic: string, version: nat, currentBest: seq<HypothesisRef>, targets: seq<HypothesisRef>,
    activeConflicts: seq<string>, digest: string)

  /** The list fields the contract declares non-empty: claims cite evidence and arguments cite claims. */
  ghost predicate WellFormed(p: Proposal) {
    && (forall c :: c in p.claims ==> c.artifactIds != [])
    && (forall a :: a in p.arguments ==> a.claimIds != [])
  }

  const ArtifactIdOf: Evidence -> string := (e: Evidence) => e.artifactId
  const ClaimIdOf: Claim -> string := (c: Claim) => c.claimId
  const ChallengerIdOf: Challenger -> string := (c: Challenger) => c.hypothesisId
  const RefIdOf: HypothesisRef -> string := (h: HypothesisRef) => h.hypothesisId

  function ArtifactIds(p: Proposal): set<string> {
    set e | e in p.evidence :: e.artifactId
  }

  function ClaimIds(p: Proposal): set<string> {
    set c | c in p.claims :: c.claimId
  }

  function ChallengerIds(p: Proposal): set<string> {
    set c | c in p.challengers :: c.hypothesisId
  }

  function CurrentBestIds(s: Snapshot): set<string> {
    set h | h in s.currentBest :: h.hypothesisId
  }

  function TargetIds(s: Snapshot): set<string> {
    set h | h in s.targets :: h.hypothesisId
  }

  /** The ids the snapshot lists, and so the only hypotheses the services hand to the canonicalizer. */
  function AttackFrontier(s: Snapshot): set<string> {
    CurrentBestIds(s) + TargetIds(s)
  }

  // ----- text rules (ASCII letters and whitespace)

  predicate IsSpace(c: char) {
    c == ' ' || '\t' <= c <= '\r' || '\U{1C}' <= c <= '\U{1F}'
  }

  predicate IsDigit(c: char) {
    '0' <= c <= '9'
  }

  predicate IsWordChar(c: char) {
    IsDigit(c) || 'a' <= c <= 'z' || 'A' <= c <= 'Z' || c == '_'
  }

  function LowerChar(c: char): char {
    if 'A' <= c <= 'Z' then c + ' ' else c
  }

  function Lower(s: string): string {
    Map((c: char) => LowerChar(c), s)
  }

  /** The maximal runs of non-space characters, in order; pending is the run being read. */
  function Words(s: string, pending: string := ""): seq<string> {
    var flushed := if pending == "" then [] else [pending];
    if s == "" then flushed
    else if IsSpace(s[0]) then flushed + Words(s[1..], "")
    else Words(s[1..], pending + [s[0]])
  }

  function JoinWords(ws: seq<string>): string {
    if ws == [] then "" else if |ws| == 1 then ws[0] else ws[0] + " " + JoinWords(ws[1..])
  }

  function NormalizeText(s: string): string {
    JoinWords(Words(s))
  }

  function TrimLeft(s: string): string {
    if s != "" && IsSpace(s[0]) then TrimLeft(s[1..]) else s
  }

  function TrimRight(s: string): string {
    if s != "" && IsSpace(s[|s| - 1]) then TrimRight(s[..|s| - 1]) else s
  }

  function Strip(s: string): string {
    TrimRight(TrimLeft(s))
  }

  predicate WordAt(s: string, i: nat, w: string) {
    && i + |w| <= |s|
    && Lower(s[i..i + |w|]) == w
    && (i == 0 || !IsWordChar(s[i - 1]))
    && (i + |w| == |s| || !IsWordChar(s[i + |w|]))
  }

  predicate YearAt(s: string, i: nat) {
    i + 4 <= |s| && IsDigit(s[i]) && IsDigit(s[i + 1]) && IsDigit(s[i + 2]) && IsDigit(s[i + 3])
  }

  /** The temporal-scope pattern: four digits (which every ISO date starts with) or one of four marker words. */
  predicate HasTemporalMarker(s: string) {
    exists i | 0 <= i < |s| ::
      YearAt(s, i) || WordAt(s, i, "onward") || WordAt(s, i, "as of") || WordAt(s, i, "current") || WordAt(s, i, "ongoing")
  }

  predicate CanonicalScope(scope: string) {
    HasTemporalMarker(NormalizeText(scope))
  }
}
