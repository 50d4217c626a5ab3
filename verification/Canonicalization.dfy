/** Turns a proposal into a canonical graph: nodes deduplicated by content key, edges between them, and the
    reasons why (part of) the proposal was quarantined.

    A node id is kept structured (its constructor is the id prefix, its fields the digested content). Edges are
    only ever appended and their id digests their whole content, so the edge list is held as a multiset; the
    quarantine list is only ever read as a set. */
module Canonicalization {
  import opened Prelude
  import opened Proposals

  datatype HypothesisSnapshot = HypothesisSnapshot(
    hypothesisId: string, title: string, statement: string, version: nat)

  datatype Context = Context(
    topic: string, run: string, proposalId: string,
    currentBest: Option<string>, existing: seq<HypothesisSnapshot>)

  datatype NodeId =
    | ProvenanceNode(proposalId: string)
    | EvidenceNode(kind: EvidenceKind, url: string)
    | ClaimNode(text: string, scope: string, artifacts: set<NodeId>)
    | HypothesisNode(hypothesisId: string, version: nat)

  datatype Properties =
    | ProvenanceProps(topic: string, run: string, summary: string, meta: ExecutionMeta)
    | EvidenceProps(sourceUrl: string, title: string, accessedAt: string, note: string)
    | ClaimProps(text: string, scope: string)
    | HypothesisProps(
        hypothesisId: string, title: string, statement: string, status: Option<ChallengerStatus>,
        version: nat, isCurrentBest: bool, supersedes: Option<string>)

  datatype Node = Node(id: NodeId, props: Properties)

  datatype EdgeKind = RecordedIn | DerivedFrom | Supports | Challenges | Supersedes
  datatype EdgeNote = NoNote | ArgumentNote(argumentId: string, rationale: string) | RationaleNote(rationale: string)
  datatype Edge = Edge(kind: EdgeKind, source: NodeId, target: NodeId, note: EdgeNote)

  datatype Reason =
    | EmptyScope(claimId: string)
    | UncanonicalScope(claimId: string, scope: string)
    | MissingEvidence(claimId: string, artifacts: multiset<string>)
    | NoCurrentBest(challengerId: string)
    | CurrentBestNotInContext(challengerId: string, currentBest: string)
    | UnknownTarget(argumentId: string, target: string)
    | MissingClaims(argumentId: string, claims: multiset<string>)
    | SupersedeWithoutPredecessor(hypothesisId: string)
    | StalePredecessor(hypothesisId: string, predecessor: string)
    | MissingSuperseding(hypothesisId: string)
    | DanglingSource(edge: Edge)
    | DanglingTarget(edge: Edge)

  datatype Result = Result(
    nodes: seq<Node>, edges: multiset<Edge>, reasons: set<Reason>,
    supportOnly: bool, evidenceOut: nat, claimsOut: nat)
  {
    predicate Quarantined() { reasons != {} }
  }

  function Ids(nodes: seq<Node>): set<NodeId> {
    set n | n in nodes :: n.id
  }

  function Recorded(id: NodeId, prov: NodeId): Edge {
    Edge(RecordedIn, id, prov, NoNote)
  }

  // ----- provenance and existing hypotheses

  function ProvenanceOf(p: Proposal, ctx: Context): Node {
    Node(ProvenanceNode(ctx.proposalId), ProvenanceProps(ctx.topic, ctx.run, p.summary, p.meta))
  }

  function SnapshotNode(h: HypothesisSnapshot, isBest: bool): Node {
    Node(HypothesisNode(h.hypothesisId, h.version),
         HypothesisProps(h.hypothesisId, h.title, h.statement, None, h.version, isBest, None))
  }

  function ExistingNodes(ctx: Context): seq<Node> {
    Map((h: HypothesisSnapshot) => SnapshotNode(h, ctx.currentBest == Some(h.hypothesisId)), ctx.existing)
  }

  /** Later snapshots of one hypothesis id win. */
  function ExistingById(hs: seq<HypothesisSnapshot>): map<string, HypothesisSnapshot> {
    if |hs| == 0 then map[] else
      var h := hs[|hs| - 1];
      ExistingById(hs[..|hs| - 1])[h.hypothesisId := h]
  }

  // ----- evidence: first candidate of a key makes the node, every artifact id becomes an alias

  function EvidenceIdOf(e: Evidence): NodeId {
    EvidenceNode(e.kind, Lower(Strip(e.sourceUrl)))
  }

  function EvidenceNodeOf(e: Evidence): Node {
    Node(EvidenceIdOf(e), EvidenceProps(e.sourceUrl, e.title, e.accessedAt, e.note))
  }

  datatype EvidenceIndex = EvidenceIndex(
    nodes: seq<Node>, edges: multiset<Edge>, byKey: map<NodeId, Node>, aliases: map<string, NodeId>)

  function AddEvidence(prov: NodeId, x: EvidenceIndex, e: Evidence): EvidenceIndex {
    var id := EvidenceIdOf(e);
    var aliases := x.aliases[e.artifactId := id];
    if id in x.byKey then x.(aliases := aliases) else
      EvidenceIndex(x.nodes + [EvidenceNodeOf(e)], x.edges + multiset{Recorded(id, prov)},
                    x.byKey[id := EvidenceNodeOf(e)], aliases)
  }

  function IndexEvidence(prov: NodeId, es: seq<Evidence>): EvidenceIndex {
    if |es| == 0 then EvidenceIndex([], multiset{}, map[], map[])
    else AddEvidence(prov, IndexEvidence(prov, es[..|es| - 1]), es[|es| - 1])
  }

  // ----- claims: rejected ones leave a reason, admitted ones are deduplicated by text, scope and lineage

  function ScopeOf(c: Claim): string {
    Lower(NormalizeText(c.temporalScope))
  }

  function MissingArtifacts(aliases: map<string, NodeId>, ids: seq<string>): multiset<string> {
    if |ids| == 0 then multiset{} else
      var id := ids[|ids| - 1];
      MissingArtifacts(aliases, ids[..|ids| - 1]) + (if id in aliases then multiset{} else multiset{id})
  }

  function FoundArtifacts(aliases: map<string, NodeId>, ids: seq<string>): set<NodeId> {
    set id | id in ids && id in aliases :: aliases[id]
  }

  function RejectionOf(aliases: map<string, NodeId>, c: Claim): Option<Reason> {
    if NormalizeText(c.temporalScope) == "" then Some(EmptyScope(c.claimId))
    else if !CanonicalScope(c.temporalScope) then Some(UncanonicalScope(c.claimId, c.temporalScope))
    else if MissingArtifacts(aliases, c.artifactIds) != multiset{} then
      Some(MissingEvidence(c.claimId, MissingArtifacts(aliases, c.artifactIds)))
    else None
  }

  function ClaimIdOfClaim(aliases: map<string, NodeId>, c: Claim): NodeId {
    ClaimNode(Lower(NormalizeText(c.text)), ScopeOf(c), FoundArtifacts(aliases, c.artifactIds))
  }

  function ClaimNodeOf(aliases: map<string, NodeId>, c: Claim): Node {
    Node(ClaimIdOfClaim(aliases, c), ClaimProps(NormalizeText(c.text), ScopeOf(c)))
  }

  /** The edges one claim node comes with; all distinct, and a function of the node id alone. */
  function ClaimEdges(id: NodeId, prov: NodeId): set<Edge>
    requires id.ClaimNode?
  {
    {Recorded(id, prov)} + set a | a in id.artifacts :: Edge(DerivedFrom, id, a, NoNote)
  }

  datatype ClaimIndex = ClaimIndex(
    nodes: seq<Node>, edges: multiset<Edge>, byKey: map<NodeId, Node>, aliases: map<string, NodeId>,
    reasons: set<Reason>)

  function AddClaim(prov: NodeId, aliases: map<string, NodeId>, x: ClaimIndex, c: Claim): ClaimIndex {
    match RejectionOf(aliases, c)
    case Some(reason) => x.(reasons := x.reasons + {reason})
    case None =>
      var id := ClaimIdOfClaim(aliases, c);
      var claimAliases := x.aliases[c.claimId := id];
      if id in x.byKey then x.(aliases := claimAliases) else
        ClaimIndex(x.nodes + [ClaimNodeOf(aliases, c)], x.edges + multiset(ClaimEdges(id, prov)),
                   x.byKey[id := ClaimNodeOf(aliases, c)], claimAliases, x.reasons)
  }

  function IndexClaims(prov: NodeId, aliases: map<string, NodeId>, cs: seq<Claim>): ClaimIndex {
    if |cs| == 0 then ClaimIndex([], multiset{}, map[], map[], {})
    else AddClaim(prov, aliases, IndexClaims(prov, aliases, cs[..|cs| - 1]), cs[|cs| - 1])
  }

  // ----- hypotheses: challengers, arguments and revisions work on one growing draft

  datatype Draft = Draft(
    nodes: seq<Node>, edges: multiset<Edge>, hypotheses: map<string, Node>, reasons: set<Reason>, challenges: nat)

  function HypothesisIndex(nodes: seq<Node>): map<string, Node> {
    if |nodes| == 0 then map[] else
      var n := nodes[|nodes| - 1];
      var m := HypothesisIndex(nodes[..|nodes| - 1]);
      if n.props.HypothesisProps? then m[n.props.hypothesisId := n] else m
  }

  function ReplaceNode(n: Node, m: Node): Node {
    if m.id == n.id then n else m
  }

  function ReplaceOrAppend(nodes: seq<Node>, n: Node): seq<Node> {
    if n.id in Ids(nodes) then Map((m: Node) => ReplaceNode(n, m), nodes) else nodes + [n]
  }

  function CandidateNode(existing: map<string, HypothesisSnapshot>, c: Challenger): Node {
    var version := if c.hypothesisId in existing then existing[c.hypothesisId].version else 1;
    Node(HypothesisNode(c.hypothesisId, version),
         HypothesisProps(c.hypothesisId, c.title, c.statement, Some(c.status), version, false, None))
  }

  function AddChallenger(ctx: Context, prov: NodeId, existing: map<string, HypothesisSnapshot>, d: Draft, c: Challenger)
    : Draft
  {
    match ctx.currentBest
    case None => d.(reasons := d.reasons + {NoCurrentBest(c.hypothesisId)})
    case Some(best) =>
      if best !in existing then d.(reasons := d.reasons + {CurrentBestNotInContext(c.hypothesisId, best)}) else
        var n := CandidateNode(existing, c);
        d.(nodes := ReplaceOrAppend(d.nodes, n),
           hypotheses := d.hypotheses[c.hypothesisId := n],
           edges := d.edges + ChallengerEdges(prov, existing[best], n))
  }

  function ChallengerEdges(prov: NodeId, best: HypothesisSnapshot, n: Node): multiset<Edge> {
    multiset{Recorded(n.id, prov),
             Edge(Challenges, n.id, HypothesisNode(best.hypothesisId, best.version), NoNote)}
  }

  function AddChallengers(
    ctx: Context, prov: NodeId, existing: map<string, HypothesisSnapshot>, d: Draft, cs: seq<Challenger>): Draft
  {
    if |cs| == 0 then d else
      AddChallenger(ctx, prov, existing, AddChallengers(ctx, prov, existing, d, cs[..|cs| - 1]), cs[|cs| - 1])
  }

  /** The elements of a sequence, each once, in order of first occurrence. */
  function Dedup(xs: seq<string>): (ys: seq<string>)
    ensures forall x :: x in ys <==> x in xs
    ensures forall i, j :: 0 <= i < j < |ys| ==> ys[i] != ys[j]
  {
    if |xs| == 0 then [] else
      var ys := Dedup(xs[..|xs| - 1]);
      assert xs == xs[..|xs| - 1] + [xs[|xs| - 1]];
      if xs[|xs| - 1] in ys then ys else ys + [xs[|xs| - 1]]
  }

  function MissingOf(aliases: map<string, NodeId>, ids: seq<string>): multiset<string> {
    MissingArtifacts(aliases, ids)
  }

  function ArgumentKind(a: Argument): EdgeKind {
    if a.stance.Support? then Supports else Challenges
  }

  /** One edge per distinct claim id, so ids that share a node repeat the edge. */
  function ClaimEdgesOf(aliases: map<string, NodeId>, a: Argument, target: NodeId, ids: seq<string>): multiset<Edge>
    requires forall id :: id in ids ==> id in aliases
  {
    if |ids| == 0 then multiset{} else
      ClaimEdgesOf(aliases, a, target, ids[..|ids| - 1])
      + multiset{Edge(ArgumentKind(a), aliases[ids[|ids| - 1]], target, ArgumentNote(a.argumentId, a.rationale))}
  }

  function ArgumentRejection(aliases: map<string, NodeId>, hypotheses: map<string, Node>, a: Argument): Option<Reason> {
    if a.target !in hypotheses then Some(UnknownTarget(a.argumentId, a.target))
    else if !(forall id | id in a.claimIds :: id in aliases) then
      Some(MissingClaims(a.argumentId, MissingOf(aliases, a.claimIds)))
    else None
  }

  function ArgumentEdges(aliases: map<string, NodeId>, hypotheses: map<string, Node>, a: Argument): multiset<Edge> {
    if ArgumentRejection(aliases, hypotheses, a).Some? then multiset{} else
      ClaimEdgesOf(aliases, a, hypotheses[a.target].id, Dedup(a.claimIds))
  }

  function AddArgument(aliases: map<string, NodeId>, d: Draft, a: Argument): Draft {
    match ArgumentRejection(aliases, d.hypotheses, a)
    case Some(reason) => d.(reasons := d.reasons + {reason})
    case None =>
      d.(edges := d.edges + ArgumentEdges(aliases, d.hypotheses, a),
         challenges := if a.stance.Challenge? then d.challenges + 1 else d.challenges)
  }

  function AddArguments(aliases: map<string, NodeId>, d: Draft, args: seq<Argument>): Draft {
    if |args| == 0 then d else AddArgument(aliases, AddArguments(aliases, d, args[..|args| - 1]), args[|args| - 1])
  }

  function RevisionRejection(existing: map<string, HypothesisSnapshot>, hypotheses: map<string, Node>, r: Revision)
    : Option<Reason>
  {
    match r.supersedes
    case None => Some(SupersedeWithoutPredecessor(r.hypothesisId))
    case Some(pred) =>
      if pred !in existing then Some(StalePredecessor(r.hypothesisId, pred))
      else if r.hypothesisId !in hypotheses then Some(MissingSuperseding(r.hypothesisId))
      else None
  }

  function VersionedNode(current: Node, r: Revision, version: nat): Node {
    var props := if current.props.HypothesisProps?
      then current.props.(hypothesisId := r.hypothesisId, version := version, supersedes := r.supersedes)
      else current.props;
    Node(HypothesisNode(r.hypothesisId, version), props)
  }

  function Superseded(d: Draft, r: Revision, n: Node, predecessor: NodeId): Draft {
    d.(nodes := ReplaceOrAppend(d.nodes, n),
       hypotheses := d.hypotheses[r.hypothesisId := n],
       edges := d.edges + multiset{Edge(EdgeKind.Supersedes, n.id, predecessor, RationaleNote(r.rationale))})
  }

  function AddRevision(existing: map<string, HypothesisSnapshot>, d: Draft, r: Revision): Draft {
    if r.action != Supersede then d else
      match RevisionRejection(existing, d.hypotheses, r)
      case Some(reason) => d.(reasons := d.reasons + {reason})
      case None =>
        var version := existing[r.supersedes.value].version;
        Superseded(d, r, VersionedNode(d.hypotheses[r.hypothesisId], r, version + 1),
                   HypothesisNode(r.supersedes.value, version))
  }

  function AddRevisions(existing: map<string, HypothesisSnapshot>, d: Draft, rs: seq<Revision>): Draft {
    if |rs| == 0 then d else AddRevision(existing, AddRevisions(existing, d, rs[..|rs| - 1]), rs[|rs| - 1])
  }

  // ----- the whole pass

  function EdgeIntegrityReasons(nodes: seq<Node>, edges: multiset<Edge>): set<Reason> {
    (set e | e in edges && e.source !in Ids(nodes) :: DanglingSource(e))
    + (set e | e in edges && e.target !in Ids(nodes) :: DanglingTarget(e))
  }

  function EvidencePart(p: Proposal, ctx: Context): EvidenceIndex {
    IndexEvidence(ProvenanceOf(p, ctx).id, p.evidence)
  }

  function ClaimPart(p: Proposal, ctx: Context): ClaimIndex {
    IndexClaims(ProvenanceOf(p, ctx).id, EvidencePart(p, ctx).aliases, p.claims)
  }

  function BaseDraft(p: Proposal, ctx: Context): Draft {
    var ev, cl := EvidencePart(p, ctx), ClaimPart(p, ctx);
    var nodes := [ProvenanceOf(p, ctx)] + ExistingNodes(ctx) + ev.nodes + cl.nodes;
    Draft(nodes, ev.edges + cl.edges, HypothesisIndex(nodes), cl.reasons, 0)
  }

  function ChallengedDraft(p: Proposal, ctx: Context): Draft {
    AddChallengers(ctx, ProvenanceOf(p, ctx).id, ExistingById(ctx.existing), BaseDraft(p, ctx), p.challengers)
  }

  function ArguedDraft(p: Proposal, ctx: Context): Draft {
    AddArguments(ClaimPart(p, ctx).aliases, ChallengedDraft(p, ctx), p.arguments)
  }

  function FinalDraft(p: Proposal, ctx: Context): Draft {
    AddRevisions(ExistingById(ctx.existing), ArguedDraft(p, ctx), p.revisions)
  }

  function Canonical(p: Proposal, ctx: Context): Result {
    var d := FinalDraft(p, ctx);
    Result(d.nodes, d.edges, d.reasons + EdgeIntegrityReasons(d.nodes, d.edges),
           p.arguments != [] && d.challenges == 0,
           |EvidencePart(p, ctx).byKey|, |ClaimPart(p, ctx).byKey|)
  }
}
