/** The canonicalization pass as it runs: loops that grow node lists, edge lists, alias tables and reasons in place. */
module Canonicalizer {
  import opened Prelude
  import opened Proposals
  import opened Canonicalization

  method Canonicalize(p: Proposal, ctx: Context) returns (r: Result)
    ensures r == Canonical(p, ctx)
  {
    var prov := ProvenanceOf(p, ctx);
    var existing := IndexExisting(ctx.existing);
    var evNodes, evEdges, evByKey, evAliases := CollectEvidence(prov.id, p.evidence);
    var clNodes, clEdges, clByKey, clAliases, reasons := CollectClaims(prov.id, evAliases, p.claims);
    var nodes := [prov] + ExistingNodes(ctx) + evNodes + clNodes;
    var edges := evEdges + clEdges;
    var hypotheses := IndexHypotheses(nodes);
    nodes, edges, hypotheses, reasons := ApplyChallengers(p, ctx, prov.id, existing, nodes, edges, hypotheses, reasons);
    var challenges;
    edges, reasons, challenges := ApplyArguments(p, ctx, clAliases, nodes, edges, hypotheses, reasons);
    nodes, edges, reasons := ApplyRevisions(p, ctx, existing, nodes, edges, hypotheses, reasons, challenges);
    reasons := reasons + EdgeIntegrityReasons(nodes, edges);
    r := Result(nodes, edges, reasons, p.arguments != [] && challenges == 0, |evByKey|, |clByKey|);
  }

  method IndexExisting(hs: seq<HypothesisSnapshot>) returns (byId: map<string, HypothesisSnapshot>)
    ensures byId == ExistingById(hs)
  {
    byId := map[];
    for i := 0 to |hs|
      invariant byId == ExistingById(hs[..i])
    {
      assert hs[..i + 1][..i] == hs[..i];
      byId := byId[hs[i].hypothesisId := hs[i]];
    }
    assert hs[..|hs|] == hs;
  }

  method CollectEvidence(prov: NodeId, es: seq<Evidence>)
    returns (nodes: seq<Node>, edges: multiset<Edge>, byKey: map<NodeId, Node>, aliases: map<string, NodeId>)
    ensures EvidenceIndex(nodes, edges, byKey, aliases) == IndexEvidence(prov, es)
  {
    nodes, edges, byKey, aliases := [], multiset{}, map[], map[];
    for i := 0 to |es|
      invariant EvidenceIndex(nodes, edges, byKey, aliases) == IndexEvidence(prov, es[..i])
    {
      assert es[..i + 1][..i] == es[..i];
      var key := EvidenceIdOf(es[i]);
      if key !in byKey {
        var node := EvidenceNodeOf(es[i]);
        byKey := byKey[key := node];
        nodes := nodes + [node];
        edges := edges + multiset{Recorded(key, prov)};
      }
      aliases := aliases[es[i].artifactId := key];
    }
    assert es[..|es|] == es;
  }

  /** Splits the cited artifacts of one claim into canonical evidence and missing ids. */
  method ResolveArtifacts(aliases: map<string, NodeId>, ids: seq<string>)
    returns (found: set<NodeId>, missing: multiset<string>)
    ensures found == FoundArtifacts(aliases, ids) && missing == MissingArtifacts(aliases, ids)
  {
    found, missing := {}, multiset{};
    for i := 0 to |ids|
      invariant found == FoundArtifacts(aliases, ids[..i]) && missing == MissingArtifacts(aliases, ids[..i])
    {
      assert ids[..i + 1][..i] == ids[..i] && ids[..i + 1] == ids[..i] + [ids[i]];
      if ids[i] in aliases {
        found := found + {aliases[ids[i]]};
      } else {
        missing := missing + multiset{ids[i]};
      }
      assert found == FoundArtifacts(aliases, ids[..i + 1]);
    }
    assert ids[..|ids|] == ids;
  }

  method CollectClaims(prov: NodeId, evidence: map<string, NodeId>, cs: seq<Claim>)
    returns (nodes: seq<Node>, edges: multiset<Edge>, byKey: map<NodeId, Node>, aliases: map<string, NodeId>,
             reasons: set<Reason>)
    ensures ClaimIndex(nodes, edges, byKey, aliases, reasons) == IndexClaims(prov, evidence, cs)
  {
    nodes, edges, byKey, aliases, reasons := [], multiset{}, map[], map[], {};
    for i := 0 to |cs|
      invariant ClaimIndex(nodes, edges, byKey, aliases, reasons) == IndexClaims(prov, evidence, cs[..i])
    {
      assert cs[..i + 1][..i] == cs[..i];
      var c := cs[i];
      var scope := NormalizeText(c.temporalScope);
      if scope == "" {
        reasons := reasons + {EmptyScope(c.claimId)};
        continue;
      }
      if !HasTemporalMarker(scope) {
        reasons := reasons + {UncanonicalScope(c.claimId, c.temporalScope)};
        continue;
      }
      var found, missing := ResolveArtifacts(evidence, c.artifactIds);
      if missing != multiset{} {
        reasons := reasons + {MissingEvidence(c.claimId, missing)};
        continue;
      }
      var key := ClaimNode(Lower(NormalizeText(c.text)), Lower(scope), found);
      if key !in byKey {
        var node := Node(key, ClaimProps(NormalizeText(c.text), Lower(scope)));
        byKey := byKey[key := node];
        nodes := nodes + [node];
        edges := edges + multiset(ClaimEdges(key, prov));
      }
      aliases := aliases[c.claimId := key];
    }
    assert cs[..|cs|] == cs;
  }

  method IndexHypotheses(nodes: seq<Node>) returns (byId: map<string, Node>)
    ensures byId == HypothesisIndex(nodes)
  {
    byId := map[];
    for i := 0 to |nodes|
      invariant byId == HypothesisIndex(nodes[..i])
    {
      assert nodes[..i + 1][..i] == nodes[..i];
      if nodes[i].props.HypothesisProps? {
        byId := byId[nodes[i].props.hypothesisId := nodes[i]];
      }
    }
    assert nodes[..|nodes|] == nodes;
  }

  method ReplaceOrAppendNode(nodes: seq<Node>, n: Node) returns (updated: seq<Node>)
    ensures updated == ReplaceOrAppend(nodes, n)
  {
    var replaced := false;
    updated := [];
    for i := 0 to |nodes|
      invariant |updated| == i && forall k :: 0 <= k < i ==> updated[k] == ReplaceNode(n, nodes[k])
      invariant replaced <==> exists k :: 0 <= k < i && nodes[k].id == n.id
    {
      if nodes[i].id == n.id {
        updated := updated + [n];
        replaced := true;
      } else {
        updated := updated + [nodes[i]];
      }
    }
    if !replaced {
      assert updated == nodes;
      updated := updated + [n];
    }
  }

  method ApplyChallengers(
    p: Proposal, ctx: Context, prov: NodeId, existing: map<string, HypothesisSnapshot>,
    nodes0: seq<Node>, edges0: multiset<Edge>, hypotheses0: map<string, Node>, reasons0: set<Reason>)
    returns (nodes: seq<Node>, edges: multiset<Edge>, hypotheses: map<string, Node>, reasons: set<Reason>)
    ensures Draft(nodes, edges, hypotheses, reasons, 0) ==
      AddChallengers(ctx, prov, existing, Draft(nodes0, edges0, hypotheses0, reasons0, 0), p.challengers)
  {
    nodes, edges, hypotheses, reasons := nodes0, edges0, hypotheses0, reasons0;
    ghost var d := Draft(nodes0, edges0, hypotheses0, reasons0, 0);
    for i := 0 to |p.challengers|
      invariant Draft(nodes, edges, hypotheses, reasons, 0) == AddChallengers(ctx, prov, existing, d, p.challengers[..i])
    {
      assert p.challengers[..i + 1][..i] == p.challengers[..i];
      var c := p.challengers[i];
      if ctx.currentBest == None {
        reasons := reasons + {NoCurrentBest(c.hypothesisId)};
        continue;
      }
      var best := ctx.currentBest.value;
      if best !in existing {
        reasons := reasons + {CurrentBestNotInContext(c.hypothesisId, best)};
        continue;
      }
      var node := CandidateNode(existing, c);
      hypotheses := hypotheses[c.hypothesisId := node];
      nodes := ReplaceOrAppendNode(nodes, node);
      edges := edges + multiset{
        Recorded(node.id, prov),
        Edge(Challenges, node.id, HypothesisNode(existing[best].hypothesisId, existing[best].version), NoNote)};
    }
    assert p.challengers[..|p.challengers|] == p.challengers;
  }

  /** The edges of one admitted argument, one for each distinct claim id. */
  method DrawArgument(aliases: map<string, NodeId>, a: Argument, target: NodeId) returns (edges: multiset<Edge>)
    requires forall id :: id in a.claimIds ==> id in aliases
    ensures edges == ClaimEdgesOf(aliases, a, target, Dedup(a.claimIds))
  {
    edges := multiset{};
    var ids := Dedup(a.claimIds);
    for i := 0 to |ids|
      invariant edges == ClaimEdgesOf(aliases, a, target, ids[..i])
    {
      assert ids[..i + 1][..i] == ids[..i];
      var kind := if a.stance == Support then Supports else Challenges;
      edges := edges + multiset{Edge(kind, aliases[ids[i]], target, ArgumentNote(a.argumentId, a.rationale))};
    }
    assert ids[..|ids|] == ids;
  }

  method CheckArgument(a: Argument, aliases: map<string, NodeId>, hypotheses: map<string, Node>) returns (reason: Option<Reason>)
    ensures reason == ArgumentRejection(aliases, hypotheses, a)
  {
    if a.target !in hypotheses {
      return Some(UnknownTarget(a.argumentId, a.target));
    }
    if !(forall id | id in a.claimIds :: id in aliases) {
      return Some(MissingClaims(a.argumentId, MissingOf(aliases, a.claimIds)));
    }
    reason := None;
  }

  method ApplyArgument(a: Argument, aliases: map<string, NodeId>, d: Draft) returns (e: Draft)
    ensures e == AddArgument(aliases, d, a)
  {
    var reason := CheckArgument(a, aliases, d.hypotheses);
    if reason.Some? {
      return d.(reasons := d.reasons + {reason.value});
    }
    var drawn := DrawArgument(aliases, a, d.hypotheses[a.target].id);
    e := d.(edges := d.edges + drawn, challenges := if a.stance == Challenge then d.challenges + 1 else d.challenges);
  }

  method ApplyArguments(
    p: Proposal, ctx: Context, aliases: map<string, NodeId>,
    nodes: seq<Node>, edges0: multiset<Edge>, hypotheses: map<string, Node>, reasons0: set<Reason>)
    returns (edges: multiset<Edge>, reasons: set<Reason>, challenges: nat)
    ensures Draft(nodes, edges, hypotheses, reasons, challenges) ==
      AddArguments(aliases, Draft(nodes, edges0, hypotheses, reasons0, 0), p.arguments)
  {
    var base := Draft(nodes, edges0, hypotheses, reasons0, 0);
    var d := base;
    for i := 0 to |p.arguments|
      invariant d == AddArguments(aliases, base, p.arguments[..i])
    {
      assert p.arguments[..i + 1][..i] == p.arguments[..i];
      d := ApplyArgument(p.arguments[i], aliases, d);
    }
    assert p.arguments[..|p.arguments|] == p.arguments;
    ArgumentsOnlyDraw(aliases, base, p.arguments);
    edges, reasons, challenges := d.edges, d.reasons, d.challenges;
  }

  lemma {:induction false} ArgumentsOnlyDraw(aliases: map<string, NodeId>, d: Draft, args: seq<Argument>)
    ensures AddArguments(aliases, d, args).nodes == d.nodes && AddArguments(aliases, d, args).hypotheses == d.hypotheses
  {
    if |args| > 0 { ArgumentsOnlyDraw(aliases, d, args[..|args| - 1]); }
  }

  method ApplyRevisions(
    p: Proposal, ctx: Context, existing: map<string, HypothesisSnapshot>,
    nodes0: seq<Node>, edges0: multiset<Edge>, hypotheses0: map<string, Node>, reasons0: set<Reason>, challenges: nat)
    returns (nodes: seq<Node>, edges: multiset<Edge>, reasons: set<Reason>)
    ensures var d := AddRevisions(existing, Draft(nodes0, edges0, hypotheses0, reasons0, challenges), p.revisions);
      nodes == d.nodes && edges == d.edges && reasons == d.reasons && challenges == d.challenges
  {
    var hypotheses := hypotheses0;
    nodes, edges, reasons := nodes0, edges0, reasons0;
    ghost var d := Draft(nodes0, edges0, hypotheses0, reasons0, challenges);
    for i := 0 to |p.revisions|
      invariant Draft(nodes, edges, hypotheses, reasons, challenges) == AddRevisions(existing, d, p.revisions[..i])
    {
      assert p.revisions[..i + 1][..i] == p.revisions[..i];
      var r := p.revisions[i];
      if r.action != Supersede {
        continue;
      }
      if r.supersedes == None {
        reasons := reasons + {SupersedeWithoutPredecessor(r.hypothesisId)};
        continue;
      }
      if r.supersedes.value !in existing {
        reasons := reasons + {StalePredecessor(r.hypothesisId, r.supersedes.value)};
        continue;
      }
      if r.hypothesisId !in hypotheses {
        reasons := reasons + {MissingSuperseding(r.hypothesisId)};
        continue;
      }
      var version := existing[r.supersedes.value].version;
      var node := VersionedNode(hypotheses[r.hypothesisId], r, version + 1);
      hypotheses := hypotheses[r.hypothesisId := node];
      nodes := ReplaceOrAppendNode(nodes, node);
      edges := edges + multiset{
        Edge(EdgeKind.Supersedes, node.id, HypothesisNode(r.supersedes.value, version), RationaleNote(r.rationale))};
    }
    assert p.revisions[..|p.revisions|] == p.revisions;
  }
}
