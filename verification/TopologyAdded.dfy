/** What the merge adds and when it writes, said of the packages that introduce nodes: which nodes,
    pending edges and domains there are, what an added edge and an added domain hold, and which
    corrections count as a change. */
module TopologyAdded {
  import opened Wrappers
  import opened TopologyEdges
  import opened Topology
  import opened TopologyMerge
  import opened TopologyMeaning

  // ---------------------------------------------------------------- who introduces a node

  /** The first candidate with a node that the map does not have. */
  predicate Introduces(known: set<string>, candidates: seq<Candidate>, i: nat)
    requires i < |candidates|
  {
    && candidates[i].topology.nodeId !in known
    && forall k :: 0 <= k < i ==> candidates[k].topology.nodeId != candidates[i].topology.nodeId
  }

  predicate DerivedFrom(topology: ManifestTopology, edge: AutoEdge) {
    || edge in UniformEdges(topology.nodeId, topology.dispatch)
    || edge in DeclaredEdges(topology.nodeId, topology.edges)
  }

  ghost predicate NodeIntroduced(known: set<string>, candidates: seq<Candidate>, n: nat, liveness: map<string, string>,
                                 node: Json)
    requires n <= |candidates|
  {
    exists i :: 0 <= i < n && Introduces(known, candidates, i) && node == NewNode(candidates[i], liveness)
  }

  ghost predicate IdIntroduced(known: set<string>, candidates: seq<Candidate>, n: nat, id: string)
    requires n <= |candidates|
  {
    exists i :: 0 <= i < n && Introduces(known, candidates, i) && id == candidates[i].topology.nodeId
  }

  ghost predicate EdgeIntroduced(known: set<string>, candidates: seq<Candidate>, n: nat, edge: AutoEdge)
    requires n <= |candidates|
  {
    exists i :: 0 <= i < n && Introduces(known, candidates, i) && DerivedFrom(candidates[i].topology, edge)
  }

  ghost predicate NodesFrom(known: set<string>, candidates: seq<Candidate>, n: nat, liveness: map<string, string>,
                            nodes: seq<Json>)
    requires n <= |candidates|
  {
    forall node :: node in nodes <==> NodeIntroduced(known, candidates, n, liveness, node)
  }

  ghost predicate IdsFrom(known: set<string>, candidates: seq<Candidate>, n: nat, ids: seq<string>)
    requires n <= |candidates|
  {
    forall id :: id in ids <==> IdIntroduced(known, candidates, n, id)
  }

  ghost predicate EdgesFrom(known: set<string>, candidates: seq<Candidate>, n: nat, pending: seq<AutoEdge>)
    requires n <= |candidates|
  {
    forall edge :: edge in pending <==> EdgeIntroduced(known, candidates, n, edge)
  }

  ghost predicate GrowthFrom(known: set<string>, candidates: seq<Candidate>, n: nat, liveness: map<string, string>,
                             g: Growth)
    requires n <= |candidates|
  {
    && NodesFrom(known, candidates, n, liveness, g.nodes)
    && IdsFrom(known, candidates, n, g.ids)
    && EdgesFrom(known, candidates, n, g.pending)
  }

  lemma {:induction false} GrowthUpTo(known: set<string>, candidates: seq<Candidate>, n: nat,
                                      liveness: map<string, string>)
    requires n <= |candidates|
    ensures GrowthFrom(known, candidates, n, liveness, Grown(known, candidates[..n], liveness))
  {
    if n == 0 {
      EmptyGrowth(known, candidates, liveness);
    } else {
      GrowthUpTo(known, candidates, n - 1, liveness);
      var g := Grown(known, candidates[..n - 1], liveness);
      EarlierOnMap(known, candidates, n - 1, liveness);
      GrowthStep(known, candidates, n - 1, liveness, g);
      GrownNext(known, candidates, liveness, n - 1);
    }
  }

  lemma EmptyGrowth(known: set<string>, candidates: seq<Candidate>, liveness: map<string, string>)
    ensures GrowthFrom(known, candidates, 0, liveness, Growth([], [], []))
  {}

  lemma EarlierOnMap(known: set<string>, candidates: seq<Candidate>, n: nat, liveness: map<string, string>)
    requires n <= |candidates|
    ensures AllOnMap(known, candidates, n, Grown(known, candidates[..n], liveness))
  {
    forall i | 0 <= i < n
      ensures OnMap(known, Grown(known, candidates[..n], liveness), candidates[i].topology.nodeId)
    {
      GrownCoversUpTo(known, candidates, liveness, i, n);
    }
  }

  predicate AllOnMap(known: set<string>, candidates: seq<Candidate>, n: nat, g: Growth)
    requires n <= |candidates|
  {
    forall i :: 0 <= i < n ==> OnMap(known, g, candidates[i].topology.nodeId)
  }

  lemma GrowthStep(known: set<string>, candidates: seq<Candidate>, n: nat, liveness: map<string, string>, g: Growth)
    requires n < |candidates| && GrowthFrom(known, candidates, n, liveness, g) && AllOnMap(known, candidates, n, g)
    ensures GrowthFrom(known, candidates, n + 1, liveness, GrownBy(known, g, candidates[n], liveness))
  {
    IntroducesNext(known, candidates, n, g);
    NodesStep(known, candidates, n, liveness, g.nodes);
    IdsStep(known, candidates, n, g.ids);
    EdgesStep(known, candidates, n, g.pending);
  }

  lemma IntroducesNext(known: set<string>, candidates: seq<Candidate>, n: nat, g: Growth)
    requires n < |candidates| && IdsFrom(known, candidates, n, g.ids) && AllOnMap(known, candidates, n, g)
    ensures Introduces(known, candidates, n)
      <==> candidates[n].topology.nodeId !in known && candidates[n].topology.nodeId !in g.ids
  {
    var id := candidates[n].topology.nodeId;
    assert id in g.ids <==> IdIntroduced(known, candidates, n, id);
  }

  lemma NodesStep(known: set<string>, candidates: seq<Candidate>, n: nat, liveness: map<string, string>,
                  nodes: seq<Json>)
    requires n < |candidates| && NodesFrom(known, candidates, n, liveness, nodes)
    ensures NodesFrom(known, candidates, n + 1, liveness,
                      if Introduces(known, candidates, n) then nodes + [NewNode(candidates[n], liveness)] else nodes)
  {
    forall node
      ensures NodeIntroduced(known, candidates, n + 1, liveness, node)
        <==> || NodeIntroduced(known, candidates, n, liveness, node)
             || (Introduces(known, candidates, n) && node == NewNode(candidates[n], liveness))
    {
      NodeIntroducedNext(known, candidates, n, liveness, node, NewNode(candidates[n], liveness));
    }
  }

  lemma NodeIntroducedNext(known: set<string>, candidates: seq<Candidate>, n: nat, liveness: map<string, string>,
                           node: Json, last: Json)
    requires n < |candidates| && last == NewNode(candidates[n], liveness)
    ensures NodeIntroduced(known, candidates, n + 1, liveness, node)
      <==> NodeIntroduced(known, candidates, n, liveness, node) || (Introduces(known, candidates, n) && node == last)
  {}

  lemma IdsStep(known: set<string>, candidates: seq<Candidate>, n: nat, ids: seq<string>)
    requires n < |candidates| && IdsFrom(known, candidates, n, ids)
    ensures IdsFrom(known, candidates, n + 1,
                    if Introduces(known, candidates, n) then ids + [candidates[n].topology.nodeId] else ids)
  {}

  lemma EdgesStep(known: set<string>, candidates: seq<Candidate>, n: nat, pending: seq<AutoEdge>)
    requires n < |candidates| && EdgesFrom(known, candidates, n, pending)
    ensures EdgesFrom(known, candidates, n + 1,
                      if Introduces(known, candidates, n) then pending + EdgesOf(candidates[n].topology) else pending)
  {
    assert forall edge :: edge in EdgesOf(candidates[n].topology) <==> DerivedFrom(candidates[n].topology, edge);
  }

  lemma GrowthMeans(known: set<string>, candidates: seq<Candidate>, liveness: map<string, string>)
    ensures GrowthFrom(known, candidates, |candidates|, liveness, Grown(known, candidates, liveness))
  {
    GrowthUpTo(known, candidates, |candidates|, liveness);
    assert candidates[..|candidates|] == candidates;
  }

  // ---------------------------------------------------------------- nodes and edges

  /** After the base nodes come exactly the nodes of the candidates that introduce them. */
  lemma AddedNodesMean(raw: Record, packages: seq<PackageView>, grants: seq<StoredGrant>)
    ensures var base, candidates, m := List(raw, "nodes"), Candidates(packages), MergeOf(raw, packages, grants);
      && |m.nodes| >= |base|
      && NodesFrom(Ids(base), candidates, |candidates|, Liveness(candidates), m.nodes[|base|..])
      && IdsFrom(Ids(base), candidates, |candidates|, m.addedNodes)
  {
    var base, candidates := List(raw, "nodes"), Candidates(packages);
    GrowthMeans(Ids(base), candidates, Liveness(candidates));
    var corrected, g := CorrectedAll(base, Liveness(candidates)), Grown(Ids(base), candidates, Liveness(candidates));
    assert (corrected + g.nodes)[|base|..] == g.nodes;
  }

  /** The edges that the merge considers are those that the candidates that introduce their node
      derive, and those of the grants. */
  lemma PendingMeans(raw: Record, packages: seq<PackageView>, grants: seq<StoredGrant>, edge: AutoEdge)
    ensures var known, candidates := Ids(List(raw, "nodes")), Candidates(packages);
      edge in PendingOf(raw, packages, grants) <==>
        EdgeIntroduced(known, candidates, |candidates|, edge) || edge in GrantEdgesOf(packages, grants)
  {
    var known, candidates := Ids(List(raw, "nodes")), Candidates(packages);
    GrowthMeans(known, candidates, Liveness(candidates));
    InEither(known, candidates, Grown(known, candidates, Liveness(candidates)).pending, GrantEdgesOf(packages, grants),
             edge);
  }

  lemma InEither(known: set<string>, candidates: seq<Candidate>, pending: seq<AutoEdge>, granted: seq<AutoEdge>,
                 edge: AutoEdge)
    requires EdgesFrom(known, candidates, |candidates|, pending)
    ensures edge in pending + granted <==> EdgeIntroduced(known, candidates, |candidates|, edge) || edge in granted
  {}

  /** What an added edge holds. */
  lemma EdgeMeans(edge: AutoEdge)
    ensures var v := EdgeObject(edge);
      && v.Object? && v.fields.Keys == {"id", "from", "to", "kind", "protocol", "label"}
      && TextOr(v.fields, "id", "") == EdgeId(edge) && TextOr(v.fields, "kind", "") == edge.kind
      && TextOr(v.fields, "from", "") == edge.from && TextOr(v.fields, "to", "") == edge.to
      && TextOr(v.fields, "protocol", "") == edge.protocol && TextOr(v.fields, "label", "") == edge.caption
  {
    assert |"id"| == |"to"| == 2 && "id"[0] != "to"[0] && |"from"| == |"kind"| == 4 && "from"[0] != "kind"[0];
    assert |"protocol"| == 8 && |"label"| == 5;
  }

  // ---------------------------------------------------------------- corrections

  /** The node has the id and does not read the runtime that liveness gives the id. */
  predicate Misread(node: Json, id: string, liveness: map<string, string>) {
    && node.Object? && "id" in node.fields && node.fields["id"] == Text(id) && id in liveness
    && ("runtime" !in node.fields || node.fields["runtime"] != Text(liveness[id]))
  }

  lemma CorrectionMeans(node: Json, id: string, liveness: map<string, string>)
    ensures Misread(node, id, liveness) <==> IdOf(node) == Some(id) && Correction(node, liveness).Some?
    ensures Misread(node, id, liveness) ==> Correction(node, liveness) == Some(liveness[id])
  {}

  /** Exactly the ids of misread nodes are recorded as corrected, with the runtime they get. */
  lemma {:induction false} CorrectionsMean(nodes: seq<Json>, liveness: map<string, string>, id: string)
    ensures id in Corrections(nodes, liveness)
      <==> exists i :: 0 <= i < |nodes| && Misread(nodes[i], id, liveness)
    ensures id in Corrections(nodes, liveness) ==> Corrections(nodes, liveness)[id] == liveness[id]
  {
    if nodes != [] {
      var n := |nodes| - 1;
      CorrectionsMean(nodes[..n], liveness, id);
      CorrectionMeans(nodes[n], id, liveness);
      assert forall i :: 0 <= i < n ==> nodes[..n][i] == nodes[i];
    }
  }

  ghost predicate SomeMisread(nodes: seq<Json>, liveness: map<string, string>) {
    exists i, id :: 0 <= i < |nodes| && Misread(nodes[i], id, liveness)
  }

  ghost predicate SomeIntroduces(known: set<string>, candidates: seq<Candidate>) {
    exists i :: 0 <= i < |candidates| && Introduces(known, candidates, i)
  }

  /** The text is written anew exactly if a package introduces a node, a node is misread, or an
      edge is added; then it holds the merged document, else it stays as it was. */
  lemma WrittenExactly(codec: Codec, base: string, raw: Record, packages: seq<PackageView>, grants: seq<StoredGrant>)
    requires RoundTrip(codec) && codec.parse(base) == Some(Object(raw))
    ensures var m, nodes, candidates := MergeOf(raw, packages, grants), List(raw, "nodes"), Candidates(packages);
      var changed := || SomeIntroduces(Ids(nodes), candidates) || SomeMisread(nodes, Liveness(candidates))
                     || m.addedEdges != [];
      var merged := Merged(codec, base, packages, grants);
      && (changed ==> codec.parse(merged) == Some(Object(Written(codec, raw, m))))
      && (!changed ==> merged == base)
  {
    var nodes, candidates := List(raw, "nodes"), Candidates(packages);
    AddedNodesMean(raw, packages, grants);
    NodesChange(Ids(nodes), candidates, MergeOf(raw, packages, grants).addedNodes);
    LivenessChange(nodes, Liveness(candidates));
  }

  lemma NodesChange(known: set<string>, candidates: seq<Candidate>, ids: seq<string>)
    requires IdsFrom(known, candidates, |candidates|, ids)
    ensures ids != [] <==> SomeIntroduces(known, candidates)
  {
    if ids != [] {
      assert ids[0] in ids && IdIntroduced(known, candidates, |candidates|, ids[0]);
    }
    if i :| 0 <= i < |candidates| && Introduces(known, candidates, i) {
      assert IdIntroduced(known, candidates, |candidates|, candidates[i].topology.nodeId);
    }
  }

  lemma LivenessChange(nodes: seq<Json>, liveness: map<string, string>)
    ensures Corrections(nodes, liveness) != map[] <==> SomeMisread(nodes, liveness)
  {
    forall id
      ensures id in Corrections(nodes, liveness)
        <==> exists i :: 0 <= i < |nodes| && Misread(nodes[i], id, liveness)
    {
      CorrectionsMean(nodes, liveness, id);
    }
    if i, id :| 0 <= i < |nodes| && Misread(nodes[i], id, liveness) {
      assert id in Corrections(nodes, liveness);
    }
    if Corrections(nodes, liveness) != map[] {
      var id :| id in Corrections(nodes, liveness);
      var i :| 0 <= i < |nodes| && Misread(nodes[i], id, liveness);
    }
  }

  // ---------------------------------------------------------------- domains

  predicate IsDomain(upper: char -> string, v: Json, domain: string) {
    v == Object(map["id" := Text(domain),
                    "title" := Text(if |domain| == 0 then "" else upper(domain[0]) + domain[1..])])
  }

  lemma {:induction false} FindFirst(nodes: seq<Json>, id: string, k: nat)
    requires k < |nodes| && IdOf(nodes[k]) == Some(id) && forall i :: 0 <= i < k ==> IdOf(nodes[i]) != Some(id)
    ensures Find(nodes, id) == Some(nodes[k])
  {
    if k > 0 {
      FindFirst(nodes[1..], id, k - 1);
    }
  }

  lemma NewNodeDomain(candidate: Candidate, liveness: map<string, string>)
    ensures var node := NewNode(candidate, liveness);
      && IdOf(node) == Some(candidate.topology.nodeId)
      && Str(node.fields, "domain") == Some(TextOr(candidate.topology.node, "domain", "runtime"))
  {}

  lemma AddedFound(nodes: seq<Json>, base: seq<Json>, ids: seq<string>, node: Json, id: string)
    requires AddedAre(nodes, base, ids) && node in nodes[|base|..] && IdOf(node) == Some(id) && id !in Ids(base)
    requires forall i :: 0 <= i < |base| ==> IdOf(nodes[i]) == IdOf(base[i])
    ensures Find(nodes, id) == Some(node)
  {
    var j :| 0 <= j < |nodes| - |base| && nodes[|base|..][j] == node;
    assert nodes[|base| + j] == node && ids[j] == id;
    forall i | 0 <= i < |base| + j
      ensures IdOf(nodes[i]) != Some(id)
    {
      if i < |base| {
        assert base[i] in base;
      } else {
        assert IdOf(nodes[|base| + (i - |base|)]) == Some(ids[i - |base|]);
      }
    }
    FindFirst(nodes, id, |base| + j);
  }

  lemma NodeIsFrom(known: set<string>, candidates: seq<Candidate>, i: nat, liveness: map<string, string>,
                   nodes: seq<Json>)
    requires i < |candidates| && Introduces(known, candidates, i)
    requires NodesFrom(known, candidates, |candidates|, liveness, nodes)
    ensures NewNode(candidates[i], liveness) in nodes
  {
    assert NodeIntroduced(known, candidates, |candidates|, liveness, NewNode(candidates[i], liveness));
  }

  lemma BaseIds(raw: Record, packages: seq<PackageView>, grants: seq<StoredGrant>)
    ensures var base, m := List(raw, "nodes"), MergeOf(raw, packages, grants);
      |m.nodes| >= |base| && forall i :: 0 <= i < |base| ==> IdOf(m.nodes[i]) == IdOf(base[i])
  {
    var base, liveness := List(raw, "nodes"), Liveness(Candidates(packages));
    forall i | 0 <= i < |base|
      ensures IdOf(MergeOf(raw, packages, grants).nodes[i]) == IdOf(base[i])
    {
      CorrectedSettles(base[i], liveness);
    }
  }

  /** The domain that the candidate declares for its node. */
  function Declared(candidate: Candidate): string {
    TextOr(candidate.topology.node, "domain", "runtime")
  }

  lemma DomainFound(nodes: seq<Json>, base: seq<Json>, ids: seq<string>, candidates: seq<Candidate>, i: nat,
                    liveness: map<string, string>)
    requires AddedAre(nodes, base, ids) && forall k :: 0 <= k < |base| ==> IdOf(nodes[k]) == IdOf(base[k])
    requires NodesFrom(Ids(base), candidates, |candidates|, liveness, nodes[|base|..])
    requires i < |candidates| && Introduces(Ids(base), candidates, i)
    ensures DomainOf(nodes, candidates[i].topology.nodeId) == Some(Declared(candidates[i]))
  {
    NodeIsFrom(Ids(base), candidates, i, liveness, nodes[|base|..]);
    NewNodeDomain(candidates[i], liveness);
    AddedFound(nodes, base, ids, NewNode(candidates[i], liveness), candidates[i].topology.nodeId);
  }

  /** The domain of an added node is the one that the package that introduces it declares, else
      runtime. */
  lemma AddedDomain(raw: Record, packages: seq<PackageView>, grants: seq<StoredGrant>, i: nat)
    requires i < |Candidates(packages)| && Introduces(Ids(List(raw, "nodes")), Candidates(packages), i)
    ensures DomainOf(MergeOf(raw, packages, grants).nodes, Candidates(packages)[i].topology.nodeId)
         == Some(Declared(Candidates(packages)[i]))
  {
    var base, candidates, m := List(raw, "nodes"), Candidates(packages), MergeOf(raw, packages, grants);
    AddedNodesMean(raw, packages, grants);
    AddedNodesFresh(raw, packages, grants);
    BaseIds(raw, packages, grants);
    DomainFound(m.nodes, base, m.addedNodes, candidates, i, Liveness(candidates));
  }

  ghost predicate DomainOfAdded(upper: char -> string, nodes: seq<Json>, added: seq<string>, v: Json) {
    exists id :: id in added && DomainOf(nodes, id).Some? && IsDomain(upper, v, DomainOf(nodes, id).value)
  }

  lemma {:induction false} DomainsWritten(upper: char -> string, domains: seq<Json>, nodes: seq<Json>,
                                          added: seq<string>)
    ensures var all := Extended(upper, domains, nodes, added);
      && domains <= all
      && forall k :: |domains| <= k < |all| ==> DomainOfAdded(upper, nodes, added, all[k])
  {
    if added != [] {
      var n := |added| - 1;
      DomainsWritten(upper, domains, nodes, added[..n]);
      assert added == added[..n] + [added[n]];
      forall v | DomainOfAdded(upper, nodes, added[..n], v)
        ensures DomainOfAdded(upper, nodes, added, v)
      {
        var id :| id in added[..n] && DomainOf(nodes, id).Some? && IsDomain(upper, v, DomainOf(nodes, id).value);
        assert id in added;
      }
      assert added[n] in added;
    }
  }

  /** The old domains stay; each added one has the id and the capitalised title of the domain of
      a candidate that introduces its node, and the domain of each such candidate is there. */
  ghost predicate DomainsFrom(upper: char -> string, known: set<string>, candidates: seq<Candidate>,
                              before: seq<Json>, after: seq<Json>) {
    && before <= after
    && (forall i :: 0 <= i < |candidates| && Introduces(known, candidates, i) ==>
          Declared(candidates[i]) in Ids(after))
    && forall k :: |before| <= k < |after| ==> DomainOfSome(upper, known, candidates, after[k])
  }

  ghost predicate DomainOfSome(upper: char -> string, known: set<string>, candidates: seq<Candidate>, v: Json) {
    exists i :: 0 <= i < |candidates| && Introduces(known, candidates, i) && IsDomain(upper, v, Declared(candidates[i]))
  }

  lemma DomainsFromAdded(upper: char -> string, known: set<string>, candidates: seq<Candidate>, domains: seq<Json>,
                         nodes: seq<Json>, added: seq<string>)
    requires IdsFrom(known, candidates, |candidates|, added)
    requires forall i :: 0 <= i < |candidates| && Introduces(known, candidates, i) ==>
      DomainOf(nodes, candidates[i].topology.nodeId) == Some(Declared(candidates[i]))
    ensures DomainsFrom(upper, known, candidates, domains, Extended(upper, domains, nodes, added))
  {
    DomainsWritten(upper, domains, nodes, added);
    MergedDomains(upper, domains, nodes, added);
    var all := Extended(upper, domains, nodes, added);
    forall i | 0 <= i < |candidates| && Introduces(known, candidates, i)
      ensures Declared(candidates[i]) in Ids(all)
    {
      var id := candidates[i].topology.nodeId;
      assert IdIntroduced(known, candidates, |candidates|, id);
      var j :| 0 <= j < |added| && added[j] == id;
    }
    forall k | |domains| <= k < |all|
      ensures DomainOfSome(upper, known, candidates, all[k])
    {
      assert DomainOfAdded(upper, nodes, added, all[k]);
      var id :| id in added && DomainOf(nodes, id).Some? && IsDomain(upper, all[k], DomainOf(nodes, id).value);
      assert IdIntroduced(known, candidates, |candidates|, id);
      var i :| 0 <= i < |candidates| && Introduces(known, candidates, i) && id == candidates[i].topology.nodeId;
    }
  }

  lemma DomainsMean(codec: Codec, raw: Record, packages: seq<PackageView>, grants: seq<StoredGrant>)
    ensures DomainsFrom(codec.upper, Ids(List(raw, "nodes")), Candidates(packages), List(raw, "domains"),
                        List(Written(codec, raw, MergeOf(raw, packages, grants)), "domains"))
  {
    var known, candidates, m := Ids(List(raw, "nodes")), Candidates(packages), MergeOf(raw, packages, grants);
    var domains := Extended(codec.upper, List(raw, "domains"), m.nodes, m.addedNodes);
    DocumentMeans(raw, m, domains);
    AddedNodesMean(raw, packages, grants);
    forall i | 0 <= i < |candidates| && Introduces(known, candidates, i)
      ensures DomainOf(m.nodes, candidates[i].topology.nodeId) == Some(Declared(candidates[i]))
    {
      AddedDomain(raw, packages, grants, i);
    }
    DomainsFromAdded(codec.upper, known, candidates, List(raw, "domains"), m.nodes, m.addedNodes);
  }
}
