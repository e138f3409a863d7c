/** Why the key's separator matters: an input on which a second merge changes the document
    again. */
module TopologySeparator {
  import opened Wrappers
  import opened Sequences
  import opened TopologyEdges
  import opened Topology
  import opened TopologyMerge

  lemma {:induction false} KeptConcat(a: string, b: string)
    ensures Kept(a + b) == Kept(a) + Kept(b)
  {
    if a == "" {
      assert a + b == b;
    } else {
      var all, rest := a + b, a[1..];
      assert all[0] == a[0] && all[1..] == rest + b;
      KeptConcat(rest, b);
      Regroup(if IdChar(a[0]) then [a[0]] else "", Kept(rest), Kept(b));
    }
  }

  lemma KeptDiffer(start: string, x: string, y: string)
    requires |x| > 1 && x[0] == '|' && x[1] == 'b' && y != "" && y[0] == '-'
    ensures Kept(start + x) != Kept(start + y)
  {
    KeptConcat(start, x);
    KeptConcat(start, y);
    assert Kept(x) == Kept(x[1..]) && Kept(x[1..])[0] == 'b' && Kept(y)[0] == '-';
    assert (Kept(start) + Kept(x))[|Kept(start)|] != (Kept(start) + Kept(y))[|Kept(start)|];
  }

  const BAR_EDGE := AutoEdge("a|b", "c", "control", "in-process", "")
  const BAR_GRANT := AutoEdge("a", "b|c", "control", "in-process (FacilityDirectory.acquire)", "facility f (n)")

  /** The document has two nodes and an edge with the id of BAR_EDGE. */
  const BAR_NODES := [Object(map["id" := Text("a|b")]), Object(map["id" := Text("c")])]
  const BAR_EDGES := [Object(map["id" := Text(EdgeId(BAR_EDGE))])]
  const BAR_RAW: Record := map["nodes" := Items(BAR_NODES), "edges" := Items(BAR_EDGES)]

  /** One package declares BAR_EDGE, and consumes the facility of the other. */
  const BAR_DECLARED: Record := map["from" := Text("a|b"), "to" := Text("c"), "kind" := Text("control")]
  const BAR_TOPOLOGY: Record :=
    map["node" := Object(map["id" := Text("a")]), "edges" := Items([Object(BAR_DECLARED)])]
  const BAR_PROVIDER: Record := map["node" := Object(map["id" := Text("b|c")])]
  const BAR_PACKAGES := [PackageView("p", "tool", "", [], Some(BAR_TOPOLOGY), true, [1]),
                         PackageView("q", "tool", "", ["f"], Some(BAR_PROVIDER), true, [1])]
  const BAR_GRANTS := [StoredGrant("p", "n", "f")]
  const BAR_CANDIDATES :=
    [Candidate(BAR_PACKAGES[0], ManifestTopology(map["id" := Text("a")], "a", None, [BAR_DECLARED], [])),
     Candidate(BAR_PACKAGES[1], ManifestTopology(map["id" := Text("b|c")], "b|c", None, [], []))]

  lemma BarIdsDiffer()
    ensures EdgeId(BAR_EDGE) != EdgeId(BAR_GRANT) && KeyOf(BAR_EDGE) == KeyOf(BAR_GRANT)
  {
    var start, x, y := "e.auto.a", "|b--c--control", "--b|c--control";
    assert "e.auto." + "a|b" + "--" + "c" + "--" + "control" == start + x;
    assert "e.auto." + "a" + "--" + "b|c" + "--" + "control" == start + y;
    KeptDiffer(start, x, y);
    assert KeyOf(BAR_EDGE) == "a|b|c|control" == KeyOf(BAR_GRANT);
  }

  lemma BarCandidates()
    ensures Candidates(BAR_PACKAGES) == BAR_CANDIDATES
  {
    BarDecoded();
    assert BAR_PACKAGES[1..][1..] == [];
    assert Candidates(BAR_PACKAGES[1..]) == [BAR_CANDIDATES[1]];
  }

  lemma BarDecoded()
    ensures DecodeTopology(Some(BAR_TOPOLOGY)) == Some(BAR_CANDIDATES[0].topology)
    ensures DecodeTopology(Some(BAR_PROVIDER)) == Some(BAR_CANDIDATES[1].topology)
  {
    assert |"node"| == 4 && |"edges"| == 5 && |"dispatch"| == 8 && |"egressTargets"| == 13;
    var items := [Object(BAR_DECLARED)];
    assert items[1..] == [];
    assert Objects(items) == [BAR_DECLARED] + Objects([]);
    assert Objects(items) == [BAR_DECLARED];
    assert Str(BAR_TOPOLOGY["node"].fields, "id") == Some("a") && Str(BAR_PROVIDER["node"].fields, "id") == Some("b|c");
    assert List(BAR_TOPOLOGY, "edges") == items && List(BAR_PROVIDER, "edges") == [];
    assert List(BAR_TOPOLOGY, "egressTargets") == [] && List(BAR_PROVIDER, "egressTargets") == [];
    assert Str(BAR_TOPOLOGY, "dispatch") == None && Str(BAR_PROVIDER, "dispatch") == None;
  }

  lemma BarDeclared()
    ensures EdgesOf(BAR_CANDIDATES[0].topology) == [BAR_EDGE] && EdgesOf(BAR_CANDIDATES[1].topology) == []
  {
    BarFields();
    assert "a|b" != "self" && "c" != "self";
    assert DeclaredEdge("a", BAR_DECLARED) == [BAR_EDGE];
    assert [BAR_DECLARED][1..] == [];
    assert DeclaredEdges("a", [BAR_DECLARED]) == [BAR_EDGE] + DeclaredEdges("a", []);
    assert DeclaredEdges("a", [BAR_DECLARED]) == [BAR_EDGE];
  }

  lemma BarFields()
    ensures Str(BAR_DECLARED, "from") == Some("a|b") && Str(BAR_DECLARED, "to") == Some("c")
    ensures Str(BAR_DECLARED, "kind") == Some("control")
    ensures Str(BAR_DECLARED, "protocol") == None && Str(BAR_DECLARED, "label") == None
  {
    assert "from"[0] != "kind"[0] && |"to"| == 2 && |"protocol"| == 8 && |"label"| == 5;
  }

  lemma BarPackageNodes()
    ensures NodeIdByPackage(BAR_CANDIDATES) == map["p" := "a", "q" := "b|c"]
  {
    var first := BAR_CANDIDATES[..1];
    assert BAR_CANDIDATES[..|BAR_CANDIDATES| - 1] == first && first[..|first| - 1] == [];
    assert NodeIdByPackage(first) == map["p" := "a"];
  }

  lemma BarProviders()
    ensures ProviderByFacility(BAR_PACKAGES) == map["f" := "q"]
  {
    var first := BAR_PACKAGES[..1];
    assert BAR_PACKAGES[..|BAR_PACKAGES| - 1] == first && first[..|first| - 1] == [];
    assert ProviderByFacility(first) == map[];
    assert ["f"][1..] == [];
    assert Offered(map[], ["f"], "q") == Offered(map["f" := "q"], [], "q");
  }

  lemma BarGrants()
    ensures GrantEdgesOf(BAR_PACKAGES, BAR_GRANTS) == [BAR_GRANT]
  {
    BarCandidates();
    BarPackageNodes();
    BarProviders();
    assert "p" != "q" && BAR_GRANTS[1..] == [];
    assert "facility " + "f" + " (" + "n" + ")" == "facility f (n)";
    var nodeIds, providers := map["p" := "a", "q" := "b|c"], map["f" := "q"];
    assert GrantEdge(BAR_GRANTS[0], nodeIds, providers) == [BAR_GRANT];
  }

  lemma BarIds()
    ensures Ids(BAR_NODES) == {"a|b", "c"} && Ids(BAR_EDGES) == {EdgeId(BAR_EDGE)} && Keys(BAR_EDGES) == {}
  {
    assert BAR_NODES == [BAR_NODES[0]] + [BAR_NODES[1]];
    BareItem("a|b");
    BareItem("c");
    BareItem(EdgeId(BAR_EDGE));
    IdsConcat([BAR_NODES[0]], [BAR_NODES[1]]);
  }

  lemma BareItem(id: string)
    ensures Ids([Object(map["id" := Text(id)])]) == {id} && Keys([Object(map["id" := Text(id)])]) == {}
  {
    var v := Object(map["id" := Text(id)]);
    assert |"id"| == 2 && |"from"| == 4;
    assert KeyIn(v) == None && IdOf(v) == Some(id);
    assert forall x :: x in [v] <==> x == v;
  }

  /** One more candidate whose node is new. */
  lemma GrownOneMore(known: set<string>, before: seq<Candidate>, last: Candidate, liveness: map<string, string>)
    returns (h: Growth)
    requires last.topology.nodeId !in known && last.topology.nodeId !in Grown(known, before, liveness).ids
    ensures h == Grown(known, before + [last], liveness)
    ensures h.ids == Grown(known, before, liveness).ids + [last.topology.nodeId]
    ensures h.pending == Grown(known, before, liveness).pending + EdgesOf(last.topology)
  {
    GrownNext(known, before + [last], liveness, |before|);
    assert (before + [last])[..|before|] == before && (before + [last])[..|before| + 1] == before + [last];
    h := Grown(known, before + [last], liveness);
  }

  lemma BarGrown()
    ensures var g := Grown({"a|b", "c"}, BAR_CANDIDATES, Liveness(BAR_CANDIDATES));
      g.ids == ["a", "b|c"] && g.pending == [BAR_EDGE]
  {
    BarDeclared();
    assert "a|b"[0] != "b|c"[0] && |"a|b"| == |"b|c"| == 3 && "a" != "c";
    BothGrown({"a|b", "c"}, BAR_CANDIDATES[0], BAR_CANDIDATES[1], Liveness(BAR_CANDIDATES), "a", "b|c", BAR_EDGE);
  }

  lemma BothGrown(known: set<string>, first: Candidate, second: Candidate, liveness: map<string, string>,
                  a: string, b: string, edge: AutoEdge)
    requires first.topology.nodeId == a && second.topology.nodeId == b && a !in known && b !in known && a != b
    requires EdgesOf(first.topology) == [edge] && EdgesOf(second.topology) == []
    ensures Grown(known, [first, second], liveness).ids == [a, b]
    ensures Grown(known, [first, second], liveness).pending == [edge]
  {
    FirstGrown(known, [], first, liveness, a, edge);
    Pair([], first, second);
    SecondGrown(known, [first], second, liveness, a, b, edge);
  }

  lemma Pair<T>(none: seq<T>, x: T, y: T)
    requires none == []
    ensures none + [x] == [x] && [x] + [y] == [x, y]
  {}

  lemma FirstGrown(known: set<string>, none: seq<Candidate>, first: Candidate, liveness: map<string, string>,
                   id: string, edge: AutoEdge)
    requires none == [] && first.topology.nodeId == id && id !in known && EdgesOf(first.topology) == [edge]
    ensures Grown(known, none + [first], liveness).ids == [id]
    ensures Grown(known, none + [first], liveness).pending == [edge]
  {
    var one := GrownOneMore(known, none, first, liveness);
  }

  lemma SecondGrown(known: set<string>, before: seq<Candidate>, second: Candidate, liveness: map<string, string>,
                    a: string, b: string, edge: AutoEdge)
    requires Grown(known, before, liveness).ids == [a] && Grown(known, before, liveness).pending == [edge]
    requires second.topology.nodeId == b && b !in known && a != b && EdgesOf(second.topology) == []
    ensures Grown(known, before + [second], liveness).ids == [a, b]
    ensures Grown(known, before + [second], liveness).pending == [edge]
  {
    var two := GrownOneMore(known, before, second, liveness);
  }

  lemma BarLists()
    ensures List(BAR_RAW, "nodes") == BAR_NODES && List(BAR_RAW, "edges") == BAR_EDGES
  {
    assert "nodes"[0] != "edges"[0];
  }

  lemma BarInput()
    ensures PendingOf(BAR_RAW, BAR_PACKAGES, BAR_GRANTS) == [BAR_EDGE, BAR_GRANT]
    ensures {"a|b", "c", "a", "b|c"} <= MapIds(BAR_RAW, BAR_PACKAGES)
    ensures MergeOf(BAR_RAW, BAR_PACKAGES, BAR_GRANTS).addedNodes == ["a", "b|c"]
  {
    BarLists();
    BarIds();
    BarCandidates();
    BarGrants();
    BarGrown();
    assert BAR_CANDIDATES[0] in BAR_CANDIDATES && BAR_CANDIDATES[1] in BAR_CANDIDATES;
  }

  /** An input on which merging twice is not merging once: the first merge gives the shared
      key to BAR_EDGE although an id keeps that edge out, so it leaves the grant edge out
      too. The second merge sees the grant edge only, and adds it. */
  lemma BarBreaksIdempotence(codec: Codec)
    requires RoundTrip(codec)
    ensures var m := MergeOf(BAR_RAW, BAR_PACKAGES, BAR_GRANTS);
      && m.Changed() && MergeOf(Written(codec, BAR_RAW, m), BAR_PACKAGES, BAR_GRANTS).Changed()
    ensures var once := Merged(codec, codec.stringify(Object(BAR_RAW)), BAR_PACKAGES, BAR_GRANTS);
      Merged(codec, once, BAR_PACKAGES, BAR_GRANTS) != once
  {
    var m := MergeOf(BAR_RAW, BAR_PACKAGES, BAR_GRANTS);
    BarInput();
    BarNotKept();
    DocumentLists(BAR_RAW, m, Extended(codec.upper, List(BAR_RAW, "domains"), m.nodes, m.addedNodes));
    SecondMerge(BAR_RAW, Written(codec, BAR_RAW, m), BAR_PACKAGES, BAR_GRANTS);
    assert codec.parse(codec.stringify(Object(BAR_RAW))) == Some(Object(BAR_RAW));
    MergeIdempotent(codec, codec.stringify(Object(BAR_RAW)), BAR_PACKAGES, BAR_GRANTS);
  }

  lemma BarNotKept()
    ensures !GrantsKept(BAR_RAW, BAR_PACKAGES, BAR_GRANTS)
  {
    BarLists();
    BarInput();
    BarGrants();
    BarIds();
    BarIdsDiffer();
    SharedKeyLost(BAR_EDGES, MapIds(BAR_RAW, BAR_PACKAGES), BAR_EDGE, BAR_GRANT);
    assert FirstOfKey([BAR_GRANT], MapIds(BAR_RAW, BAR_PACKAGES), 0);
    assert GrantEdgesOf(BAR_PACKAGES, BAR_GRANTS)[0] == BAR_GRANT;
  }

  lemma SharedKeyLost(edges: seq<Json>, nodeIds: set<string>, edge: AutoEdge, grant: AutoEdge)
    requires KeyOf(edge) == KeyOf(grant) && !Dangling(edge, nodeIds) && !Dangling(grant, nodeIds)
    requires KeyOf(edge) !in Keys(edges) && EdgeId(edge) in Ids(edges) && EdgeId(grant) !in Ids(edges)
    ensures !CoveredLater(edges, nodeIds, [edge, grant], grant)
  {
    var pending := [edge, grant];
    assert pending[0] == edge && pending[1] == grant;
    assert !Placed(edges, nodeIds, pending, 0) && !Considered(edges, nodeIds, pending, 1);
  }
}
