/** What the merge takes from packages and grants, said of manifests, registrations and grants
    alone: which packages declare nodes, when one is live, which edges are derived and how they
    are named, what a new node says of its package, and what the written document holds. */
module TopologyMeaning {
  import opened Wrappers
  import opened TopologyEdges
  import opened Topology
  import opened TopologyMerge

  // ---------------------------------------------------------------- which packages declare nodes

  /** The manifest has a node with a text for an id. */
  predicate DeclaresNode(view: PackageView, id: string) {
    && view.topology.Some? && "node" in view.topology.value && view.topology.value["node"].Object?
    && var node := view.topology.value["node"].fields;
    && "id" in node && node["id"] == Text(id)
  }

  lemma DecodedNode(view: PackageView, id: string)
    ensures DeclaresNode(view, id)
      <==> DecodeTopology(view.topology).Some? && DecodeTopology(view.topology).value.nodeId == id
  {}

  lemma {:induction false} ObjectsMean(items: seq<Json>, record: Record, text: string)
    ensures record in Objects(items) <==> Object(record) in items
    ensures text in Texts(items) <==> Text(text) in items
  {
    if items != [] {
      ObjectsMean(items[1..], record, text);
      assert items == [items[0]] + items[1..];
    }
  }

  predicate Lists(record: Record, key: string, item: Json) {
    key in record && record[key].Items? && item in record[key].items
  }

  /** What is read from a manifest: its node, its way of dispatch, the objects among its edges and
      the texts among its egress targets. */
  lemma DecodedMeans(manifest: Record, edge: Record, target: string)
    requires DecodeTopology(Some(manifest)).Some?
    ensures var topology := DecodeTopology(Some(manifest)).value;
      && "node" in manifest && manifest["node"] == Object(topology.node)
      && (match topology.dispatch
          case Some(text) => "dispatch" in manifest && manifest["dispatch"] == Text(text)
          case None => "dispatch" !in manifest || !manifest["dispatch"].Text?)
      && (edge in topology.edges <==> Lists(manifest, "edges", Object(edge)))
      && (target in topology.egressTargets <==> Lists(manifest, "egressTargets", Text(target)))
  {
    ObjectsMean(List(manifest, "edges"), edge, target);
    ObjectsMean(List(manifest, "egressTargets"), edge, target);
  }

  lemma {:induction false} CandidatesMean(packages: seq<PackageView>, c: Candidate)
    ensures c in Candidates(packages) <==> c.view in packages && DecodeTopology(c.view.topology) == Some(c.topology)
  {
    if packages != [] {
      CandidatesMean(packages[1..], c);
      assert packages == [packages[0]] + packages[1..];
    }
  }

  // ---------------------------------------------------------------- when a node is live

  lemma {:induction false} BindingsMean(counts: seq<nat>)
    ensures TotalBindings(counts) > 0 <==> exists i :: 0 <= i < |counts| && counts[i] > 0
  {
    if counts != [] {
      var rest := counts[1..];
      BindingsMean(rest);
      if i :| 0 <= i < |counts| && counts[i] > 0 {
        assert i > 0 ==> rest[i - 1] == counts[i];
      }
      if i :| 0 <= i < |rest| && rest[i] > 0 {
        assert counts[i + 1] == rest[i];
      }
    }
  }

  /** The package registered and has at least one binding. */
  predicate Works(view: PackageView) {
    view.registered && exists i :: 0 <= i < |view.bindings| && view.bindings[i] > 0
  }

  ghost predicate SomeDeclares(packages: seq<PackageView>, id: string) {
    exists view :: view in packages && DeclaresNode(view, id)
  }

  ghost predicate SomeWorks(packages: seq<PackageView>, id: string) {
    exists view :: view in packages && DeclaresNode(view, id) && Works(view)
  }

  /** A node has a liveness exactly if a package declares it, and reads live exactly if such a
      package registered and has a binding. */
  lemma LivenessMeans(packages: seq<PackageView>, id: string)
    ensures var liveness := Liveness(Candidates(packages));
      && (id in liveness <==> SomeDeclares(packages, id))
      && (id in liveness ==> liveness[id] == if SomeWorks(packages, id) then "live" else "config-gated")
  {
    var candidates := Candidates(packages);
    LivenessExact(candidates, id);
    DeclaredMeans(packages, id);
    WorksMeans(packages, id);
  }

  lemma DeclaredMeans(packages: seq<PackageView>, id: string)
    ensures Declares(Candidates(packages), id) <==> SomeDeclares(packages, id)
  {
    var candidates := Candidates(packages);
    if i :| 0 <= i < |candidates| && candidates[i].topology.nodeId == id {
      CandidatesMean(packages, candidates[i]);
      DecodedNode(candidates[i].view, id);
    }
    if view :| view in packages && DeclaresNode(view, id) {
      DecodedNode(view, id);
      var c := Candidate(view, DecodeTopology(view.topology).value);
      CandidatesMean(packages, c);
      var i :| 0 <= i < |candidates| && candidates[i] == c;
    }
  }

  lemma WorksMeans(packages: seq<PackageView>, id: string)
    ensures DeclaresLive(Candidates(packages), id) <==> SomeWorks(packages, id)
  {
    var candidates := Candidates(packages);
    if i :| 0 <= i < |candidates| && IsLive(candidates[i], id) {
      CandidatesMean(packages, candidates[i]);
      DecodedNode(candidates[i].view, id);
      LiveMeans(candidates[i].view);
    }
    if view :| view in packages && DeclaresNode(view, id) && Works(view) {
      DecodedNode(view, id);
      LiveMeans(view);
      var c := Candidate(view, DecodeTopology(view.topology).value);
      CandidatesMean(packages, c);
      var i :| 0 <= i < |candidates| && candidates[i] == c;
      assert IsLive(candidates[i], id);
    }
  }

  lemma LiveMeans(view: PackageView)
    ensures ResolveLiveness(view) == if Works(view) then "live" else "config-gated"
  {
    BindingsMean(view.bindings);
  }

  // ---------------------------------------------------------------- the edges a package declares

  function TextOr(record: Record, key: string, default: string): string {
    if key in record && record[key].Text? then record[key].text else default
  }

  /** The end points and the kind that an edge of the manifest gives; self is the node. */
  predicate Derives(nodeId: string, edge: Record, derived: AutoEdge) {
    && "from" in edge && edge["from"].Text? && "to" in edge && edge["to"].Text? && "kind" in edge
    && edge["kind"] == Text(derived.kind)
    && derived.from == (if edge["from"].text == "self" then nodeId else edge["from"].text)
    && derived.to == (if edge["to"].text == "self" then nodeId else edge["to"].text)
    && derived.protocol == TextOr(edge, "protocol", "in-process") && derived.caption == TextOr(edge, "label", "")
  }

  lemma {:induction false} DeclaredEdgesMean(nodeId: string, edges: seq<Record>, derived: AutoEdge)
    ensures derived in DeclaredEdges(nodeId, edges) <==> exists edge :: edge in edges && Derives(nodeId, edge, derived)
  {
    if edges != [] {
      DeclaredEdgesMean(nodeId, edges[1..], derived);
      assert edges == [edges[0]] + edges[1..];
      DeclaredEdgeMeans(nodeId, edges[0], derived);
    }
  }

  lemma DeclaredEdgeMeans(nodeId: string, edge: Record, derived: AutoEdge)
    ensures derived in DeclaredEdge(nodeId, edge) <==> Derives(nodeId, edge, derived)
  {}

  /** How the edges of dispatch are carried out and what they are called. */
  lemma UniformTexts(nodeId: string, dispatch: Option<string>, edge: AutoEdge)
    requires edge in UniformEdges(nodeId, dispatch)
    ensures edge.protocol ==
      if edge.kind == "control" then "in-process (route dispatch)"
      else if dispatch == Some("tool") then "in-process (ToolDefinition.execute)"
      else "in-process (GatewayEvents.onMessage)"
    ensures edge.caption ==
      if edge.kind == "control" then "dispatch route"
      else if dispatch == Some("tool") then "execute"
      else if dispatch == Some("socket") then "inbound -> turn" else "payload -> turn"
  {
    assert |"socket"| == 6 && |"route"| == 5 && |"tool"| == |"data"| == 4 && |"control"| == 7;
  }

  /** The edges that the way of dispatch gives: a socket sends to the inbound side of the
      runtime, a route is dispatched to and sends, a tool is executed; else there are none. */
  lemma UniformEdgesMean(nodeId: string, dispatch: Option<string>, from: string, to: string, kind: string)
    ensures
      (exists edge :: edge in UniformEdges(nodeId, dispatch) && edge.from == from && edge.to == to && edge.kind == kind)
      <==>
        || (dispatch == Some("socket") && from == nodeId && to == "runtime.inbound" && kind == "data")
        || (dispatch == Some("route") && from == nodeId && to == "runtime.inbound" && kind == "data")
        || (dispatch == Some("route") && from == "runtime.http" && to == nodeId && kind == "control")
        || (dispatch == Some("tool") && from == "runtime.toolExec" && to == nodeId && kind == "data")
  {
    var edges := UniformEdges(nodeId, dispatch);
    assert "socket" != "route" && "tool" != "route" && "socket" != "tool" by {
      assert |"socket"| == 6 && |"route"| == 5 && |"tool"| == 4;
    }
    assert dispatch == Some("socket") || dispatch == Some("tool") ==> |edges| == 1 && edges[0] in edges;
    assert dispatch == Some("route") ==> |edges| == 2 && edges[0] in edges && edges[1] in edges;
  }

  // ---------------------------------------------------------------- the edges of grants

  /** The last package of that name that declares a node, and its node. */
  ghost predicate NodeOfPackage(candidates: seq<Candidate>, name: string, nodeId: string) {
    exists i :: 0 <= i < |candidates| && candidates[i].view.name == name && candidates[i].topology.nodeId == nodeId
      && forall k :: i < k < |candidates| ==> candidates[k].view.name != name
  }

  lemma {:induction false} NodesMean(candidates: seq<Candidate>, name: string, nodeId: string)
    ensures name in NodeIdByPackage(candidates) && NodeIdByPackage(candidates)[name] == nodeId
      <==> NodeOfPackage(candidates, name, nodeId)
  {
    if candidates != [] {
      var n := |candidates| - 1;
      var before := candidates[..n];
      NodesMean(before, name, nodeId);
      assert forall i :: 0 <= i < n ==> before[i] == candidates[i];
      if candidates[n].view.name != name {
        NodeBefore(candidates, name, nodeId);
      }
    }
  }

  lemma NodeBefore(candidates: seq<Candidate>, name: string, nodeId: string)
    requires candidates != [] && candidates[|candidates| - 1].view.name != name
    ensures NodeOfPackage(candidates, name, nodeId)
      <==> NodeOfPackage(candidates[..|candidates| - 1], name, nodeId)
  {
    var n := |candidates| - 1;
    var before := candidates[..n];
    assert forall i :: 0 <= i < n ==> before[i] == candidates[i];
    if NodeOfPackage(before, name, nodeId) {
      var i :| 0 <= i < n && before[i].view.name == name && before[i].topology.nodeId == nodeId
        && forall k :: i < k < n ==> before[k].view.name != name;
      assert candidates[i].view.name == name && forall k :: i < k < |candidates| ==> candidates[k].view.name != name;
    }
    if NodeOfPackage(candidates, name, nodeId) {
      var i :| 0 <= i < |candidates| && candidates[i].view.name == name && candidates[i].topology.nodeId == nodeId
        && forall k :: i < k < |candidates| ==> candidates[k].view.name != name;
      assert before[i].view.name == name;
    }
  }

  /** The last package that provides the facility. */
  ghost predicate ProviderOf(packages: seq<PackageView>, facility: string, name: string) {
    exists i :: 0 <= i < |packages| && facility in packages[i].facilities && packages[i].name == name
      && forall k :: i < k < |packages| ==> facility !in packages[k].facilities
  }

  lemma {:induction false} OfferedMeans(offers: map<string, string>, facilities: seq<string>, name: string,
                                        facility: string)
    ensures facility in Offered(offers, facilities, name) <==> facility in offers || facility in facilities
    ensures facility in facilities ==> Offered(offers, facilities, name)[facility] == name
    ensures facility !in facilities && facility in offers ==>
      Offered(offers, facilities, name)[facility] == offers[facility]
    decreases |facilities|
  {
    if facilities != [] {
      OfferedMeans(offers[facilities[0] := name], facilities[1..], name, facility);
      assert facilities == [facilities[0]] + facilities[1..];
    }
  }

  lemma {:induction false} ProvidersMean(packages: seq<PackageView>, facility: string, name: string)
    ensures facility in ProviderByFacility(packages) && ProviderByFacility(packages)[facility] == name
      <==> ProviderOf(packages, facility, name)
  {
    if packages != [] {
      var n := |packages| - 1;
      var before := packages[..n];
      ProvidersMean(before, facility, name);
      OfferedMeans(ProviderByFacility(before), packages[n].facilities, packages[n].name, facility);
      assert forall i :: 0 <= i < n ==> before[i] == packages[i];
      if facility !in packages[n].facilities {
        ProviderBefore(packages, facility, name);
      }
    }
  }

  lemma ProviderBefore(packages: seq<PackageView>, facility: string, name: string)
    requires packages != [] && facility !in packages[|packages| - 1].facilities
    ensures ProviderOf(packages, facility, name) <==> ProviderOf(packages[..|packages| - 1], facility, name)
  {
    var n := |packages| - 1;
    var before := packages[..n];
    assert forall i :: 0 <= i < n ==> before[i] == packages[i];
    if ProviderOf(before, facility, name) {
      var i :| 0 <= i < n && facility in before[i].facilities && before[i].name == name
        && forall k :: i < k < n ==> facility !in before[k].facilities;
      assert facility in packages[i].facilities;
      assert forall k :: i < k < |packages| ==> facility !in packages[k].facilities;
    }
    if ProviderOf(packages, facility, name) {
      var i :| 0 <= i < |packages| && facility in packages[i].facilities && packages[i].name == name
        && forall k :: i < k < |packages| ==> facility !in packages[k].facilities;
      assert facility in before[i].facilities;
    }
  }

  /** The consumer's node and the node of the facility's provider. */
  ghost predicate GrantJoins(packages: seq<PackageView>, grant: StoredGrant, from: string, to: string) {
    && NodeOfPackage(Candidates(packages), grant.consumer, from)
    && exists name :: ProviderOf(packages, grant.facilityId, name) && NodeOfPackage(Candidates(packages), name, to)
  }

  lemma GrantEdgeMeans(packages: seq<PackageView>, grant: StoredGrant, from: string, to: string)
    ensures var edge := GrantEdge(grant, NodeIdByPackage(Candidates(packages)), ProviderByFacility(packages));
      && |edge| <= 1 && (edge != [] ==> edge[0].kind == "control")
      && (edge != [] && edge[0].from == from && edge[0].to == to <==> GrantJoins(packages, grant, from, to))
  {
    var nodes, providers := NodeIdByPackage(Candidates(packages)), ProviderByFacility(packages);
    NodesMean(Candidates(packages), grant.consumer, from);
    forall name
      ensures grant.facilityId in providers && providers[grant.facilityId] == name
        <==> ProviderOf(packages, grant.facilityId, name)
      ensures name in nodes && nodes[name] == to <==> NodeOfPackage(Candidates(packages), name, to)
    {
      ProvidersMean(packages, grant.facilityId, name);
      NodesMean(Candidates(packages), name, to);
    }
  }

  lemma {:induction false} GrantEdgesMember(grants: seq<StoredGrant>, nodes: map<string, string>,
                                            providers: map<string, string>, edge: AutoEdge)
    ensures edge in GrantEdges(grants, nodes, providers)
      <==> exists grant :: grant in grants && edge in GrantEdge(grant, nodes, providers)
  {
    if grants != [] {
      GrantEdgesMember(grants[1..], nodes, providers, edge);
      assert grants == [grants[0]] + grants[1..];
    }
  }

  ghost predicate SomeGrantJoins(packages: seq<PackageView>, grants: seq<StoredGrant>, from: string, to: string) {
    exists grant :: grant in grants && GrantJoins(packages, grant, from, to)
  }

  /** The grants give exactly the control edges from the consumer's node to the node of the
      package that provides the facility, where both declare nodes. */
  lemma GrantEdgesMean(packages: seq<PackageView>, grants: seq<StoredGrant>, from: string, to: string)
    ensures (exists edge :: edge in GrantEdgesOf(packages, grants) && edge.from == from && edge.to == to)
      <==> SomeGrantJoins(packages, grants, from, to)
    ensures forall edge :: edge in GrantEdgesOf(packages, grants) ==> edge.kind == "control"
  {
    var nodes, providers := NodeIdByPackage(Candidates(packages)), ProviderByFacility(packages);
    forall edge | edge in GrantEdgesOf(packages, grants)
      ensures edge.kind == "control"
      ensures SomeGrantJoins(packages, grants, edge.from, edge.to)
    {
      GrantEdgesMember(grants, nodes, providers, edge);
      var grant :| grant in grants && edge in GrantEdge(grant, nodes, providers);
      GrantEdgeMeans(packages, grant, edge.from, edge.to);
    }
    if grant :| grant in grants && GrantJoins(packages, grant, from, to) {
      GrantEdgeMeans(packages, grant, from, to);
      var edge := GrantEdge(grant, nodes, providers)[0];
      GrantEdgesMember(grants, nodes, providers, edge);
    }
  }

  // ---------------------------------------------------------------- how an edge is named

  predicate PlainText(s: string) {
    forall i :: 0 <= i < |s| ==>
      'a' <= s[i] <= 'z' || 'A' <= s[i] <= 'Z' || '0' <= s[i] <= '9' || s[i] in "_.-"
  }

  lemma {:induction false} KeptPlain(s: string)
    ensures PlainText(Kept(s)) && (PlainText(s) ==> Kept(s) == s)
  {
    if s != "" {
      KeptPlain(s[1..]);
      assert s == [s[0]] + s[1..];
      assert forall i :: 0 <= i < |s| - 1 ==> s[1..][i] == s[i + 1];
    }
  }

  /** The id of an edge has plain characters only, and between plain end points it is made of
      them and of the kind. */
  lemma EdgeIdMeans(edge: AutoEdge)
    ensures PlainText(EdgeId(edge))
    ensures PlainText(edge.from) && PlainText(edge.to) && PlainText(edge.kind) ==>
      EdgeId(edge) == "e.auto." + edge.from + "--" + edge.to + "--" + edge.kind
  {
    var text := "e.auto." + edge.from + "--" + edge.to + "--" + edge.kind;
    KeptPlain(text);
    if PlainText(edge.from) && PlainText(edge.to) && PlainText(edge.kind) {
      PlainConcat("e.auto.", edge.from);
      PlainConcat("e.auto." + edge.from, "--");
      PlainConcat("e.auto." + edge.from + "--", edge.to);
      PlainConcat("e.auto." + edge.from + "--" + edge.to, "--");
      PlainConcat("e.auto." + edge.from + "--" + edge.to + "--", edge.kind);
    }
  }

  lemma PlainConcat(a: string, b: string)
    requires PlainText(a) && PlainText(b)
    ensures PlainText(a + b)
  {}

  // ---------------------------------------------------------------- what is written

  /** What a new node says of its package. */
  lemma NodeMeans(candidate: Candidate, liveness: map<string, string>)
    ensures var node, view, declared := NewNode(candidate, liveness), candidate.view, candidate.topology.node;
      && node.Object? && TextOr(node.fields, "id", "") == candidate.topology.nodeId
      && TextOr(node.fields, "name", "") == view.name + " (" + SourcePath(view) + ")"
      && TextOr(node.fields, "kind", "") == TextOr(declared, "kind", view.kind)
      && TextOr(node.fields, "source", "") == SourcePath(view)
  {
    DetailsMean(candidate);
    var located := WithText(Details(candidate), "domain", Str(candidate.topology.node, "domain").GetOr("runtime"));
    var running := WithText(located, "runtime", RuntimeOf(liveness, candidate.topology.nodeId));
    KeepsDetails(Details(candidate), "domain", Str(candidate.topology.node, "domain").GetOr("runtime"));
    KeepsDetails(located, "runtime", RuntimeOf(liveness, candidate.topology.nodeId));
    KeepsDetails(running, "id", candidate.topology.nodeId);
  }

  lemma KeepsDetails(record: Record, key: string, text: string)
    requires key in {"id", "runtime", "domain"}
    ensures Str(WithText(record, key, text), "name") == Str(record, "name")
    ensures Str(WithText(record, key, text), "kind") == Str(record, "kind")
    ensures Str(WithText(record, key, text), "source") == Str(record, "source")
    ensures Str(WithText(record, key, text), key) == Some(text)
  {
    assert |"id"| == 2 && |"name"| == 4 && |"kind"| == 4 && |"source"| == 6 && |"domain"| == 6 && |"runtime"| == 7;
    assert "source"[0] != "domain"[0];
    WithTextLookup(record, key, text, "name");
    WithTextLookup(record, key, text, "kind");
    WithTextLookup(record, key, text, "source");
    WithTextLookup(record, key, text, key);
  }

  lemma ShownMeans(name: string, kind: string, source: string)
    ensures Str(Shown(name, kind, source), "name") == Some(name)
    ensures Str(Shown(name, kind, source), "kind") == Some(kind)
    ensures Str(Shown(name, kind, source), "source") == Some(source)
  {
    assert |"name"| == |"kind"| == 4 && "name"[0] != "kind"[0] && |"source"| == 6;
  }

  lemma DetailsMean(candidate: Candidate)
    ensures var details, source := Details(candidate), SourcePath(candidate.view);
      && Str(details, "name") == Some(candidate.view.name + " (" + source + ")")
      && Str(details, "kind") == Some(TextOr(candidate.topology.node, "kind", candidate.view.kind))
      && Str(details, "source") == Some(source)
  {
    var source := SourcePath(candidate.view);
    var name := candidate.view.name + " (" + source + ")";
    var kind := Str(candidate.topology.node, "kind").GetOr(candidate.view.kind);
    var classes := ClassesIf(Classifications(candidate.topology.node));
    var targets := TargetsIf(candidate.topology.egressTargets);
    assert |"classifications"| == 15 && |"egressTargets"| == 13;
    ShownMeans(name, kind, source);
    ExtraKeeps(Shown(name, kind, source), classes);
    ExtraKeeps(Shown(name, kind, source) + classes, targets);
  }

  lemma ExtraKeeps(record: Record, extra: Record)
    requires forall key :: key in extra ==> |key| > 6
    ensures Str(record + extra, "name") == Str(record, "name")
    ensures Str(record + extra, "kind") == Str(record, "kind")
    ensures Str(record + extra, "source") == Str(record, "source")
  {
    assert |"name"| == |"kind"| == 4 && |"source"| == 6;
  }

  /** What the manifest classifies the node as is kept, where it is a text. */
  lemma ClassesMean(declared: Record, key: string)
    ensures key in Classifications(declared)
      <==> key in {"trustZone", "dataClassification", "criticality"} && key in declared && declared[key].Text?
    ensures key in Classifications(declared) ==> Classifications(declared)[key] == declared[key]
  {}

  ghost predicate ExtrasOf(classes: Record, targets: seq<string>, node: Record) {
    && ("classifications" in node <==> classes != map[])
    && ("classifications" in node ==> node["classifications"] == Object(classes))
    && ("egressTargets" in node <==> targets != [])
    && ("egressTargets" in node ==> node["egressTargets"] == Items(TextItems(targets)))
  }

  lemma ExtrasKept(details: Record, domain: string, runtime: string, id: string, key: string)
    requires key !in {"domain", "runtime", "id"}
    ensures var node := WithText(WithText(WithText(details, "domain", domain), "runtime", runtime), "id", id);
      (key in node <==> key in details) && (key in node ==> node[key] == details[key])
  {}

  lemma ExtrasGiven(shown: Record, classes: Record, targets: seq<string>)
    requires "classifications" !in shown && "egressTargets" !in shown
    ensures ExtrasOf(classes, targets, shown + ClassesIf(classes) + TargetsIf(targets))
  {
    assert |"classifications"| == 15 && |"egressTargets"| == 13;
  }

  /** A new node lists its classifications and the targets of its egress, each if there are any. */
  lemma ExtrasMean(candidate: Candidate, liveness: map<string, string>)
    ensures var node, topology := NewNode(candidate, liveness), candidate.topology;
      node.Object? && ExtrasOf(Classifications(topology.node), topology.egressTargets, node.fields)
  {
    var declared, source := candidate.topology.node, SourcePath(candidate.view);
    var name, kind := candidate.view.name + " (" + source + ")", Str(declared, "kind").GetOr(candidate.view.kind);
    assert |"classifications"| == 15 && |"egressTargets"| == 13 && |"domain"| == |"source"| == 6;
    assert |"name"| == |"kind"| == 4 && |"runtime"| == 7 && |"id"| == 2;
    ExtrasGiven(Shown(name, kind, source), Classifications(declared), candidate.topology.egressTargets);
    var domain := Str(declared, "domain").GetOr("runtime");
    var runtime := RuntimeOf(liveness, candidate.topology.nodeId);
    ExtrasKept(Details(candidate), domain, runtime, candidate.topology.nodeId, "classifications");
    ExtrasKept(Details(candidate), domain, runtime, candidate.topology.nodeId, "egressTargets");
  }

  lemma {:induction false} TextItemsMean(texts: seq<string>)
    ensures |TextItems(texts)| == |texts| && forall i :: 0 <= i < |texts| ==> TextItems(texts)[i] == Text(texts[i])
  {
    if texts != [] {
      TextItemsMean(texts[1..]);
    }
  }

  /** The written document: the nodes, edges and domains, a summary of what was added and
      corrected, and all other fields as they were. */
  lemma DocumentMeans(raw: Record, m: Merge, domains: seq<Json>)
    ensures var document := Document(raw, m, domains);
      && List(document, "nodes") == m.nodes && List(document, "edges") == m.edges
      && List(document, "domains") == domains
      && (forall key :: key !in {"nodes", "edges", "domains", "autoRegistration"} ==>
            (key in document <==> key in raw) && (key in raw ==> document[key] == raw[key]))
      && "autoRegistration" in document && document["autoRegistration"].Object?
      && var summary := document["autoRegistration"].fields;
      && List(summary, "nodes") == TextItems(m.addedNodes) && List(summary, "edges") == TextItems(m.addedEdges)
      && "liveness" in summary && summary["liveness"].Object?
      && forall id :: (id in summary["liveness"].fields <==> id in m.liveness)
           && (id in m.liveness ==> summary["liveness"].fields[id] == Text(m.liveness[id]))
  {
    assert |"nodes"| == |"edges"| == 5 && "nodes"[0] != "edges"[0];
    assert |"domains"| == 7 && |"autoRegistration"| == 16 && |"liveness"| == 8;
  }
}
