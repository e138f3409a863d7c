/** The merge of auto-registered packages into the base topology document. */
module Topology {
  import opened Wrappers
  import opened Sequences
  import opened TopologyEdges

  datatype PackageView = PackageView(
    name: string, kind: string, directory: string, facilities: seq<string>, topology: Option<Record>,
    registered: bool, bindings: seq<nat>)

  datatype Candidate = Candidate(view: PackageView, topology: ManifestTopology)

  // ---------------------------------------------------------------- manifests

  function Objects(items: seq<Json>): seq<Record> {
    if items == [] then []
    else (if items[0].Object? then [items[0].fields] else []) + Objects(items[1..])
  }

  function Texts(items: seq<Json>): seq<string> {
    if items == [] then []
    else (if items[0].Text? then [items[0].text] else []) + Texts(items[1..])
  }

  function List(record: Record, key: string): seq<Json> {
    if key in record && record[key].Items? then record[key].items else []
  }

  function DecodeTopology(value: Option<Record>): Option<ManifestTopology> {
    if value.None? || "node" !in value.value || !value.value["node"].Object? then None
    else
      var node := value.value["node"].fields;
      match Str(node, "id")
      case None => None
      case Some(nodeId) =>
        Some(ManifestTopology(node, nodeId, Str(value.value, "dispatch"), Objects(List(value.value, "edges")),
                              Texts(List(value.value, "egressTargets"))))
  }

  function Candidates(packages: seq<PackageView>): seq<Candidate> {
    if packages == [] then []
    else
      (match DecodeTopology(packages[0].topology)
       case None => []
       case Some(topology) => [Candidate(packages[0], topology)]) + Candidates(packages[1..])
  }

  function TotalBindings(counts: seq<nat>): nat {
    if counts == [] then 0 else counts[0] + TotalBindings(counts[1..])
  }

  function ResolveLiveness(view: PackageView): string {
    if view.registered && TotalBindings(view.bindings) > 0 then "live" else "config-gated"
  }

  predicate Occurs(s: string, part: string, i: nat) {
    i + |part| <= |s| && s[i..i + |part|] == part
  }

  lemma OccursEarlier(s: string, part: string)
    requires |part| <= |s| && s != "" && s[|s| - |part|..] != part
    ensures forall i: nat :: Occurs(s, part, i) <==> Occurs(s[..|s| - 1], part, i)
  {
    forall i: nat
      ensures Occurs(s, part, i) <==> Occurs(s[..|s| - 1], part, i)
    {
      assert i + |part| == |s| ==> s[i..i + |part|] == s[|s| - |part|..];
      assert i + |part| < |s| ==> s[i..i + |part|] == s[..|s| - 1][i..i + |part|];
    }
  }

  /** Where the part occurs last. */
  function LastIndexOf(s: string, part: string): (r: Option<nat>)
    ensures r.Some? ==> Occurs(s, part, r.value) && forall i: nat :: Occurs(s, part, i) ==> i <= r.value
    ensures r.None? ==> forall i: nat :: !Occurs(s, part, i)
    decreases |s|
  {
    if |part| > |s| then None
    else if s[|s| - |part|..] == part then Some(|s| - |part|)
    else
      OccursEarlier(s, part);
      LastIndexOf(s[..|s| - 1], part)
  }

  lemma AfterSlash(s: string, part: string, i: nat)
    requires Occurs(s, part, i) && part != "" && part[0] == '/'
    ensures part[1..] <= s[i + 1..] && s[i..] == "/" + s[i + 1..]
  {
    assert s[i + 1..][..|part| - 1] == s[i..i + |part|][1..];
    assert s[i] == s[i..i + |part|][0];
  }

  predicate Located(directory: string, part: string, source: string)
    requires part != ""
  {
    |source| < |directory| && directory[|directory| - |source| - 1..] == "/" + source && part[1..] <= source
  }

  ghost predicate Contains(s: string, part: string) {
    exists i: nat :: Occurs(s, part, i)
  }

  /** The directory from the character after the last slash of that kind. */
  function From(directory: string, part: string): (r: Option<string>)
    requires part != "" && part[0] == '/'
    ensures r.Some? <==> Contains(directory, part)
    ensures r.Some? ==> Located(directory, part, r.value)
  {
    match LastIndexOf(directory, part)
    case None => None
    case Some(i) =>
      AfterSlash(directory, part, i);
      Some(directory[i + 1..])
  }

  /** The source shown for a package. */
  function SourcePath(view: PackageView): string {
    match From(view.directory, "/agents/")
    case Some(source) => source
    case None => From(view.directory, "/skills/").GetOr("skills/" + view.name)
  }

  /** The source is the directory from its agents directory on, else from its skills
      directory on, so nothing before it, the path of the host, enters the document. Without
      either it is made from the name. */
  lemma SourceIsSuffix(view: PackageView, agents: string, skills: string)
    requires agents == "/agents/" && skills == "/skills/"
    ensures
      if Contains(view.directory, agents) then Located(view.directory, agents, SourcePath(view))
      else if Contains(view.directory, skills) then Located(view.directory, skills, SourcePath(view))
      else SourcePath(view) == "skills/" + view.name
  {
    assert From(view.directory, agents).Some? <==> Contains(view.directory, agents);
    assert From(view.directory, skills).Some? <==> Contains(view.directory, skills);
  }

  function Classification(node: Record, key: string): Record {
    if Str(node, key).Some? then map[key := node[key]] else map[]
  }

  function TextItems(texts: seq<string>): seq<Json> {
    if texts == [] then [] else [Text(texts[0])] + TextItems(texts[1..])
  }

  function Classifications(node: Record): Record {
    Classification(node, "trustZone") + Classification(node, "dataClassification") + Classification(node, "criticality")
  }

  function Shown(name: string, kind: string, source: string): Record {
    map["name" := Text(name), "kind" := Text(kind), "source" := Text(source)]
  }

  function ClassesIf(classes: Record): Record {
    if |classes| > 0 then map["classifications" := Object(classes)] else map[]
  }

  function TargetsIf(targets: seq<string>): Record {
    if |targets| > 0 then map["egressTargets" := Items(TextItems(targets))] else map[]
  }

  /** The fields of a new node besides its id, its runtime and its domain. */
  function Details(candidate: Candidate): Record {
    var node, source := candidate.topology.node, SourcePath(candidate.view);
    Shown(candidate.view.name + " (" + source + ")", Str(node, "kind").GetOr(candidate.view.kind), source)
    + ClassesIf(Classifications(node)) + TargetsIf(candidate.topology.egressTargets)
  }

  function WithText(record: Record, key: string, text: string): Record {
    record[key := Text(text)]
  }

  lemma WithTextLookup(record: Record, key: string, text: string, k: string)
    ensures Str(WithText(record, key, text), k) == if k == key then Some(text) else Str(record, k)
    ensures k in WithText(record, key, text) <==> k == key || k in record
  {}

  function BuildNode(candidate: Candidate, runtime: string): (node: Record)
    ensures Str(node, "id") == Some(candidate.topology.nodeId) && Str(node, "runtime") == Some(runtime)
    ensures Str(node, "domain") == Some(Str(candidate.topology.node, "domain").GetOr("runtime"))
  {
    var domain := Str(candidate.topology.node, "domain").GetOr("runtime");
    var located := WithText(Details(candidate), "domain", domain);
    var running := WithText(located, "runtime", runtime);
    assert |"id"| == 2 && |"domain"| == 6 && |"runtime"| == 7;
    WithTextLookup(Details(candidate), "domain", domain, "domain");
    WithTextLookup(located, "runtime", runtime, "runtime");
    WithTextLookup(located, "runtime", runtime, "domain");
    WithTextLookup(running, "id", candidate.topology.nodeId, "id");
    WithTextLookup(running, "id", candidate.topology.nodeId, "runtime");
    WithTextLookup(running, "id", candidate.topology.nodeId, "domain");
    WithText(running, "id", candidate.topology.nodeId)
  }

  // ---------------------------------------------------------------- what an item says

  function IdOf(value: Json): Option<string> {
    if value.Object? then Str(value.fields, "id") else None
  }

  function KeyIn(value: Json): Option<string> {
    if && value.Object?
       && Str(value.fields, "from").Some? && Str(value.fields, "to").Some? && Str(value.fields, "kind").Some?
    then
      Some(EdgeKey(Str(value.fields, "from").value, Str(value.fields, "to").value, Str(value.fields, "kind").value))
    else None
  }

  function Ids(items: seq<Json>): set<string> {
    set v | v in items && IdOf(v).Some? :: IdOf(v).value
  }

  function SetOf(ids: seq<string>): set<string> {
    set id | id in ids
  }

  function Keys(items: seq<Json>): set<string> {
    set v | v in items && KeyIn(v).Some? :: KeyIn(v).value
  }

  function EdgeObject(edge: AutoEdge): (v: Json)
    ensures IdOf(v) == Some(EdgeId(edge)) && KeyIn(v) == Some(KeyOf(edge))
  {
    Object(map["id" := Text(EdgeId(edge)), "from" := Text(edge.from), "to" := Text(edge.to), "kind" := Text(edge.kind),
               "protocol" := Text(edge.protocol), "label" := Text(edge.caption)])
  }

  // ---------------------------------------------------------------- the passes as functions

  function Liveness(candidates: seq<Candidate>): map<string, string> {
    if candidates == [] then map[]
    else
      var before, last := Liveness(candidates[..|candidates| - 1]), candidates[|candidates| - 1];
      if last.topology.nodeId in before && before[last.topology.nodeId] == "live" then before
      else before[last.topology.nodeId := ResolveLiveness(last.view)]
  }

  /** The runtime that the node must get, if it is not what it already has. */
  function Correction(node: Json, liveness: map<string, string>): Option<string> {
    match IdOf(node)
    case None => None
    case Some(id) =>
      if id !in liveness || Str(node.fields, "runtime") == Some(liveness[id]) then None else Some(liveness[id])
  }

  function Corrected(node: Json, liveness: map<string, string>): Json {
    match Correction(node, liveness)
    case None => node
    case Some(runtime) => Object(WithText(node.fields, "runtime", runtime))
  }

  function Corrections(nodes: seq<Json>, liveness: map<string, string>): map<string, string> {
    if nodes == [] then map[]
    else
      var before, last := Corrections(nodes[..|nodes| - 1], liveness), nodes[|nodes| - 1];
      if Correction(last, liveness).Some? then before[IdOf(last).value := Correction(last, liveness).value] else before
  }

  /** What the candidates add to a map that has the given node ids. */
  datatype Growth = Growth(nodes: seq<Json>, ids: seq<string>, pending: seq<AutoEdge>)

  function RuntimeOf(liveness: map<string, string>, nodeId: string): string {
    if nodeId in liveness then liveness[nodeId] else "config-gated"
  }

  function EdgesOf(topology: ManifestTopology): seq<AutoEdge> {
    UniformEdges(topology.nodeId, topology.dispatch) + DeclaredEdges(topology.nodeId, topology.edges)
  }

  function NewNode(candidate: Candidate, liveness: map<string, string>): Json {
    Object(BuildNode(candidate, RuntimeOf(liveness, candidate.topology.nodeId)))
  }

  function GrownBy(known: set<string>, g: Growth, last: Candidate, liveness: map<string, string>): Growth {
    var nodeId := last.topology.nodeId;
    if nodeId in known || nodeId in g.ids then g
    else Growth(g.nodes + [NewNode(last, liveness)], g.ids + [nodeId], g.pending + EdgesOf(last.topology))
  }

  function Grown(known: set<string>, candidates: seq<Candidate>, liveness: map<string, string>): Growth {
    if candidates == [] then Growth([], [], [])
    else
      GrownBy(known, Grown(known, candidates[..|candidates| - 1], liveness), candidates[|candidates| - 1], liveness)
  }

  datatype Linking = Linking(keys: set<string>, ids: set<string>, added: seq<Json>, addedIds: seq<string>)

  predicate Dangling(edge: AutoEdge, nodeIds: set<string>) {
    edge.from !in nodeIds || edge.to !in nodeIds
  }

  /** The key is taken before the id is looked at. */
  function LinkedBy(l: Linking, nodeIds: set<string>, edge: AutoEdge): Linking {
    if Dangling(edge, nodeIds) || KeyOf(edge) in l.keys then l
    else if EdgeId(edge) in l.ids then l.(keys := l.keys + {KeyOf(edge)})
    else
      Linking(l.keys + {KeyOf(edge)}, l.ids + {EdgeId(edge)}, l.added + [EdgeObject(edge)], l.addedIds + [EdgeId(edge)])
  }

  function Linked(edges: seq<Json>, nodeIds: set<string>, pending: seq<AutoEdge>): Linking {
    if pending == [] then Linking(Keys(edges), Ids(edges), [], [])
    else LinkedBy(Linked(edges, nodeIds, pending[..|pending| - 1]), nodeIds, pending[|pending| - 1])
  }

  /** The first node with the id. */
  function Find(nodes: seq<Json>, id: string): Option<Json> {
    if nodes == [] then None else if IdOf(nodes[0]) == Some(id) then Some(nodes[0]) else Find(nodes[1..], id)
  }

  function DomainOf(nodes: seq<Json>, id: string): Option<string> {
    match Find(nodes, id)
    case Some(Object(fields)) => Str(fields, "domain")
    case _ => None
  }

  /** upper gives the capital of a character. */
  function NewDomain(upper: char -> string, domain: string): (v: Json)
    ensures IdOf(v) == Some(domain)
  {
    Object(map["id" := Text(domain),
               "title" := Text(if domain == "" then "" else upper(domain[0]) + domain[1..])])
  }

  function Extended(upper: char -> string, domains: seq<Json>, nodes: seq<Json>, added: seq<string>): seq<Json> {
    if added == [] then domains
    else
      var before, domain := Extended(upper, domains, nodes, added[..|added| - 1]), DomainOf(nodes, added[|added| - 1]);
      if domain.None? || domain.value in Ids(before) then before else before + [NewDomain(upper, domain.value)]
  }

  // ---------------------------------------------------------------- the passes as loops

  lemma TakeOneMore<T>(s: seq<T>, i: nat)
    requires i < |s|
    ensures s[..i + 1][..|s[..i + 1]| - 1] == s[..i] && s[..i + 1][|s[..i + 1]| - 1] == s[i]
  {}

  lemma GrownNext(known: set<string>, candidates: seq<Candidate>, liveness: map<string, string>, i: nat)
    requires i < |candidates|
    ensures Grown(known, candidates[..i + 1], liveness)
         == GrownBy(known, Grown(known, candidates[..i], liveness), candidates[i], liveness)
  {
    TakeOneMore(candidates, i);
  }

  lemma SetOfAppend(known: set<string>, ids: seq<string>, id: string)
    ensures known + SetOf(ids + [id]) == known + SetOf(ids) + {id}
  {}

  lemma GrownByState(known: set<string>, nodes: seq<Json>, g: Growth, last: Candidate, liveness: map<string, string>)
    ensures var h, nodeId := GrownBy(known, g, last, liveness), last.topology.nodeId;
      if nodeId in known + SetOf(g.ids) then h == g
      else
        && nodes + h.nodes == nodes + g.nodes + [NewNode(last, liveness)] && h.ids == g.ids + [nodeId]
        && known + SetOf(h.ids) == known + SetOf(g.ids) + {nodeId} && h.pending == g.pending + EdgesOf(last.topology)
  {
    SetOfAppend(known, g.ids, last.topology.nodeId);
    Regroup(nodes, g.nodes, [NewNode(last, liveness)]);
  }

  lemma IdsAppend(items: seq<Json>, v: Json)
    ensures Ids(items + [v]) == Ids(items) + (if IdOf(v).Some? then {IdOf(v).value} else {})
    ensures Keys(items + [v]) == Keys(items) + (if KeyIn(v).Some? then {KeyIn(v).value} else {})
  {}

  method ResolvedLiveness(candidates: seq<Candidate>) returns (liveness: map<string, string>)
    ensures liveness == Liveness(candidates)
  {
    liveness := map[];
    for i := 0 to |candidates|
      invariant liveness == Liveness(candidates[..i])
    {
      TakeOneMore(candidates, i);
      var nodeId := candidates[i].topology.nodeId;
      if !(nodeId in liveness && liveness[nodeId] == "live") {
        liveness := liveness[nodeId := ResolveLiveness(candidates[i].view)];
      }
    }
    assert candidates[..|candidates|] == candidates;
  }

  class MergeState {
    var nodesOut: seq<Json>
    var edgesOut: seq<Json>
    var nodeIds: set<string>
    var addedNodes: seq<string>
    var addedEdges: seq<string>
    var liveness: map<string, string>

    constructor (nodes: seq<Json>, edges: seq<Json>)
      ensures nodesOut == nodes && edgesOut == edges && nodeIds == Ids(nodes)
      ensures addedNodes == [] && addedEdges == [] && liveness == map[]
    {
      nodesOut, edgesOut, nodeIds := nodes, edges, Ids(nodes);
      addedNodes, addedEdges, liveness := [], [], map[];
    }

    method ApplyLiveness(resolved: map<string, string>)
      requires liveness == map[]
      modifies this`nodesOut, this`liveness
      ensures |nodesOut| == |old(nodesOut)|
      ensures forall i :: 0 <= i < |nodesOut| ==> nodesOut[i] == Corrected(old(nodesOut)[i], resolved)
      ensures liveness == Corrections(old(nodesOut), resolved)
    {
      ghost var before := nodesOut;
      for index := 0 to |nodesOut|
        invariant |nodesOut| == |before|
        invariant forall i :: 0 <= i < index ==> nodesOut[i] == Corrected(before[i], resolved)
        invariant forall i :: index <= i < |before| ==> nodesOut[i] == before[i]
        invariant liveness == Corrections(before[..index], resolved)
      {
        TakeOneMore(before, index);
        var node := nodesOut[index];
        var id := IdOf(node);
        if id.Some? && id.value in resolved && Str(node.fields, "runtime") != Some(resolved[id.value]) {
          nodesOut := nodesOut[index := Object(WithText(node.fields, "runtime", resolved[id.value]))];
          liveness := liveness[id.value := resolved[id.value]];
        }
      }
      assert before[..|before|] == before;
    }

    method AddNode(candidate: Candidate, resolved: map<string, string>) returns (edges: seq<AutoEdge>)
      modifies this`nodesOut, this`nodeIds, this`addedNodes
      ensures candidate.topology.nodeId in old(nodeIds) ==>
        nodesOut == old(nodesOut) && nodeIds == old(nodeIds) && addedNodes == old(addedNodes) && edges == []
      ensures candidate.topology.nodeId !in old(nodeIds) ==>
        && nodesOut == old(nodesOut) + [NewNode(candidate, resolved)]
        && nodeIds == old(nodeIds) + {candidate.topology.nodeId}
        && addedNodes == old(addedNodes) + [candidate.topology.nodeId] && edges == EdgesOf(candidate.topology)
    {
      var nodeId := candidate.topology.nodeId;
      if nodeId in nodeIds {
        return [];
      }
      var node := NewNode(candidate, resolved);
      nodesOut := nodesOut + [node];
      nodeIds := nodeIds + {nodeId};
      addedNodes := addedNodes + [nodeId];
      edges := EdgesOf(candidate.topology);
    }

    method AddNodes(candidates: seq<Candidate>, resolved: map<string, string>) returns (pending: seq<AutoEdge>)
      requires addedNodes == []
      modifies this`nodesOut, this`nodeIds, this`addedNodes
      ensures var g := Grown(old(nodeIds), candidates, resolved);
        && nodesOut == old(nodesOut) + g.nodes && addedNodes == g.ids && pending == g.pending
        && nodeIds == old(nodeIds) + SetOf(g.ids)
    {
      pending := [];
      for i := 0 to |candidates|
        invariant var g := Grown(old(nodeIds), candidates[..i], resolved);
          && nodesOut == old(nodesOut) + g.nodes && addedNodes == g.ids && pending == g.pending
          && nodeIds == old(nodeIds) + SetOf(g.ids)
      {
        GrownNext(old(nodeIds), candidates, resolved, i);
        ghost var g := Grown(old(nodeIds), candidates[..i], resolved);
        GrownByState(old(nodeIds), old(nodesOut), g, candidates[i], resolved);
        var edges := AddNode(candidates[i], resolved);
        pending := pending + edges;
      }
      assert candidates[..|candidates|] == candidates;
    }

    method AddEdges(pending: seq<AutoEdge>)
      requires addedEdges == []
      modifies this`edgesOut, this`addedEdges
      ensures var l := Linked(old(edgesOut), nodeIds, pending);
        edgesOut == old(edgesOut) + l.added && addedEdges == l.addedIds
    {
      var keys, ids := Keys(edgesOut), Ids(edgesOut);
      for i := 0 to |pending|
        invariant var l := Linked(old(edgesOut), nodeIds, pending[..i]);
          && edgesOut == old(edgesOut) + l.added && addedEdges == l.addedIds && keys == l.keys && ids == l.ids
      {
        TakeOneMore(pending, i);
        var edge := pending[i];
        if !Dangling(edge, nodeIds) && KeyOf(edge) !in keys {
          keys := keys + {KeyOf(edge)};
          if EdgeId(edge) !in ids {
            ids := ids + {EdgeId(edge)};
            edgesOut := edgesOut + [EdgeObject(edge)];
            addedEdges := addedEdges + [EdgeId(edge)];
          }
        }
      }
      assert pending[..|pending|] == pending;
    }

    method AddMissingDomains(upper: char -> string, domains: seq<Json>) returns (out: seq<Json>)
      ensures out == Extended(upper, domains, nodesOut, addedNodes)
    {
      var known := Ids(domains);
      out := domains;
      for i := 0 to |addedNodes|
        invariant out == Extended(upper, domains, nodesOut, addedNodes[..i]) && known == Ids(out)
      {
        TakeOneMore(addedNodes, i);
        var domain := DomainOf(nodesOut, addedNodes[i]);
        if domain.Some? && domain.value !in known {
          IdsAppend(out, NewDomain(upper, domain.value));
          known := known + {domain.value};
          out := out + [NewDomain(upper, domain.value)];
        }
      }
      assert addedNodes[..|addedNodes|] == addedNodes;
    }
  }
}
