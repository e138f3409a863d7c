/** The merge as a whole: what it keeps of the base document, what it adds, and when merging
    again changes nothing. */
module TopologyMerge {
  import opened Wrappers
  import opened Sequences
  import opened TopologyEdges
  import opened Topology

  /** JSON.parse, JSON.stringify and the capital of a character. */
  datatype Codec = Codec(parse: string -> Option<Json>, stringify: Json -> string, upper: char -> string)

  ghost predicate RoundTrip(codec: Codec) {
    forall v :: codec.parse(codec.stringify(v)) == Some(v)
  }

  // ---------------------------------------------------------------- the merge

  function NodeIdByPackage(candidates: seq<Candidate>): map<string, string> {
    if candidates == [] then map[]
    else
      var last := candidates[|candidates| - 1];
      NodeIdByPackage(candidates[..|candidates| - 1])[last.view.name := last.topology.nodeId]
  }

  function Offered(offers: map<string, string>, facilities: seq<string>, name: string): map<string, string>
    decreases facilities
  {
    if facilities == [] then offers else Offered(offers[facilities[0] := name], facilities[1..], name)
  }

  function ProviderByFacility(packages: seq<PackageView>): map<string, string> {
    if packages == [] then map[]
    else
      var last := packages[|packages| - 1];
      Offered(ProviderByFacility(packages[..|packages| - 1]), last.facilities, last.name)
  }

  function GrantEdgesOf(packages: seq<PackageView>, grants: seq<StoredGrant>): seq<AutoEdge> {
    GrantEdges(grants, NodeIdByPackage(Candidates(packages)), ProviderByFacility(packages))
  }

  function CorrectedAll(nodes: seq<Json>, liveness: map<string, string>): (all: seq<Json>)
    ensures |all| == |nodes| && forall i :: 0 <= i < |nodes| ==> all[i] == Corrected(nodes[i], liveness)
  {
    if nodes == [] then [] else [Corrected(nodes[0], liveness)] + CorrectedAll(nodes[1..], liveness)
  }

  datatype Merge = Merge(nodes: seq<Json>, edges: seq<Json>, addedNodes: seq<string>, addedEdges: seq<string>,
                         liveness: map<string, string>) {
    predicate Changed() {
      addedNodes != [] || addedEdges != [] || liveness != map[]
    }
  }

  function MergeOf(raw: Record, packages: seq<PackageView>, grants: seq<StoredGrant>): Merge {
    var nodes, edges, candidates := List(raw, "nodes"), List(raw, "edges"), Candidates(packages);
    var liveness := Liveness(candidates);
    var g := Grown(Ids(nodes), candidates, liveness);
    var l := Linked(edges, Ids(nodes) + SetOf(g.ids), g.pending + GrantEdgesOf(packages, grants));
    Merge(CorrectedAll(nodes, liveness) + g.nodes, edges + l.added, g.ids, l.addedIds, Corrections(nodes, liveness))
  }

  function TextFields(texts: map<string, string>): Record {
    map k | k in texts :: Text(texts[k])
  }

  function Summary(m: Merge): Json {
    Object(map["nodes" := Items(TextItems(m.addedNodes)), "edges" := Items(TextItems(m.addedEdges)),
               "liveness" := Object(TextFields(m.liveness))])
  }

  function Document(raw: Record, m: Merge, domains: seq<Json>): Record {
    raw["domains" := Items(domains)]["autoRegistration" := Summary(m)]
       ["edges" := Items(m.edges)]["nodes" := Items(m.nodes)]
  }

  function Merged(codec: Codec, base: string, packages: seq<PackageView>, grants: seq<StoredGrant>): string {
    match codec.parse(base)
    case Some(Object(raw)) =>
      var m := MergeOf(raw, packages, grants);
      if m.Changed() then
        codec.stringify(Object(Document(raw, m, Extended(codec.upper, List(raw, "domains"), m.nodes, m.addedNodes))))
      else base
    case _ => base
  }

  /** The passes, one after the other, on a state of their own. */
  method RunPasses(raw: Record, packages: seq<PackageView>, grants: seq<StoredGrant>)
    returns (state: MergeState, m: Merge)
    ensures fresh(state) && m == MergeOf(raw, packages, grants)
    ensures state.nodesOut == m.nodes && state.addedNodes == m.addedNodes
  {
    var candidates := Candidates(packages);
    state := new MergeState(List(raw, "nodes"), List(raw, "edges"));
    var liveness := ResolvedLiveness(candidates);
    state.ApplyLiveness(liveness);
    assert state.nodesOut == CorrectedAll(List(raw, "nodes"), liveness);
    var pending := state.AddNodes(candidates, liveness);
    state.AddEdges(pending + GrantEdgesOf(packages, grants));
    m := Merge(state.nodesOut, state.edgesOut, state.addedNodes, state.addedEdges, state.liveness);
  }

  method MergeTopology(codec: Codec, base: string, packages: seq<PackageView>, grants: seq<StoredGrant>)
    returns (merged: string)
    ensures merged == Merged(codec, base, packages, grants)
  {
    var parsed := codec.parse(base);
    if parsed.None? || !parsed.value.Object? {
      return base;
    }
    var raw := parsed.value.fields;
    var state, m := RunPasses(raw, packages, grants);
    if !m.Changed() {
      return base;
    }
    var domains := state.AddMissingDomains(codec.upper, List(raw, "domains"));
    merged := codec.stringify(Object(Document(raw, m, domains)));
  }

  // ---------------------------------------------------------------- nodes

  ghost predicate Declares(candidates: seq<Candidate>, id: string) {
    exists i :: 0 <= i < |candidates| && candidates[i].topology.nodeId == id
  }

  ghost predicate DeclaresLive(candidates: seq<Candidate>, id: string) {
    exists i :: 0 <= i < |candidates| && IsLive(candidates[i], id)
  }

  predicate IsLive(candidate: Candidate, id: string) {
    candidate.topology.nodeId == id && ResolveLiveness(candidate.view) == "live"
  }

  lemma DeclaresNext(candidates: seq<Candidate>, id: string)
    requires candidates != []
    ensures var before, last := candidates[..|candidates| - 1], candidates[|candidates| - 1];
      && (Declares(candidates, id) <==> Declares(before, id) || last.topology.nodeId == id)
      && (DeclaresLive(candidates, id) <==> DeclaresLive(before, id) || IsLive(last, id))
  {
    assert forall i :: 0 <= i < |candidates| - 1 ==> candidates[..|candidates| - 1][i] == candidates[i];
  }

  /** Liveness decides exactly the nodes that packages declare: one live registration is
      enough for a node to read as live. */
  lemma {:induction false} LivenessExact(candidates: seq<Candidate>, id: string)
    ensures id in Liveness(candidates) <==> Declares(candidates, id)
    ensures id in Liveness(candidates) ==>
      Liveness(candidates)[id] == if DeclaresLive(candidates, id) then "live" else "config-gated"
  {
    if candidates != [] {
      LivenessExact(candidates[..|candidates| - 1], id);
      DeclaresNext(candidates, id);
    }
  }

  lemma CorrectedSettles(node: Json, liveness: map<string, string>)
    ensures IdOf(Corrected(node, liveness)) == IdOf(node)
    ensures Correction(Corrected(node, liveness), liveness) == None
    ensures Corrected(node, liveness) != node ==>
      && node.Object? && IdOf(node).Some? && IdOf(node).value in liveness
      && Corrected(node, liveness) == Object(node.fields["runtime" := Text(liveness[IdOf(node).value])])
  {}

  lemma {:induction false} SettledNeedNothing(nodes: seq<Json>, liveness: map<string, string>)
    requires forall i :: 0 <= i < |nodes| ==> Correction(nodes[i], liveness) == None
    ensures Corrections(nodes, liveness) == map[]
  {
    if nodes != [] {
      SettledNeedNothing(nodes[..|nodes| - 1], liveness);
    }
  }

  /** The added nodes have the recorded ids, which are new and distinct, and the runtime that
      liveness wants. */
  ghost predicate GrowthOk(known: set<string>, g: Growth, liveness: map<string, string>) {
    && |g.nodes| == |g.ids|
    && (forall i :: 0 <= i < |g.ids| ==> g.ids[i] !in known && NodeOk(g.nodes[i], g.ids[i], liveness))
    && forall i, k :: 0 <= i < k < |g.ids| ==> g.ids[i] != g.ids[k]
  }

  predicate NodeOk(node: Json, id: string, liveness: map<string, string>) {
    IdOf(node) == Some(id) && Correction(node, liveness) == None
  }

  lemma NewNodeOk(candidate: Candidate, liveness: map<string, string>)
    ensures NodeOk(NewNode(candidate, liveness), candidate.topology.nodeId, liveness)
  {}

  lemma GrowthAppend(known: set<string>, g: Growth, h: Growth, node: Json, id: string, liveness: map<string, string>)
    requires GrowthOk(known, g, liveness) && id !in known && id !in g.ids && NodeOk(node, id, liveness)
    requires h.nodes == g.nodes + [node] && h.ids == g.ids + [id]
    ensures GrowthOk(known, h, liveness)
  {}

  lemma GrownByOk(known: set<string>, g: Growth, last: Candidate, liveness: map<string, string>)
    requires GrowthOk(known, g, liveness)
    ensures GrowthOk(known, GrownBy(known, g, last, liveness), liveness)
  {
    var h := GrownBy(known, g, last, liveness);
    if h != g {
      NewNodeOk(last, liveness);
      GrowthAppend(known, g, h, NewNode(last, liveness), last.topology.nodeId, liveness);
    }
  }

  lemma {:induction false} GrownOk(known: set<string>, candidates: seq<Candidate>, liveness: map<string, string>)
    ensures GrowthOk(known, Grown(known, candidates, liveness), liveness)
  {
    if candidates != [] {
      var n := |candidates| - 1;
      GrownOk(known, candidates[..n], liveness);
      GrownByOk(known, Grown(known, candidates[..n], liveness), candidates[n], liveness);
    }
  }

  predicate OnMap(known: set<string>, g: Growth, id: string) {
    id in known || id in g.ids
  }

  lemma GrownByKeeps(known: set<string>, g: Growth, last: Candidate, liveness: map<string, string>, id: string)
    ensures var h := GrownBy(known, g, last, liveness);
      OnMap(known, h, last.topology.nodeId) && (OnMap(known, g, id) ==> OnMap(known, h, id))
  {}

  lemma {:induction false} GrownCoversUpTo(known: set<string>, candidates: seq<Candidate>,
                                           liveness: map<string, string>, i: nat, n: nat)
    requires i < n <= |candidates|
    ensures OnMap(known, Grown(known, candidates[..n], liveness), candidates[i].topology.nodeId)
    decreases n
  {
    GrownNext(known, candidates, liveness, n - 1);
    var g, nodeId := Grown(known, candidates[..n - 1], liveness), candidates[i].topology.nodeId;
    GrownByKeeps(known, g, candidates[n - 1], liveness, nodeId);
    if i < n - 1 {
      GrownCoversUpTo(known, candidates, liveness, i, n - 1);
    }
  }

  /** In the end every declared node is on the map. */
  lemma {:induction false} GrownCovers(known: set<string>, candidates: seq<Candidate>, liveness: map<string, string>,
                                       i: nat)
    requires i < |candidates|
    ensures OnMap(known, Grown(known, candidates, liveness), candidates[i].topology.nodeId)
  {
    assert candidates[..|candidates|] == candidates;
    GrownCoversUpTo(known, candidates, liveness, i, |candidates|);
  }

  lemma {:induction false} NothingToGrow(known: set<string>, candidates: seq<Candidate>, liveness: map<string, string>)
    requires forall i :: 0 <= i < |candidates| ==> candidates[i].topology.nodeId in known
    ensures Grown(known, candidates, liveness) == Growth([], [], [])
  {
    if candidates != [] {
      NothingToGrow(known, candidates[..|candidates| - 1], liveness);
    }
  }

  lemma IdsConcat(a: seq<Json>, b: seq<Json>)
    ensures Ids(a + b) == Ids(a) + Ids(b) && Keys(a + b) == Keys(a) + Keys(b)
  {}

  lemma CorrectedIds(nodes: seq<Json>, liveness: map<string, string>)
    ensures Ids(CorrectedAll(nodes, liveness)) == Ids(nodes)
  {
    var all := CorrectedAll(nodes, liveness);
    forall i | 0 <= i < |nodes| ensures IdOf(all[i]) == IdOf(nodes[i]) && all[i] in all && nodes[i] in nodes {
      CorrectedSettles(nodes[i], liveness);
    }
  }

  lemma GrownNodeIds(known: set<string>, g: Growth, liveness: map<string, string>)
    requires GrowthOk(known, g, liveness)
    ensures Ids(g.nodes) == SetOf(g.ids)
  {}

  // ---------------------------------------------------------------- edges

  predicate Anchored(edge: Json, nodeIds: set<string>) {
    && edge.Object?
    && Str(edge.fields, "from").Some? && Str(edge.fields, "from").value in nodeIds
    && Str(edge.fields, "to").Some? && Str(edge.fields, "to").value in nodeIds
  }

  ghost predicate Fresh(edges: seq<Json>, k: nat)
    requires k < |edges|
  {
    IdOf(edges[k]).Some? && KeyIn(edges[k]).Some?
    && forall i :: 0 <= i < k ==> IdOf(edges[i]) != IdOf(edges[k]) && KeyIn(edges[i]) != KeyIn(edges[k])
  }

  /** The two indexes cover the edges so far, and each added edge joins two nodes and has an
      id and a key that no earlier edge has. */
  ghost predicate LinkingOk(edges: seq<Json>, nodeIds: set<string>, l: Linking) {
    && l.ids == Ids(edges + l.added) && Keys(edges + l.added) <= l.keys && |l.addedIds| == |l.added|
    && forall k :: 0 <= k < |l.added| ==>
         IdOf(l.added[k]) == Some(l.addedIds[k]) && Anchored(l.added[k], nodeIds) && Fresh(edges + l.added, |edges| + k)
  }

  lemma FreshLast(edges: seq<Json>, v: Json)
    requires IdOf(v).Some? && KeyIn(v).Some? && IdOf(v).value !in Ids(edges) && KeyIn(v).value !in Keys(edges)
    ensures Fresh(edges + [v], |edges|)
  {}

  lemma FreshStays(edges: seq<Json>, v: Json, k: nat)
    requires k < |edges| && Fresh(edges, k)
    ensures Fresh(edges + [v], k)
  {}

  lemma EdgeAnchored(edge: AutoEdge, nodeIds: set<string>)
    requires !Dangling(edge, nodeIds)
    ensures Anchored(EdgeObject(edge), nodeIds)
  {}

  lemma AddedOk(edges: seq<Json>, nodeIds: set<string>, l: Linking, edge: AutoEdge)
    requires LinkingOk(edges, nodeIds, l)
    requires !Dangling(edge, nodeIds) && KeyOf(edge) !in l.keys && EdgeId(edge) !in l.ids
    ensures LinkingOk(edges, nodeIds, LinkedBy(l, nodeIds, edge))
  {
    var m, v, before := LinkedBy(l, nodeIds, edge), EdgeObject(edge), edges + l.added;
    Regroup(edges, l.added, [v]);
    IdsAppend(before, v);
    FreshLast(before, v);
    EdgeAnchored(edge, nodeIds);
    forall k | 0 <= k < |m.added|
      ensures IdOf(m.added[k]) == Some(m.addedIds[k]) && Anchored(m.added[k], nodeIds)
      ensures Fresh(edges + m.added, |edges| + k)
    {
      if k < |l.added| {
        FreshStays(before, v, |edges| + k);
      }
    }
  }

  lemma {:induction false} LinkedOk(edges: seq<Json>, nodeIds: set<string>, pending: seq<AutoEdge>)
    ensures LinkingOk(edges, nodeIds, Linked(edges, nodeIds, pending))
  {
    if pending == [] {
      assert edges + [] == edges;
    } else {
      var n := |pending| - 1;
      LinkedOk(edges, nodeIds, pending[..n]);
      LinkedByOk(edges, nodeIds, Linked(edges, nodeIds, pending[..n]), pending[n]);
    }
  }

  lemma LinkedByOk(edges: seq<Json>, nodeIds: set<string>, l: Linking, edge: AutoEdge)
    requires LinkingOk(edges, nodeIds, l)
    ensures LinkingOk(edges, nodeIds, LinkedBy(l, nodeIds, edge))
  {
    if !Dangling(edge, nodeIds) && KeyOf(edge) !in l.keys && EdgeId(edge) !in l.ids {
      AddedOk(edges, nodeIds, l, edge);
    }
  }

  // ---------------------------------------------------------------- which edges are added

  /** The edge does not dangle, and neither the document nor an earlier edge that does not
      dangle has its key: the edge whose id is looked at. */
  predicate Considered(edges: seq<Json>, nodeIds: set<string>, pending: seq<AutoEdge>, i: nat)
    requires i < |pending|
  {
    && !Dangling(pending[i], nodeIds) && KeyOf(pending[i]) !in Keys(edges)
    && forall k :: 0 <= k < i ==> Dangling(pending[k], nodeIds) || KeyOf(pending[k]) != KeyOf(pending[i])
  }

  /** Besides, no edge before it has its id: the edge is added. */
  predicate Placed(edges: seq<Json>, nodeIds: set<string>, pending: seq<AutoEdge>, i: nat)
    requires i < |pending|
  {
    && Considered(edges, nodeIds, pending, i) && EdgeId(pending[i]) !in Ids(edges)
    && forall k :: 0 <= k < i && Considered(edges, nodeIds, pending, k) ==> EdgeId(pending[k]) != EdgeId(pending[i])
  }

  lemma PrefixAlike(edges: seq<Json>, nodeIds: set<string>, pending: seq<AutoEdge>, n: nat, i: nat)
    requires i < n <= |pending|
    ensures Considered(edges, nodeIds, pending[..n], i) == Considered(edges, nodeIds, pending, i)
    ensures Placed(edges, nodeIds, pending[..n], i) == Placed(edges, nodeIds, pending, i)
  {
    assert forall k :: 0 <= k <= i ==> pending[..n][k] == pending[k];
    assert forall k :: 0 <= k <= i ==>
      Considered(edges, nodeIds, pending[..n], k) == Considered(edges, nodeIds, pending, k);
  }

  lemma {:induction false} KeysExact(edges: seq<Json>, nodeIds: set<string>, pending: seq<AutoEdge>, key: string)
    ensures key in Linked(edges, nodeIds, pending).keys
      <==> key in Keys(edges)
           || exists k :: 0 <= k < |pending| && !Dangling(pending[k], nodeIds) && KeyOf(pending[k]) == key
  {
    if pending != [] {
      var n := |pending| - 1;
      KeysExact(edges, nodeIds, pending[..n], key);
      assert forall k :: 0 <= k < n ==> pending[..n][k] == pending[k];
    }
  }

  lemma ConsideredLast(edges: seq<Json>, nodeIds: set<string>, pending: seq<AutoEdge>, n: nat)
    requires n < |pending|
    ensures Considered(edges, nodeIds, pending, n)
      <==> !Dangling(pending[n], nodeIds) && KeyOf(pending[n]) !in Linked(edges, nodeIds, pending[..n]).keys
  {
    KeysExact(edges, nodeIds, pending[..n], KeyOf(pending[n]));
    assert forall k :: 0 <= k < n ==> pending[..n][k] == pending[k];
  }

  lemma {:induction false} IdsExact(edges: seq<Json>, nodeIds: set<string>, pending: seq<AutoEdge>, id: string)
    ensures id in Linked(edges, nodeIds, pending).ids
      <==> id in Ids(edges)
           || exists k :: 0 <= k < |pending| && Considered(edges, nodeIds, pending, k) && EdgeId(pending[k]) == id
  {
    if pending != [] {
      var n := |pending| - 1;
      IdsExact(edges, nodeIds, pending[..n], id);
      ConsideredLast(edges, nodeIds, pending, n);
      forall k | 0 <= k < n
        ensures Considered(edges, nodeIds, pending[..n], k) == Considered(edges, nodeIds, pending, k)
        ensures pending[..n][k] == pending[k]
      {
        PrefixAlike(edges, nodeIds, pending, n, k);
      }
    }
  }

  lemma PlacedLast(edges: seq<Json>, nodeIds: set<string>, pending: seq<AutoEdge>, n: nat)
    requires n < |pending|
    ensures var l := Linked(edges, nodeIds, pending[..n]);
      Placed(edges, nodeIds, pending, n)
      <==> !Dangling(pending[n], nodeIds) && KeyOf(pending[n]) !in l.keys && EdgeId(pending[n]) !in l.ids
  {
    ConsideredLast(edges, nodeIds, pending, n);
    IdsExact(edges, nodeIds, pending[..n], EdgeId(pending[n]));
    forall k | 0 <= k < n
      ensures Considered(edges, nodeIds, pending[..n], k) == Considered(edges, nodeIds, pending, k)
      ensures pending[..n][k] == pending[k]
    {
      PrefixAlike(edges, nodeIds, pending, n, k);
    }
  }

  /** Exactly the placed edges are added. */
  lemma {:induction false} AddedExact(edges: seq<Json>, nodeIds: set<string>, pending: seq<AutoEdge>, v: Json)
    ensures v in Linked(edges, nodeIds, pending).added
      <==> exists k :: 0 <= k < |pending| && Placed(edges, nodeIds, pending, k) && EdgeObject(pending[k]) == v
  {
    if pending != [] {
      var n := |pending| - 1;
      AddedExact(edges, nodeIds, pending[..n], v);
      PlacedLast(edges, nodeIds, pending, n);
      forall k | 0 <= k < n
        ensures Placed(edges, nodeIds, pending[..n], k) == Placed(edges, nodeIds, pending, k)
        ensures pending[..n][k] == pending[k]
      {
        PrefixAlike(edges, nodeIds, pending, n, k);
      }
    }
  }

  /** The edge would not be added to these edges. */
  predicate Covered(edges: seq<Json>, nodeIds: set<string>, edge: AutoEdge) {
    Dangling(edge, nodeIds) || KeyOf(edge) in Keys(edges) || EdgeId(edge) in Ids(edges)
  }

  /** The same of the edges as they are after the pending ones, in terms of those before. */
  ghost predicate CoveredLater(edges: seq<Json>, nodeIds: set<string>, pending: seq<AutoEdge>, edge: AutoEdge) {
    || Covered(edges, nodeIds, edge)
    || (exists k :: 0 <= k < |pending| && Placed(edges, nodeIds, pending, k) && KeyOf(pending[k]) == KeyOf(edge))
    || exists k :: 0 <= k < |pending| && Considered(edges, nodeIds, pending, k) && EdgeId(pending[k]) == EdgeId(edge)
  }

  lemma CoveredExact(edges: seq<Json>, nodeIds: set<string>, pending: seq<AutoEdge>, edge: AutoEdge)
    ensures Covered(edges + Linked(edges, nodeIds, pending).added, nodeIds, edge)
      <==> CoveredLater(edges, nodeIds, pending, edge)
  {
    LinkedOk(edges, nodeIds, pending);
    IdsExact(edges, nodeIds, pending, EdgeId(edge));
    AddedKeys(edges, nodeIds, pending, KeyOf(edge));
  }

  lemma AddedKeys(edges: seq<Json>, nodeIds: set<string>, pending: seq<AutoEdge>, key: string)
    ensures key in Keys(edges + Linked(edges, nodeIds, pending).added)
      <==> key in Keys(edges)
           || exists k :: 0 <= k < |pending| && Placed(edges, nodeIds, pending, k) && KeyOf(pending[k]) == key
  {
    var added := Linked(edges, nodeIds, pending).added;
    IdsConcat(edges, added);
    if key in Keys(added) {
      var v :| v in added && KeyIn(v) == Some(key);
      AddedExact(edges, nodeIds, pending, v);
    }
    if k :| 0 <= k < |pending| && Placed(edges, nodeIds, pending, k) && KeyOf(pending[k]) == key {
      AddedExact(edges, nodeIds, pending, EdgeObject(pending[k]));
      assert KeyIn(EdgeObject(pending[k])) == Some(key);
    }
  }

  /** Edges with equal keys have equal ids. End points without the separator are enough for
      it. */
  ghost predicate KeysDecideIds(pending: seq<AutoEdge>) {
    forall i, k :: 0 <= i < k < |pending| && KeyOf(pending[i]) == KeyOf(pending[k]) ==>
      EdgeId(pending[i]) == EdgeId(pending[k])
  }

  lemma BarFreeDecides(pending: seq<AutoEdge>)
    requires forall i :: 0 <= i < |pending| ==> BarFree(pending[i])
    ensures KeysDecideIds(pending)
  {
    forall i, k | 0 <= i < k < |pending| && KeyOf(pending[i]) == KeyOf(pending[k])
      ensures EdgeId(pending[i]) == EdgeId(pending[k])
    {
      KeyDecidesId(pending[i], pending[k]);
    }
  }

  lemma {:induction false} FirstOfItsKey(edges: seq<Json>, nodeIds: set<string>, pending: seq<AutoEdge>, i: nat)
    returns (k: nat)
    requires i < |pending| && !Dangling(pending[i], nodeIds) && KeyOf(pending[i]) !in Keys(edges)
    ensures k <= i && Considered(edges, nodeIds, pending, k) && KeyOf(pending[k]) == KeyOf(pending[i])
    decreases i
  {
    k := i;
    if j :| 0 <= j < i && !Dangling(pending[j], nodeIds) && KeyOf(pending[j]) == KeyOf(pending[i]) {
      k := FirstOfItsKey(edges, nodeIds, pending, j);
    }
  }

  /** No pending edge is lost: in the end each one dangles, or an edge has its key or its id.
      This needs keys that decide the ids. */
  lemma PendingCovered(edges: seq<Json>, nodeIds: set<string>, pending: seq<AutoEdge>, i: nat)
    requires i < |pending| && KeysDecideIds(pending)
    ensures Covered(edges + Linked(edges, nodeIds, pending).added, nodeIds, pending[i])
  {
    CoveredExact(edges, nodeIds, pending, pending[i]);
    if !Covered(edges, nodeIds, pending[i]) {
      var k := FirstOfItsKey(edges, nodeIds, pending, i);
      assert EdgeId(pending[k]) == EdgeId(pending[i]);
    }
  }

  /** Nothing is added exactly if each edge that would be looked at has its id taken. */
  lemma NothingToLink(edges: seq<Json>, nodeIds: set<string>, pending: seq<AutoEdge>)
    ensures Linked(edges, nodeIds, pending).addedIds == []
      <==> forall i :: 0 <= i < |pending| && Considered(edges, nodeIds, pending, i) ==> EdgeId(pending[i]) in Ids(edges)
  {
    var l := Linked(edges, nodeIds, pending);
    LinkedOk(edges, nodeIds, pending);
    if l.added == [] {
      assert edges + [] == edges;
      forall i | 0 <= i < |pending| && Considered(edges, nodeIds, pending, i)
        ensures EdgeId(pending[i]) in Ids(edges)
      {
        IdsExact(edges, nodeIds, pending, EdgeId(pending[i]));
      }
    } else {
      AddedExact(edges, nodeIds, pending, l.added[0]);
      var k :| 0 <= k < |pending| && Placed(edges, nodeIds, pending, k) && EdgeObject(pending[k]) == l.added[0];
      assert Considered(edges, nodeIds, pending, k);
    }
  }

  // ---------------------------------------------------------------- the whole merge

  function RawOf(codec: Codec, base: string): Option<Record> {
    match codec.parse(base)
    case Some(Object(raw)) => Some(raw)
    case _ => None
  }

  ghost predicate OnlyRuntimeDiffers(a: Json, b: Json) {
    a == b || (a.Object? && b.Object? && forall k :: k != "runtime" ==>
      (k in a.fields <==> k in b.fields) && (k in a.fields ==> a.fields[k] == b.fields[k]))
  }

  /** The node ids that the merge works with are those of the nodes it writes. */
  lemma MergedIds(raw: Record, packages: seq<PackageView>, grants: seq<StoredGrant>)
    ensures Ids(MergeOf(raw, packages, grants).nodes)
         == Ids(List(raw, "nodes")) + SetOf(MergeOf(raw, packages, grants).addedNodes)
  {
    var nodes, candidates := List(raw, "nodes"), Candidates(packages);
    var liveness := Liveness(candidates);
    var g := Grown(Ids(nodes), candidates, liveness);
    GrownOk(Ids(nodes), candidates, liveness);
    GrownNodeIds(Ids(nodes), g, liveness);
    CorrectedIds(nodes, liveness);
    IdsConcat(CorrectedAll(nodes, liveness), g.nodes);
  }

  /** What the merge does to the base nodes: they keep their places and change only in
      runtime. */
  lemma BaseNodesKept(raw: Record, packages: seq<PackageView>, grants: seq<StoredGrant>, i: nat)
    requires i < |List(raw, "nodes")|
    ensures i < |MergeOf(raw, packages, grants).nodes|
    ensures OnlyRuntimeDiffers(List(raw, "nodes")[i], MergeOf(raw, packages, grants).nodes[i])
  {}

  lemma AppendedNode(known: set<string>, base: seq<Json>, g: Growth, liveness: map<string, string>, i: nat)
    requires GrowthOk(known, g, liveness) && i < |g.ids|
    ensures IdOf((base + g.nodes)[|base| + i]) == Some(g.ids[i])
  {}

  /** What the merge adds: nodes with new, distinct ids. */
  ghost predicate AddedAre(nodes: seq<Json>, base: seq<Json>, ids: seq<string>) {
    && |nodes| == |base| + |ids|
    && (forall i :: 0 <= i < |ids| ==> IdOf(nodes[|base| + i]) == Some(ids[i]) && ids[i] !in Ids(base))
    && forall i, k :: 0 <= i < k < |ids| ==> ids[i] != ids[k]
  }

  lemma AddedNodesFresh(raw: Record, packages: seq<PackageView>, grants: seq<StoredGrant>)
    ensures var m := MergeOf(raw, packages, grants); AddedAre(m.nodes, List(raw, "nodes"), m.addedNodes)
  {
    var nodes, liveness := List(raw, "nodes"), Liveness(Candidates(packages));
    var g := Grown(Ids(nodes), Candidates(packages), liveness);
    GrownOk(Ids(nodes), Candidates(packages), liveness);
    GrowthAdded(nodes, CorrectedAll(nodes, liveness), g, liveness);
  }

  lemma GrowthAdded(base: seq<Json>, corrected: seq<Json>, g: Growth, liveness: map<string, string>)
    requires GrowthOk(Ids(base), g, liveness) && |corrected| == |base|
    ensures AddedAre(corrected + g.nodes, base, g.ids)
  {
    forall i | 0 <= i < |g.ids|
      ensures IdOf((corrected + g.nodes)[|base| + i]) == Some(g.ids[i]) && g.ids[i] !in Ids(base)
    {
      AppendedNode(Ids(base), corrected, g, liveness, i);
    }
  }

  lemma DeclaredPresent(raw: Record, packages: seq<PackageView>, grants: seq<StoredGrant>, i: nat)
    requires i < |Candidates(packages)|
    ensures Candidates(packages)[i].topology.nodeId in Ids(MergeOf(raw, packages, grants).nodes)
  {
    var nodes, candidates := List(raw, "nodes"), Candidates(packages);
    GrownCovers(Ids(nodes), candidates, Liveness(candidates), i);
    MergedIds(raw, packages, grants);
  }

  lemma NodeSettled(raw: Record, packages: seq<PackageView>, grants: seq<StoredGrant>, i: nat)
    requires i < |MergeOf(raw, packages, grants).nodes|
    ensures Correction(MergeOf(raw, packages, grants).nodes[i], Liveness(Candidates(packages))) == None
  {
    var nodes, candidates := List(raw, "nodes"), Candidates(packages);
    var liveness := Liveness(candidates);
    GrownOk(Ids(nodes), candidates, liveness);
    GrowthSettled(nodes, Grown(Ids(nodes), candidates, liveness), liveness, i);
  }

  lemma GrowthSettled(nodes: seq<Json>, g: Growth, liveness: map<string, string>, i: nat)
    requires GrowthOk(Ids(nodes), g, liveness) && i < |nodes| + |g.nodes|
    ensures Correction((CorrectedAll(nodes, liveness) + g.nodes)[i], liveness) == None
  {
    if i < |nodes| {
      CorrectedSettles(nodes[i], liveness);
    } else {
      assert NodeOk(g.nodes[i - |nodes|], g.ids[i - |nodes|], liveness);
    }
  }

  /** In the end every declared node is there, and each node that a package declares has the
      runtime that liveness gives it. */
  lemma DeclaredNodesLive(raw: Record, packages: seq<PackageView>, grants: seq<StoredGrant>)
    ensures var m, candidates := MergeOf(raw, packages, grants), Candidates(packages);
      && (forall i :: 0 <= i < |candidates| ==> candidates[i].topology.nodeId in Ids(m.nodes))
      && forall i :: 0 <= i < |m.nodes| ==> Correction(m.nodes[i], Liveness(candidates)) == None
  {
    var m, candidates := MergeOf(raw, packages, grants), Candidates(packages);
    forall i | 0 <= i < |candidates| ensures candidates[i].topology.nodeId in Ids(m.nodes) {
      DeclaredPresent(raw, packages, grants, i);
    }
    forall i | 0 <= i < |m.nodes| ensures Correction(m.nodes[i], Liveness(candidates)) == None {
      NodeSettled(raw, packages, grants, i);
    }
  }

  /** An added edge joins two nodes and has an id and a key that no edge before it has. */
  ghost predicate AddedEdgeOk(edges: seq<Json>, nodeIds: set<string>, k: nat, id: string)
    requires k < |edges|
  {
    IdOf(edges[k]) == Some(id) && Anchored(edges[k], nodeIds) && Fresh(edges, k)
  }

  lemma LinkedEdgesOk(edges: seq<Json>, nodeIds: set<string>, l: Linking, k: nat)
    requires LinkingOk(edges, nodeIds, l) && k < |l.added|
    ensures AddedEdgeOk(edges + l.added, nodeIds, |edges| + k, l.addedIds[k])
  {}

  /** What the merge does to the edges: base edges stay as a prefix; each added edge joins
      two nodes of the map and has an id and a key that no other edge has. */
  lemma MergedEdges(raw: Record, packages: seq<PackageView>, grants: seq<StoredGrant>)
    ensures var m, edges := MergeOf(raw, packages, grants), List(raw, "edges");
      && edges <= m.edges && |m.edges| == |edges| + |m.addedEdges|
      && forall k :: 0 <= k < |m.addedEdges| ==> AddedEdgeOk(m.edges, Ids(m.nodes), |edges| + k, m.addedEdges[k])
  {
    var m, edges := MergeOf(raw, packages, grants), List(raw, "edges");
    var pending := PendingOf(raw, packages, grants);
    MergedIds(raw, packages, grants);
    LinkedOk(edges, Ids(m.nodes), pending);
    var l := Linked(edges, Ids(m.nodes), pending);
    forall k | 0 <= k < |m.addedEdges| ensures AddedEdgeOk(m.edges, Ids(m.nodes), |edges| + k, m.addedEdges[k]) {
      LinkedEdgesOk(edges, Ids(m.nodes), l, k);
    }
  }

  /** The old domains stay, and each domain after them has an id that none before it has. */
  ghost predicate DomainsOk(domains: seq<Json>, out: seq<Json>) {
    && domains <= out
    && forall k :: |domains| <= k < |out| ==>
         IdOf(out[k]).Some? && forall i :: 0 <= i < k ==> IdOf(out[i]) != IdOf(out[k])
  }

  lemma DomainAppended(domains: seq<Json>, out: seq<Json>, v: Json)
    requires DomainsOk(domains, out) && IdOf(v).Some? && IdOf(v).value !in Ids(out)
    ensures DomainsOk(domains, out + [v]) && Ids(out + [v]) == Ids(out) + {IdOf(v).value}
  {
    IdsAppend(out, v);
    forall i | 0 <= i < |out|
      ensures IdOf(out[i]) != IdOf(v)
    {
      assert out[i] in out;
    }
  }

  /** What the merge does to the domains: the old ones stay, the domain of each added node is
      there in the end, and no id is added twice. */
  lemma {:induction false} MergedDomains(upper: char -> string, domains: seq<Json>, nodes: seq<Json>,
                                         added: seq<string>)
    ensures DomainsOk(domains, Extended(upper, domains, nodes, added))
    ensures forall i :: 0 <= i < |added| && DomainOf(nodes, added[i]).Some? ==>
      DomainOf(nodes, added[i]).value in Ids(Extended(upper, domains, nodes, added))
  {
    if added != [] {
      var n := |added| - 1;
      var before, domain := added[..n], DomainOf(nodes, added[n]);
      MergedDomains(upper, domains, nodes, before);
      var out := Extended(upper, domains, nodes, before);
      assert forall i :: 0 <= i < n ==> before[i] == added[i];
      if domain.Some? && domain.value !in Ids(out) {
        DomainAppended(domains, out, NewDomain(upper, domain.value));
      }
    }
  }

  /** Every edge that this merge considers. */
  function PendingOf(raw: Record, packages: seq<PackageView>, grants: seq<StoredGrant>): seq<AutoEdge> {
    var candidates := Candidates(packages);
    Grown(Ids(List(raw, "nodes")), candidates, Liveness(candidates)).pending + GrantEdgesOf(packages, grants)
  }

  /** Over nodes that a merge wrote there is nothing to correct and nothing to add. */
  lemma NodesIdle(nodes: seq<Json>, candidates: seq<Candidate>)
    requires forall i :: 0 <= i < |candidates| ==> candidates[i].topology.nodeId in Ids(nodes)
    requires forall i :: 0 <= i < |nodes| ==> Correction(nodes[i], Liveness(candidates)) == None
    ensures Corrections(nodes, Liveness(candidates)) == map[]
    ensures Grown(Ids(nodes), candidates, Liveness(candidates)) == Growth([], [], [])
  {
    SettledNeedNothing(nodes, Liveness(candidates));
    NothingToGrow(Ids(nodes), candidates, Liveness(candidates));
  }

  /** The ids of the map's nodes after the merge. */
  function MapIds(raw: Record, packages: seq<PackageView>): set<string> {
    Ids(List(raw, "nodes")) + DeclaredIds(Candidates(packages))
  }

  function DeclaredIds(candidates: seq<Candidate>): set<string> {
    set c | c in candidates :: c.topology.nodeId
  }

  lemma {:induction false} GrownDeclared(known: set<string>, candidates: seq<Candidate>, liveness: map<string, string>,
                                         id: string)
    requires id in Grown(known, candidates, liveness).ids
    ensures exists i :: 0 <= i < |candidates| && candidates[i].topology.nodeId == id
  {
    var n := |candidates| - 1;
    if id in Grown(known, candidates[..n], liveness).ids {
      GrownDeclared(known, candidates[..n], liveness, id);
      var i :| 0 <= i < n && candidates[..n][i].topology.nodeId == id;
      assert candidates[i].topology.nodeId == id;
    } else {
      assert candidates[n].topology.nodeId == id;
    }
  }

  lemma MapIdsExact(raw: Record, packages: seq<PackageView>, grants: seq<StoredGrant>)
    ensures Ids(MergeOf(raw, packages, grants).nodes) == MapIds(raw, packages)
  {
    var known, candidates := Ids(List(raw, "nodes")), Candidates(packages);
    MergedIds(raw, packages, grants);
    forall id | id in Grown(known, candidates, Liveness(candidates)).ids
      ensures id in DeclaredIds(candidates)
    {
      GrownDeclared(known, candidates, Liveness(candidates), id);
    }
    forall id | id in DeclaredIds(candidates)
      ensures id in known + SetOf(Grown(known, candidates, Liveness(candidates)).ids)
    {
      var i :| 0 <= i < |candidates| && candidates[i].topology.nodeId == id;
      GrownCovers(known, candidates, Liveness(candidates), i);
    }
  }

  /** Each grant edge that is the first of its key, between nodes of the map, has its key or
      its id on the map when the merge is done. It is said of the input: the edges of the
      document and the pending ones. */
  ghost predicate GrantsKept(raw: Record, packages: seq<PackageView>, grants: seq<StoredGrant>) {
    var edges, granted := List(raw, "edges"), GrantEdgesOf(packages, grants);
    forall i :: 0 <= i < |granted| && FirstOfKey(granted, MapIds(raw, packages), i) ==>
      CoveredLater(edges, MapIds(raw, packages), PendingOf(raw, packages, grants), granted[i])
  }

  predicate FirstOfKey(granted: seq<AutoEdge>, nodeIds: set<string>, i: nat)
    requires i < |granted|
  {
    && !Dangling(granted[i], nodeIds)
    && forall k :: 0 <= k < i ==> Dangling(granted[k], nodeIds) || KeyOf(granted[k]) != KeyOf(granted[i])
  }

  /** Over edges that a merge wrote, no grant edge is added again exactly if all were kept. */
  lemma EdgesIdle(raw: Record, packages: seq<PackageView>, grants: seq<StoredGrant>)
    ensures var m := MergeOf(raw, packages, grants);
      Linked(m.edges, Ids(m.nodes), GrantEdgesOf(packages, grants)).addedIds == []
      <==> GrantsKept(raw, packages, grants)
  {
    var m, edges := MergeOf(raw, packages, grants), List(raw, "edges");
    var granted, pending := GrantEdgesOf(packages, grants), PendingOf(raw, packages, grants);
    MergedIds(raw, packages, grants);
    MapIdsExact(raw, packages, grants);
    var nodeIds := MapIds(raw, packages);
    NothingToLink(m.edges, nodeIds, granted);
    forall i | 0 <= i < |granted|
      ensures FirstOfKey(granted, nodeIds, i) && !CoveredLater(edges, nodeIds, pending, granted[i])
        <==> Considered(m.edges, nodeIds, granted, i) && EdgeId(granted[i]) !in Ids(m.edges)
    {
      CoveredExact(edges, nodeIds, pending, granted[i]);
    }
  }

  /** Merging into a document that has the nodes and edges of a merge corrects and adds no
      node, and it adds no edge exactly if all grant edges were kept. */
  lemma SecondMerge(raw: Record, later: Record, packages: seq<PackageView>, grants: seq<StoredGrant>)
    requires List(later, "nodes") == MergeOf(raw, packages, grants).nodes
    requires List(later, "edges") == MergeOf(raw, packages, grants).edges
    ensures var n := MergeOf(later, packages, grants);
      && n.addedNodes == [] && n.liveness == map[] && |n.edges| == |List(later, "edges")| + |n.addedEdges|
      && (n.Changed() <==> !GrantsKept(raw, packages, grants))
  {
    var m := MergeOf(raw, packages, grants);
    DeclaredNodesLive(raw, packages, grants);
    NodesIdle(m.nodes, Candidates(packages));
    EdgesIdle(raw, packages, grants);
    assert [] + GrantEdgesOf(packages, grants) == GrantEdgesOf(packages, grants);
    assert Ids(m.nodes) + SetOf([]) == Ids(m.nodes);
    MergedEdges(later, packages, grants);
  }

  lemma DocumentLists(raw: Record, m: Merge, domains: seq<Json>)
    ensures List(Document(raw, m, domains), "nodes") == m.nodes && List(Document(raw, m, domains), "edges") == m.edges
  {}

  /** A merge that changed nothing kept all grant edges. */
  lemma UnchangedKept(raw: Record, packages: seq<PackageView>, grants: seq<StoredGrant>)
    requires !MergeOf(raw, packages, grants).Changed()
    ensures GrantsKept(raw, packages, grants)
  {
    GrantsOnly(raw, packages, grants);
    MergedEdges(raw, packages, grants);
    MergedIds(raw, packages, grants);
    EdgesIdle(raw, packages, grants);
  }

  lemma GrantsOnly(raw: Record, packages: seq<PackageView>, grants: seq<StoredGrant>)
    requires MergeOf(raw, packages, grants).addedNodes == []
    ensures PendingOf(raw, packages, grants) == GrantEdgesOf(packages, grants)
  {
    NoneGrown(Ids(List(raw, "nodes")), Candidates(packages), Liveness(Candidates(packages)));
  }

  lemma {:induction false} NoneGrown(known: set<string>, candidates: seq<Candidate>, liveness: map<string, string>)
    requires Grown(known, candidates, liveness).ids == []
    ensures Grown(known, candidates, liveness).pending == []
  {
    if candidates != [] {
      NoneGrown(known, candidates[..|candidates| - 1], liveness);
    }
  }

  function Written(codec: Codec, raw: Record, m: Merge): Record {
    Document(raw, m, Extended(codec.upper, List(raw, "domains"), m.nodes, m.addedNodes))
  }

  /** For every text and fixed packages and grants: merging a second time changes the text if
      and only if the text is a document in which a grant edge is not kept. */
  lemma MergeIdempotent(codec: Codec, base: string, packages: seq<PackageView>, grants: seq<StoredGrant>)
    requires RoundTrip(codec)
    ensures var once := Merged(codec, base, packages, grants);
      Merged(codec, once, packages, grants) == once
      <==> RawOf(codec, base).None? || GrantsKept(RawOf(codec, base).value, packages, grants)
  {
    if RawOf(codec, base).Some? {
      var raw := RawOf(codec, base).value;
      var m := MergeOf(raw, packages, grants);
      if m.Changed() {
        var later := Written(codec, raw, m);
        assert codec.parse(codec.stringify(Object(later))) == Some(Object(later));
        DocumentLists(raw, m, Extended(codec.upper, List(raw, "domains"), m.nodes, m.addedNodes));
        SecondMerge(raw, later, packages, grants);
        if !GrantsKept(raw, packages, grants) {
          SecondText(codec, later, MergeOf(later, packages, grants));
        }
      } else {
        UnchangedKept(raw, packages, grants);
      }
    }
  }

  /** A document with more edges is another text. */
  lemma SecondText(codec: Codec, raw: Record, m: Merge)
    requires RoundTrip(codec) && |m.edges| > |List(raw, "edges")|
    ensures codec.stringify(Object(Written(codec, raw, m))) != codec.stringify(Object(raw))
  {
    var written := Object(Written(codec, raw, m));
    DocumentLists(raw, m, Extended(codec.upper, List(raw, "domains"), m.nodes, m.addedNodes));
    assert codec.parse(codec.stringify(written)) == Some(written);
    assert codec.parse(codec.stringify(Object(raw))) == Some(Object(raw));
  }

  /** No grant edge is lost if keys decide ids among the edges that the merge considers, in
      particular if no end point contains the separator. */
  lemma KeysKeepGrants(raw: Record, packages: seq<PackageView>, grants: seq<StoredGrant>)
    requires KeysDecideIds(PendingOf(raw, packages, grants))
    ensures GrantsKept(raw, packages, grants)
  {
    var pending, granted := PendingOf(raw, packages, grants), GrantEdgesOf(packages, grants);
    LastKept(List(raw, "edges"), MapIds(raw, packages), pending, granted);
  }

  lemma LastKept(edges: seq<Json>, nodeIds: set<string>, pending: seq<AutoEdge>, last: seq<AutoEdge>)
    requires KeysDecideIds(pending) && |last| <= |pending| && pending[|pending| - |last|..] == last
    ensures forall i :: 0 <= i < |last| ==> CoveredLater(edges, nodeIds, pending, last[i])
  {
    forall i | 0 <= i < |last|
      ensures CoveredLater(edges, nodeIds, pending, last[i])
    {
      assert last[i] == pending[|pending| - |last| + i];
      PendingCovered(edges, nodeIds, pending, |pending| - |last| + i);
      CoveredExact(edges, nodeIds, pending, last[i]);
    }
  }
}
