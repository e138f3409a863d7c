/** The edges that a package's manifest and the facility grants derive, and how an edge is
    named. */
module TopologyEdges {
  import opened Wrappers
  import opened Sequences

  /** A JSON value; Scalar stands for numbers, booleans and null. */
  datatype Json =
    | Text(text: string)
    | Items(items: seq<Json>)
    | Object(fields: map<string, Json>)
    | Scalar(literal: string)

  type Record = map<string, Json>

  datatype AutoEdge = AutoEdge(from: string, to: string, kind: string, protocol: string, caption: string)

  datatype ManifestTopology =
    ManifestTopology(node: Record, nodeId: string, dispatch: Option<string>, edges: seq<Record>,
                     egressTargets: seq<string>)

  datatype StoredGrant = StoredGrant(consumer: string, name: string, facilityId: string)

  function Str(record: Record, key: string): Option<string> {
    if key in record && record[key].Text? then Some(record[key].text) else None
  }

  function UniformEdges(nodeId: string, dispatch: Option<string>): seq<AutoEdge> {
    if dispatch == Some("socket") then
      [AutoEdge(nodeId, "runtime.inbound", "data", "in-process (GatewayEvents.onMessage)", "inbound -> turn")]
    else if dispatch == Some("route") then
      [AutoEdge("runtime.http", nodeId, "control", "in-process (route dispatch)", "dispatch route"),
       AutoEdge(nodeId, "runtime.inbound", "data", "in-process (GatewayEvents.onMessage)", "payload -> turn")]
    else if dispatch == Some("tool") then
      [AutoEdge("runtime.toolExec", nodeId, "data", "in-process (ToolDefinition.execute)", "execute")]
    else []
  }

  function DeclaredEdge(nodeId: string, edge: Record): seq<AutoEdge> {
    match (Str(edge, "from"), Str(edge, "to"), Str(edge, "kind"))
    case (Some(from), Some(to), Some(kind)) =>
      [AutoEdge(if from == "self" then nodeId else from, if to == "self" then nodeId else to, kind,
                Str(edge, "protocol").GetOr("in-process"), Str(edge, "label").GetOr(""))]
    case _ => []
  }

  function DeclaredEdges(nodeId: string, edges: seq<Record>): seq<AutoEdge> {
    if edges == [] then [] else DeclaredEdge(nodeId, edges[0]) + DeclaredEdges(nodeId, edges[1..])
  }

  function GrantEdge(grant: StoredGrant, nodeIdByPackage: map<string, string>,
                     providerByFacility: map<string, string>): seq<AutoEdge> {
    if && grant.consumer in nodeIdByPackage && grant.facilityId in providerByFacility
       && providerByFacility[grant.facilityId] in nodeIdByPackage
    then
      [AutoEdge(nodeIdByPackage[grant.consumer], nodeIdByPackage[providerByFacility[grant.facilityId]], "control",
                "in-process (FacilityDirectory.acquire)", "facility " + grant.facilityId + " (" + grant.name + ")")]
    else []
  }

  function GrantEdges(grants: seq<StoredGrant>, nodeIdByPackage: map<string, string>,
                      providerByFacility: map<string, string>): seq<AutoEdge> {
    if grants == [] then []
    else
      GrantEdge(grants[0], nodeIdByPackage, providerByFacility)
      + GrantEdges(grants[1..], nodeIdByPackage, providerByFacility)
  }

  function EdgeKey(from: string, to: string, kind: string): string {
    from + "|" + to + "|" + kind
  }

  predicate IdChar(c: char) {
    'a' <= c <= 'z' || 'A' <= c <= 'Z' || '0' <= c <= '9' || c == '_' || c == '.' || c == '-'
  }

  function Kept(s: string): string {
    if s == "" then "" else (if IdChar(s[0]) then [s[0]] else "") + Kept(s[1..])
  }

  function EdgeId(edge: AutoEdge): string {
    Kept("e.auto." + edge.from + "--" + edge.to + "--" + edge.kind)
  }

  function KeyOf(edge: AutoEdge): string {
    EdgeKey(edge.from, edge.to, edge.kind)
  }

  predicate BarFree(edge: AutoEdge) {
    '|' !in edge.from && '|' !in edge.to
  }

  /** The key separates its parts as long as no end point contains the separator, so edges
      with equal keys have equal ids. */
  lemma KeyDecidesId(a: AutoEdge, b: AutoEdge)
    requires BarFree(a) && BarFree(b) && KeyOf(a) == KeyOf(b)
    ensures a.from == b.from && a.to == b.to && a.kind == b.kind && EdgeId(a) == EdgeId(b)
  {
    assert KeyOf(a) == a.from + "|" + (a.to + "|" + a.kind);
    assert KeyOf(b) == b.from + "|" + (b.to + "|" + b.kind);
    FirstMark('|', a.from, a.to + "|" + a.kind, b.from, b.to + "|" + b.kind);
    FirstMark('|', a.to, a.kind, b.to, b.kind);
  }
}
