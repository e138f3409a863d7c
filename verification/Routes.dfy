/** Model routes: the live filter that turns a profile binding into an ordered list of
    eligible candidates. */
module Routes {
  import opened Wrappers
  import opened Sorting

  datatype Profile = Fast | Balanced | Deep {
    function Rank(): nat {
      match this
      case Fast => 0
      case Balanced => 1
      case Deep => 2
    }
  }

  datatype Classification = Public | Internal | Confidential | Restricted {
    function Rank(): nat {
      match this
      case Public => 0
      case Internal => 1
      case Confidential => 2
      case Restricted => 3
    }
  }

  datatype Posture = Standard | Hardened | Regulated

  datatype CatalogEntry = CatalogEntry(
    modelId: string, capabilities: seq<string>, inputRate: Option<real>, outputRate: Option<real>,
    available: bool, digest: string)

  datatype Residency = Residency(reference: string, maximum: Classification, revoked: bool)

  datatype ProviderState = ProviderState(
    id: string, residency: Residency, catalog: seq<CatalogEntry>, catalogDigest: string,
    healthy: bool, reportedAt: int, cadence: int)

  datatype Route = Route(provider: string, model: string, priority: real, costMetric: real)
  datatype Candidate = Candidate(route: Route, entry: CatalogEntry, residency: Residency)
  datatype Binding = Binding(routes: seq<Route>, unavailable: bool)

  datatype EpochVector = EpochVector(org: nat, workspace: nat, agent: nat, session: nat, principal: nat)

  datatype Context = Context(
    profiles: map<Profile, Binding>, maximumProfile: Profile, providers: seq<ProviderState>,
    posture: Posture, epochs: EpochVector, inputDigests: seq<string>)

  datatype Key = Key(profile: Profile, classification: Classification, requires_: seq<string>)

  datatype TraceStep = TraceStep(step: string, survivors: seq<string>)
  datatype RouteError = NoEligibleRoute(step: string, survivors: seq<string>)

  // ---------------------------------------------------------------- lookups

  function ProviderFor(providers: seq<ProviderState>, id: string): Option<ProviderState> {
    if providers == [] then None
    else if providers[0].id == id then Some(providers[0])
    else ProviderFor(providers[1..], id)
  }

  function EntryFor(catalog: seq<CatalogEntry>, model: string): Option<CatalogEntry> {
    if catalog == [] then None
    else if catalog[0].modelId == model then Some(catalog[0])
    else EntryFor(catalog[1..], model)
  }

  /** The route with its provider's current catalog entry and residency, if there are any. */
  function Resolved(providers: seq<ProviderState>, route: Route): Option<Candidate> {
    var provider := ProviderFor(providers, route.provider);
    if provider.None? then None
    else
      var entry := EntryFor(provider.value.catalog, route.model);
      if entry.None? then None else Some(Candidate(route, entry.value, provider.value.residency))
  }

  predicate Healthy(providers: seq<ProviderState>, c: Candidate) {
    var provider := ProviderFor(providers, c.route.provider);
    provider.Some? && provider.value.healthy && c.entry.available
  }

  predicate Capable(key: Key, c: Candidate) {
    forall capability :: capability in key.requires_ ==> capability in c.entry.capabilities
  }

  predicate Resident(key: Key, posture: Posture, c: Candidate) {
    posture == Standard || (!c.residency.revoked && key.classification.Rank() <= c.residency.maximum.Rank())
  }

  predicate Cheaper(a: Candidate, b: Candidate) {
    a.route.priority < b.route.priority
    || (a.route.priority == b.route.priority && a.route.costMetric <= b.route.costMetric)
  }

  function RouteId(c: Candidate): string {
    c.route.provider + "/" + c.route.model
  }

  function Ids(candidates: seq<Candidate>): (ids: seq<string>)
    ensures |ids| == |candidates|
    ensures forall i :: 0 <= i < |ids| ==> ids[i] == candidates[i].route.provider + "/" + candidates[i].route.model
  {
    seq(|candidates|, i requires 0 <= i < |candidates| => RouteId(candidates[i]))
  }

  // ---------------------------------------------------------------- the filter

  function Catalogued(providers: seq<ProviderState>, routes: seq<Route>): seq<Candidate> {
    if routes == [] then []
    else (if Resolved(providers, routes[0]).Some? then [Resolved(providers, routes[0]).value] else [])
         + Catalogued(providers, routes[1..])
  }

  /** The tests of the filter steps. */
  datatype Test =
    | IsHealthy(providers: seq<ProviderState>)
    | IsCapable(key: Key)
    | IsResident(key: Key, posture: Posture)
  {
    predicate Passes(c: Candidate) {
      match this
      case IsHealthy(providers) => Healthy(providers, c)
      case IsCapable(key) => Capable(key, c)
      case IsResident(key, posture) => Resident(key, posture, c)
    }
  }

  function Filter(test: Test, candidates: seq<Candidate>): seq<Candidate> {
    if candidates == [] then []
    else (if test.Passes(candidates[0]) then [candidates[0]] else []) + Filter(test, candidates[1..])
  }

  /** The candidates after each of the first four filters, in binding order. */
  function Survivors(key: Key, context: Context, routes: seq<Route>, stage: nat): seq<Candidate>
  {
    if stage == 0 then Catalogued(context.providers, routes)
    else if stage == 1 then Filter(IsHealthy(context.providers), Survivors(key, context, routes, 0))
    else if stage == 2 then Filter(IsCapable(key), Survivors(key, context, routes, 1))
    else if stage == 3 then Filter(IsResident(key, context.posture), Survivors(key, context, routes, 2))
    else Sort(Cheaper, Survivors(key, context, routes, 3))
  }

  const STEPS := ["catalog", "health", "capabilities", "residency", "ordering"]

  function Refused(key: Key, context: Context): Option<RouteError> {
    if key.profile.Rank() > context.maximumProfile.Rank() then Some(NoEligibleRoute("profile-ceiling", []))
    else if key.profile !in context.profiles || context.profiles[key.profile].unavailable then
      Some(NoEligibleRoute("profile-binding", []))
    else None
  }

  /** The stable sort of the bound routes that pass every filter, and a trace of the ids
      that survived each step. */
  method LiveRouteFilter(key: Key, context: Context)
    returns (result: Result<(seq<Candidate>, seq<TraceStep>), RouteError>)
    ensures result.Err? <==> Refused(key, context).Some?
    ensures result.Err? ==> result.error == Refused(key, context).value
    ensures result.Ok? ==>
      var routes := context.profiles[key.profile].routes;
      && result.value.0 == Survivors(key, context, routes, 4)
      && |result.value.1| == 5
      && forall i :: 0 <= i < 5 ==> result.value.1[i] == TraceStep(STEPS[i], Ids(Survivors(key, context, routes, i)))
  {
    if key.profile.Rank() > context.maximumProfile.Rank() {
      return Err(NoEligibleRoute("profile-ceiling", []));
    }
    if key.profile !in context.profiles || context.profiles[key.profile].unavailable {
      return Err(NoEligibleRoute("profile-binding", []));
    }
    var trace: seq<TraceStep> := [];
    ghost var routes := context.profiles[key.profile].routes;
    var candidates := Catalogued(context.providers, context.profiles[key.profile].routes);
    trace := trace + [TraceStep("catalog", Ids(candidates))];
    assert candidates == Survivors(key, context, routes, 0);
    candidates := Filter(IsHealthy(context.providers), candidates);
    trace := trace + [TraceStep("health", Ids(candidates))];
    assert candidates == Survivors(key, context, routes, 1);
    candidates := Filter(IsCapable(key), candidates);
    trace := trace + [TraceStep("capabilities", Ids(candidates))];
    assert candidates == Survivors(key, context, routes, 2);
    if context.posture != Standard {
      candidates := Filter(IsResident(key, context.posture), candidates);
    } else {
      FilterAll(IsResident(key, context.posture), candidates);
    }
    trace := trace + [TraceStep("residency", Ids(candidates))];
    assert candidates == Survivors(key, context, routes, 3);
    candidates := Sort(Cheaper, candidates);
    trace := trace + [TraceStep("ordering", Ids(candidates))];
    result := Ok((candidates, trace));
  }

  lemma {:induction false} FilterAll(test: Test, candidates: seq<Candidate>)
    requires forall c :: c in candidates ==> test.Passes(c)
    ensures Filter(test, candidates) == candidates
  {
    if candidates != [] {
      FilterAll(test, candidates[1..]);
    }
  }

  lemma {:induction false} FilterMembers(test: Test, candidates: seq<Candidate>)
    ensures forall c :: c in Filter(test, candidates) <==> c in candidates && test.Passes(c)
    ensures multiset(Filter(test, candidates)) <= multiset(candidates)
  {
    if candidates != [] {
      assert candidates == [candidates[0]] + candidates[1..];
      FilterMembers(test, candidates[1..]);
    }
  }

  lemma {:induction false} CataloguedMembers(providers: seq<ProviderState>, routes: seq<Route>)
    ensures forall c :: c in Catalogued(providers, routes) <==>
      c.route in routes && Resolved(providers, c.route) == Some(c)
  {
    if routes != [] {
      assert routes == [routes[0]] + routes[1..];
      CataloguedMembers(providers, routes[1..]);
    }
  }

  /** Everything a candidate must satisfy. */
  ghost predicate Eligible(key: Key, context: Context, c: Candidate) {
    && Resolved(context.providers, c.route) == Some(c)
    && Healthy(context.providers, c)
    && Capable(key, c)
    && Resident(key, context.posture, c)
  }

  /** The test that leads to a stage of the filter. */
  function TestAt(key: Key, context: Context, stage: nat): Test {
    if stage == 1 then IsHealthy(context.providers)
    else if stage == 2 then IsCapable(key)
    else IsResident(key, context.posture)
  }

  lemma StageMembers(key: Key, context: Context, routes: seq<Route>, stage: nat, c: Candidate)
    requires 1 <= stage <= 3
    ensures c in Survivors(key, context, routes, stage)
      <==> c in Survivors(key, context, routes, stage - 1) && TestAt(key, context, stage).Passes(c)
  {
    var before := Survivors(key, context, routes, stage - 1);
    FilterMembers(TestAt(key, context, stage), before);
    assert Survivors(key, context, routes, stage) == Filter(TestAt(key, context, stage), before);
  }

  lemma SurvivorsMembers(key: Key, context: Context, routes: seq<Route>, c: Candidate)
    ensures c in Survivors(key, context, routes, 3) <==> c.route in routes && Eligible(key, context, c)
  {
    CataloguedMembers(context.providers, routes);
    StageMembers(key, context, routes, 1, c);
    StageMembers(key, context, routes, 2, c);
    StageMembers(key, context, routes, 3, c);
    assert c in Survivors(key, context, routes, 0)
      <==> c.route in routes && Resolved(context.providers, c.route) == Some(c);
  }

  lemma CheaperIsPreorder()
    ensures TotalPreorder(Cheaper)
  {}

  /** The filter returns exactly the bound routes that pass every filter, each as often as
      it is bound, sorted by priority and then cost, and equals stay in binding order. */
  lemma FilterExact(key: Key, context: Context, routes: seq<Route>, c: Candidate)
    ensures c in Survivors(key, context, routes, 4) <==> c.route in routes && Eligible(key, context, c)
    ensures SortedBy(Cheaper, Survivors(key, context, routes, 4))
    ensures multiset(Survivors(key, context, routes, 4)) == multiset(Survivors(key, context, routes, 3))
    ensures Class(Cheaper, c, Survivors(key, context, routes, 4))
         == Class(Cheaper, c, Survivors(key, context, routes, 3))
  {
    var survivors := Survivors(key, context, routes, 3);
    SurvivorsMembers(key, context, routes, c);
    CheaperIsPreorder();
    SortSorted(Cheaper, survivors);
    SortMultiset(Cheaper, survivors);
    SortStable(Cheaper, survivors, c);
    SameMembers(Sort(Cheaper, survivors), survivors);
  }

  /** Each trace step names a part of what the step before named. */
  lemma TraceShrinks(key: Key, context: Context, routes: seq<Route>, stage: nat)
    requires stage < 4
    ensures multiset(Survivors(key, context, routes, stage + 1)) <= multiset(Survivors(key, context, routes, stage))
    ensures forall id :: id in Ids(Survivors(key, context, routes, stage + 1)) ==>
      id in Ids(Survivors(key, context, routes, stage))
  {
    var before, after := Survivors(key, context, routes, stage), Survivors(key, context, routes, stage + 1);
    match stage {
      case 0 => FilterMembers(IsHealthy(context.providers), before);
      case 1 => FilterMembers(IsCapable(key), before);
      case 2 => FilterMembers(IsResident(key, context.posture), before);
      case _ => SortMultiset(Cheaper, before);
    }
    PartOfIds(after, before);
  }

  lemma PartOfIds(after: seq<Candidate>, before: seq<Candidate>)
    requires multiset(after) <= multiset(before)
    ensures forall id :: id in Ids(after) ==> id in Ids(before)
  {
    forall i | 0 <= i < |after| ensures RouteId(after[i]) in Ids(before) {
      assert after[i] in multiset(after) && after[i] in multiset(before);
      var j :| 0 <= j < |before| && before[j] == after[i];
      assert Ids(before)[j] == RouteId(after[i]);
    }
  }

  // ---------------------------------------------------------------- keys

  datatype EncodedKey = EncodedKey(profile: Profile, classification: Classification, requires_: seq<string>)

  function KeyString(le: (string, string) -> bool, key: Key): EncodedKey {
    EncodedKey(key.profile, key.classification, Sort(le, key.requires_))
  }

  /** Two keys are encoded alike exactly when they differ only in the order of the
      capabilities. */
  lemma KeyStringExact(le: (string, string) -> bool, a: Key, b: Key)
    requires TotalOrder(le)
    ensures KeyString(le, a) == KeyString(le, b) <==>
      a.profile == b.profile && a.classification == b.classification && multiset(a.requires_) == multiset(b.requires_)
  {
    SortMultiset(le, a.requires_);
    SortMultiset(le, b.requires_);
    SortSorted(le, a.requires_);
    SortSorted(le, b.requires_);
    if multiset(a.requires_) == multiset(b.requires_) {
      SortedUnique(le, Sort(le, a.requires_), Sort(le, b.requires_));
    }
  }

  lemma {:induction false} FilterSame(p: Test, q: Test, candidates: seq<Candidate>)
    requires forall c :: p.Passes(c) <==> q.Passes(c)
    ensures Filter(p, candidates) == Filter(q, candidates)
  {
    if candidates != [] {
      FilterSame(p, q, candidates[1..]);
    }
  }

  lemma StageSame(a: Key, b: Key, context: Context, routes: seq<Route>, stage: nat)
    requires 1 <= stage <= 3 && Survivors(a, context, routes, stage - 1) == Survivors(b, context, routes, stage - 1)
    requires forall c :: TestAt(a, context, stage).Passes(c) <==> TestAt(b, context, stage).Passes(c)
    ensures Survivors(a, context, routes, stage) == Survivors(b, context, routes, stage)
  {
    var before := Survivors(a, context, routes, stage - 1);
    FilterSame(TestAt(a, context, stage), TestAt(b, context, stage), before);
    assert Survivors(a, context, routes, stage) == Filter(TestAt(a, context, stage), before);
    assert Survivors(b, context, routes, stage) == Filter(TestAt(b, context, stage), before);
  }

  /** Keys that are encoded alike have the same candidates after every step. */
  lemma KeyDeterminesResult(le: (string, string) -> bool, a: Key, b: Key, context: Context, routes: seq<Route>,
                            stage: nat)
    requires TotalOrder(le) && KeyString(le, a) == KeyString(le, b)
    ensures Refused(a, context) == Refused(b, context)
    ensures Survivors(a, context, routes, stage) == Survivors(b, context, routes, stage)
  {
    KeyStringExact(le, a, b);
    SameMembers(a.requires_, b.requires_);
    forall c ensures Capable(a, c) <==> Capable(b, c) {}
    StageSame(a, b, context, routes, 1);
    StageSame(a, b, context, routes, 2);
    StageSame(a, b, context, routes, 3);
  }
}
