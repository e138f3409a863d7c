/** The provider registry as the kernel wires it: health and catalog changes invalidate the
    cached route tables, but a health change does so only after its record was appended. */
module Providers {
  import opened Wrappers
  import opened Routes
  import opened RouteTable

  /** A catalog update between reading the provider's state and writing it back. */
  datatype Update = Update(captured: ProviderState, catalog: seq<CatalogEntry>, catalogDigest: string)

  function WithProvider(providers: seq<ProviderState>, state: ProviderState): seq<ProviderState> {
    if providers == [] then [state]
    else if providers[0].id == state.id then [state] + providers[1..]
    else [providers[0]] + WithProvider(providers[1..], state)
  }

  function WrittenBack(update: Update): ProviderState {
    update.captured.(catalog := update.catalog, catalogDigest := update.catalogDigest)
  }

  // ---------------------------------------------------------------- the registry

  /** The methods are cut where the program awaits the record appender. */
  class ProviderStateRegistry {
    const routeTables: RouteTableStore
    var providers: seq<ProviderState>

    constructor (routeTables: RouteTableStore)
      ensures providers == [] && this.routeTables == routeTables
    {
      this.routeTables := routeTables;
      providers := [];
    }

    method Register(state: ProviderState)
      modifies this`providers
      ensures providers == WithProvider(old(providers), state)
    {
      providers := WithProvider(providers, state);
    }

    /** Up to the append: the new health is in force, and whether it has to be announced. */
    method ReportHealth(id: string, healthy: bool, reportedAt: int) returns (changed: Result<bool, string>)
      modifies this`providers
      ensures match ProviderFor(old(providers), id)
        case None => changed.Err? && providers == old(providers)
        case Some(state) =>
          && changed == Ok(state.healthy != healthy)
          && providers == WithProvider(old(providers), state.(healthy := healthy, reportedAt := reportedAt))
    {
      var state := ProviderFor(providers, id);
      if state.None? {
        return Err("Unknown model provider " + id);
      }
      providers := WithProvider(providers, state.value.(healthy := healthy, reportedAt := reportedAt));
      changed := Ok(state.value.healthy != healthy);
    }

    /** After the append of a health change. */
    method HealthRecorded(id: string)
      modifies routeTables
      ensures routeTables.State() == Invalidated(old(routeTables.State()), id)
    {
      routeTables.InvalidateProvider(id);
    }

    /** Up to the append: the provider's state is read, nothing is written. */
    method UpdateCatalog(id: string, catalog: seq<CatalogEntry>, catalogDigest: string)
      returns (update: Result<Option<Update>, string>)
      ensures match ProviderFor(providers, id)
        case None => update.Err?
        case Some(state) =>
          update == Ok(if state.catalogDigest == catalogDigest then None
                       else Some(Update(state, catalog, catalogDigest)))
    {
      var state := ProviderFor(providers, id);
      if state.None? {
        return Err("Unknown model provider " + id);
      }
      update := Ok(if state.value.catalogDigest == catalogDigest then None
                   else Some(Update(state.value, catalog, catalogDigest)));
    }

    /** After the append of a catalog change: written back and invalidated in one go. */
    method CatalogRecorded(update: Update)
      modifies this`providers, routeTables
      ensures providers == WithProvider(old(providers), WrittenBack(update))
      ensures routeTables.State() == Invalidated(old(routeTables.State()), update.captured.id)
    {
      providers := WithProvider(providers, WrittenBack(update));
      routeTables.InvalidateProvider(update.captured.id);
    }
  }

  // ---------------------------------------------------------------- all interleavings

  /** The registry, the route tables, the health changes whose append is awaited, and the
      catalog updates under way. */
  datatype Kernel = Kernel(
    providers: seq<ProviderState>, tables: Tables, notices: multiset<string>, updates: multiset<Update>)

  const NEW_KERNEL := Kernel([], Tables(map[], map[]), multiset{}, multiset{})

  datatype Step =
    | Register(state: ProviderState)
    | ReportHealth(id: string, healthy: bool, reportedAt: int)
    | HealthRecorded(id: string)
    | HealthAppendFailed(id: string)
    | UpdateCatalog(id: string, catalog: seq<CatalogEntry>, catalogDigest: string)
    | CatalogRecorded(update: Update)
    | CatalogAppendFailed(update: Update)
    | Resolve(key: Key, context: Context)
    | ResidencyRevoked(id: string)
    | Clear

  /** Each id is registered once, a resolve sees the registry, and only what is under way
      can finish. */
  predicate Enabled(k: Kernel, step: Step) {
    match step
    case Register(state) => ProviderFor(k.providers, state.id).None?
    case ReportHealth(id, _, _) => ProviderFor(k.providers, id).Some?
    case HealthRecorded(id) => id in k.notices
    case HealthAppendFailed(id) => id in k.notices
    case UpdateCatalog(id, _, _) => ProviderFor(k.providers, id).Some?
    case CatalogRecorded(update) => update in k.updates
    case CatalogAppendFailed(update) => update in k.updates
    case Resolve(_, context) => context.providers == k.providers
    case ResidencyRevoked(_) => true
    case Clear => true
  }

  function Apply(le: (string, string) -> bool, k: Kernel, step: Step): Kernel
    requires Enabled(k, step)
  {
    match step
    case Register(state) => k.(providers := WithProvider(k.providers, state))
    case ReportHealth(id, healthy, reportedAt) =>
      var state := ProviderFor(k.providers, id).value;
      k.(providers := WithProvider(k.providers, state.(healthy := healthy, reportedAt := reportedAt)),
         notices := if state.healthy != healthy then k.notices + multiset{id} else k.notices)
    case HealthRecorded(id) => k.(tables := Invalidated(k.tables, id), notices := k.notices - multiset{id})
    case HealthAppendFailed(id) => k.(notices := k.notices - multiset{id})
    case UpdateCatalog(id, catalog, catalogDigest) =>
      var state := ProviderFor(k.providers, id).value;
      if state.catalogDigest == catalogDigest then k
      else k.(updates := k.updates + multiset{Update(state, catalog, catalogDigest)})
    case CatalogRecorded(update) =>
      k.(providers := WithProvider(k.providers, WrittenBack(update)),
         tables := Invalidated(k.tables, update.captured.id),
         updates := k.updates - multiset{update})
    case CatalogAppendFailed(update) => k.(updates := k.updates - multiset{update})
    case Resolve(key, context) => k.(tables := AfterResolve(le, k.tables, key, context))
    case ResidencyRevoked(id) => k.(tables := Invalidated(k.tables, id))
    case Clear => k.(tables := Tables(map[], map[]))
  }

  /** A run of the kernel: states[n] is the state after the first n steps. */
  ghost predicate IsRun(le: (string, string) -> bool, states: seq<Kernel>, steps: seq<Step>) {
    && |states| == |steps| + 1 && states[0] == NEW_KERNEL
    && forall n :: 0 <= n < |steps| ==> Enabled(states[n], steps[n]) && states[n + 1] == Apply(le, states[n], steps[n])
  }

  // ---------------------------------------------------------------- which providers are stale

  /** A healthy provider is reported unhealthy. */
  predicate Falls(k: Kernel, step: Step, id: string) {
    && step.ReportHealth? && step.id == id && !step.healthy
    && ProviderFor(k.providers, id).Some? && ProviderFor(k.providers, id).value.healthy
  }

  /** The provider is reported healthy, or its cached tables are dropped. */
  predicate Refreshes(step: Step, id: string) {
    match step
    case ReportHealth(p, healthy, _) => p == id && healthy
    case HealthRecorded(p) => p == id
    case CatalogRecorded(update) => update.captured.id == id
    case ResidencyRevoked(p) => p == id
    case Clear => true
    case _ => false
  }

  /** After the first n steps: the provider has fallen, and nothing has refreshed it since. */
  ghost predicate Stale(states: seq<Kernel>, steps: seq<Step>, n: nat, id: string)
    requires n <= |steps| && n < |states|
  {
    exists m :: FellAt(states, steps, n, id, m)
  }

  ghost predicate FellAt(states: seq<Kernel>, steps: seq<Step>, n: nat, id: string, m: int)
    requires n <= |steps| && n < |states|
  {
    0 <= m < n && Falls(states[m], steps[m], id) && forall k :: m < k < n ==> !Refreshes(steps[k], id)
  }

  lemma StaleNext(states: seq<Kernel>, steps: seq<Step>, n: nat, id: string)
    requires n < |steps| && n + 1 < |states|
    ensures Stale(states, steps, n + 1, id)
      <==> Falls(states[n], steps[n], id) || (Stale(states, steps, n, id) && !Refreshes(steps[n], id))
  {
    if Falls(states[n], steps[n], id) {
      assert FellAt(states, steps, n + 1, id, n);
    }
    if Stale(states, steps, n, id) && !Refreshes(steps[n], id) {
      var m :| FellAt(states, steps, n, id, m);
      assert FellAt(states, steps, n + 1, id, m);
    }
    if Stale(states, steps, n + 1, id) {
      var m :| FellAt(states, steps, n + 1, id, m);
      assert m == n || FellAt(states, steps, n, id, m);
    }
  }

  // ---------------------------------------------------------------- soundness of the cache

  /** What a candidate says about its provider is still so: catalog entry and residency. */
  ghost predicate Current(providers: seq<ProviderState>, c: Candidate) {
    Resolved(providers, c.route) == Some(c) && c.entry.available
  }

  /** stale holds the ids of the providers that are stale. */
  ghost predicate CandidateOk(k: Kernel, stale: iset<string>, c: Candidate) {
    Current(k.providers, c) && (Healthy(k.providers, c) <==> c.route.provider !in stale)
  }

  ghost predicate CacheInv(k: Kernel, stale: iset<string>) {
    && Covered(k.tables)
    && forall encoded, c :: encoded in k.tables.tables && c in k.tables.tables[encoded].candidates ==>
         CandidateOk(k, stale, c)
  }

  /** How a step changes the stale ids. */
  ghost predicate StaleStep(k: Kernel, step: Step, stale: iset<string>, later: iset<string>) {
    forall id :: id in later <==> Falls(k, step, id) || (id in stale && !Refreshes(step, id))
  }

  lemma {:induction false} LookupAfterWrite(providers: seq<ProviderState>, state: ProviderState, id: string)
    ensures ProviderFor(WithProvider(providers, state), id)
         == if id == state.id then Some(state) else ProviderFor(providers, id)
  {
    if providers != [] && providers[0].id != state.id {
      LookupAfterWrite(providers[1..], state, id);
    }
  }

  lemma {:induction false} LookupId(providers: seq<ProviderState>, id: string)
    ensures ProviderFor(providers, id).Some? ==> ProviderFor(providers, id).value.id == id
  {
    if providers != [] {
      LookupId(providers[1..], id);
    }
  }

  lemma BuiltOk(k: Kernel, key: Key, context: Context)
    requires context.providers == k.providers && Built(key, context).Ok?
    ensures forall c :: c in Built(key, context).value.candidates ==> Current(k.providers, c) && Healthy(k.providers, c)
  {
    var routes := context.profiles[key.profile].routes;
    forall c | c in Built(key, context).value.candidates ensures Current(k.providers, c) && Healthy(k.providers, c) {
      FilterExact(key, context, routes, c);
    }
  }

  /** Only unhealthy providers are stale. */
  ghost predicate StaleUnhealthy(k: Kernel, stale: iset<string>) {
    forall id :: id in stale ==> ProviderFor(k.providers, id).Some? && !ProviderFor(k.providers, id).value.healthy
  }

  ghost predicate Inv(k: Kernel, stale: iset<string>) {
    CacheInv(k, stale) && StaleUnhealthy(k, stale)
  }

  lemma InvalidateKeeps(k: Kernel, t: Kernel, provider: string, stale: iset<string>, later: iset<string>)
    requires CacheInv(k, stale) && t.tables == Invalidated(k.tables, provider)
    requires forall c: Candidate ::
      c.route.provider != provider && CandidateOk(k, stale, c) ==> CandidateOk(t, later, c)
    ensures CacheInv(t, later)
  {
    InvalidationClears(k.tables, provider);
  }

  lemma ResolveKeeps(le: (string, string) -> bool, k: Kernel, key: Key, context: Context, stale: iset<string>)
    requires Inv(k, stale) && context.providers == k.providers
    ensures CacheInv(k.(tables := AfterResolve(le, k.tables, key, context)), stale)
  {
    ResolveCovers(le, k.tables, key, context);
    var t := k.(tables := AfterResolve(le, k.tables, key, context));
    if !Hit(le, k.tables, key, context) && Built(key, context).Ok? {
      BuiltOk(k, key, context);
    }
    forall encoded, c | encoded in t.tables.tables && c in t.tables.tables[encoded].candidates
      ensures CandidateOk(t, stale, c)
    {
      assert CandidateOk(k, stale, c);
    }
  }

  /** A write that keeps catalog and residency of its provider keeps what candidates say. */
  lemma WriteKeeps(k: Kernel, t: Kernel, state: ProviderState, stale: iset<string>, later: iset<string>, c: Candidate)
    requires t.providers == WithProvider(k.providers, state) && CandidateOk(k, stale, c)
    requires c.route.provider != state.id ==> (c.route.provider in later <==> c.route.provider in stale)
    requires c.route.provider == state.id ==>
      && ProviderFor(k.providers, state.id).Some?
      && state.catalog == ProviderFor(k.providers, state.id).value.catalog
      && state.residency == ProviderFor(k.providers, state.id).value.residency
      && (state.healthy <==> state.id !in later)
    ensures CandidateOk(t, later, c)
  {
    LookupAfterWrite(k.providers, state, c.route.provider);
  }

  lemma SameTablesKeep(k: Kernel, t: Kernel, stale: iset<string>, later: iset<string>)
    requires CacheInv(k, stale) && t.tables == k.tables && t.providers == k.providers
    requires forall id :: id in later <==> id in stale
    ensures CacheInv(t, later)
  {
    forall encoded, c | encoded in t.tables.tables && c in t.tables.tables[encoded].candidates
      ensures CandidateOk(t, later, c)
    {
      assert CandidateOk(k, stale, c);
    }
  }

  lemma StaleStaysUnhealthy(le: (string, string) -> bool, k: Kernel, step: Step, stale: iset<string>,
                            later: iset<string>)
    requires StaleUnhealthy(k, stale) && Enabled(k, step) && StaleStep(k, step, stale, later)
    ensures StaleUnhealthy(Apply(le, k, step), later)
  {
    var t := Apply(le, k, step);
    forall id | id in later
      ensures ProviderFor(t.providers, id).Some? && !ProviderFor(t.providers, id).value.healthy
    {
      match step
      case Register(state) => LookupAfterWrite(k.providers, state, id);
      case ReportHealth(p, healthy, reportedAt) =>
        LookupId(k.providers, p);
        var state := ProviderFor(k.providers, p).value;
        LookupAfterWrite(k.providers, state.(healthy := healthy, reportedAt := reportedAt), id);
      case CatalogRecorded(update) => LookupAfterWrite(k.providers, WrittenBack(update), id);
      case _ =>
    }
  }

  lemma ReportKeeps(le: (string, string) -> bool, k: Kernel, step: Step, stale: iset<string>, later: iset<string>)
    requires Inv(k, stale) && Enabled(k, step) && step.ReportHealth? && StaleStep(k, step, stale, later)
    ensures CacheInv(Apply(le, k, step), later)
  {
    var t, before := Apply(le, k, step), ProviderFor(k.providers, step.id).value;
    LookupId(k.providers, step.id);
    forall encoded, c | encoded in t.tables.tables && c in t.tables.tables[encoded].candidates
      ensures CandidateOk(t, later, c)
    {
      assert CandidateOk(k, stale, c);
      WriteKeeps(k, t, before.(healthy := step.healthy, reportedAt := step.reportedAt), stale, later, c);
    }
  }

  lemma CatalogKeeps(le: (string, string) -> bool, k: Kernel, step: Step, stale: iset<string>, later: iset<string>)
    requires CacheInv(k, stale) && Enabled(k, step) && step.CatalogRecorded? && StaleStep(k, step, stale, later)
    ensures CacheInv(Apply(le, k, step), later)
  {
    var t, id := Apply(le, k, step), step.update.captured.id;
    forall c: Candidate | c.route.provider != id && CandidateOk(k, stale, c) ensures CandidateOk(t, later, c) {
      WriteKeeps(k, t, WrittenBack(step.update), stale, later, c);
    }
    InvalidateKeeps(k, t, id, stale, later);
  }

  lemma RegisterKeeps(le: (string, string) -> bool, k: Kernel, step: Step, stale: iset<string>, later: iset<string>)
    requires CacheInv(k, stale) && Enabled(k, step) && step.Register? && StaleStep(k, step, stale, later)
    ensures CacheInv(Apply(le, k, step), later)
  {
    var t := Apply(le, k, step);
    forall encoded, c | encoded in t.tables.tables && c in t.tables.tables[encoded].candidates
      ensures CandidateOk(t, later, c)
    {
      assert CandidateOk(k, stale, c);
      WriteKeeps(k, t, step.state, stale, later, c);
    }
  }

  lemma StepKeeps(le: (string, string) -> bool, k: Kernel, step: Step, stale: iset<string>, later: iset<string>)
    requires Inv(k, stale) && Enabled(k, step) && StaleStep(k, step, stale, later)
    ensures Inv(Apply(le, k, step), later)
  {
    var t := Apply(le, k, step);
    StaleStaysUnhealthy(le, k, step, stale, later);
    match step
    case Register(state) => RegisterKeeps(le, k, step, stale, later);
    case ReportHealth(_, _, _) => ReportKeeps(le, k, step, stale, later);
    case HealthRecorded(id) => InvalidateKeeps(k, t, id, stale, later);
    case CatalogRecorded(_) => CatalogKeeps(le, k, step, stale, later);
    case Resolve(key, context) =>
      ResolveKeeps(le, k, key, context, stale);
      SameTablesKeep(t, t, stale, later);
    case ResidencyRevoked(id) => InvalidateKeeps(k, t, id, stale, later);
    case Clear =>
    case _ => SameTablesKeep(k, t, stale, later);
  }

  ghost function StaleIds(states: seq<Kernel>, steps: seq<Step>, n: nat): iset<string>
    requires n <= |steps| && n < |states|
  {
    iset id | Stale(states, steps, n, id)
  }

  lemma {:induction false} RunKeeps(le: (string, string) -> bool, states: seq<Kernel>, steps: seq<Step>, n: nat)
    requires IsRun(le, states, steps) && n < |states|
    ensures Inv(states[n], StaleIds(states, steps, n))
  {
    if n > 0 {
      RunKeeps(le, states, steps, n - 1);
      forall id ensures id in StaleIds(states, steps, n)
        <==> Falls(states[n - 1], steps[n - 1], id)
             || (id in StaleIds(states, steps, n - 1) && !Refreshes(steps[n - 1], id))
      {
        StaleNext(states, steps, n - 1, id);
      }
      StepKeeps(le, states[n - 1], steps[n - 1], StaleIds(states, steps, n - 1), StaleIds(states, steps, n));
    }
  }

  /** Route cache soundness over every run, exactly: each candidate of a table that resolve
      returns, cached or fresh, has its provider's current catalog entry and residency; and
      its provider is unhealthy if and only if the table comes from the cache and the provider
      is stale: it was reported unhealthy while healthy, and since then it was neither
      reported healthy nor were its tables dropped. */
  lemma RouteCacheSound(le: (string, string) -> bool, states: seq<Kernel>, steps: seq<Step>, n: nat,
                        key: Key, context: Context, c: Candidate)
    requires IsRun(le, states, steps) && n < |states| && context.providers == states[n].providers
    requires Answer(le, states[n].tables, key, context).Ok?
    requires c in Answer(le, states[n].tables, key, context).value.candidates
    ensures Current(states[n].providers, c)
    ensures !Healthy(states[n].providers, c)
      <==> Hit(le, states[n].tables, key, context) && Stale(states, steps, n, c.route.provider)
  {
    var k := states[n];
    RunKeeps(le, states, steps, n);
    if Hit(le, k.tables, key, context) {
      assert CandidateOk(k, StaleIds(states, steps, n), c);
    } else {
      BuiltOk(k, key, context);
    }
  }

  /** Announcing the change closes the window. */
  lemma AnnouncementClosesWindow(le: (string, string) -> bool, states: seq<Kernel>, steps: seq<Step>, n: nat,
                                 key: Key, context: Context, c: Candidate)
    requires IsRun(le, states, steps) && n < |steps| && context.providers == states[n + 1].providers
    requires steps[n] == HealthRecorded(c.route.provider)
    requires Answer(le, states[n + 1].tables, key, context).Ok?
    requires c in Answer(le, states[n + 1].tables, key, context).value.candidates
    ensures Healthy(states[n + 1].providers, c)
  {
    RouteCacheSound(le, states, steps, n + 1, key, context, c);
    StaleNext(states, steps, n, c.route.provider);
  }
}
