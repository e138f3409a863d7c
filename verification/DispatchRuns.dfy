/** Dispatch over every run of the kernel, cached tables included: what is selected from a table
    that resolve returns, and what a table from the cache still promises to who asks. */
module DispatchRuns {
  import opened Wrappers
  import opened Sorting
  import opened Routes
  import opened RouteTable
  import opened Providers
  import opened ProviderRuns
  import opened Dispatcher

  /** A cached table is sorted, and its candidates have the capabilities of the key it is
      stored under. */
  ghost predicate TableOk(le: (string, string) -> bool, encoded: EncodedKey, entry: Entry) {
    && KeyString(le, entry.key) == encoded && SortedBy(Cheaper, entry.candidates)
    && forall c :: c in entry.candidates ==> Capable(entry.key, c)
  }

  ghost predicate TablesOk(le: (string, string) -> bool, s: Tables) {
    forall encoded :: encoded in s.tables ==> TableOk(le, encoded, s.tables[encoded])
  }

  lemma BuiltTableOk(le: (string, string) -> bool, key: Key, context: Context)
    requires Built(key, context).Ok?
    ensures TableOk(le, KeyString(le, key), Built(key, context).value)
  {
    var routes := context.profiles[key.profile].routes;
    forall c: Candidate
      ensures SortedBy(Cheaper, Survivors(key, context, routes, 4))
      ensures c in Survivors(key, context, routes, 4) ==> Capable(key, c)
    {
      FilterExact(key, context, routes, c);
    }
  }

  lemma StepKeepsTables(le: (string, string) -> bool, k: Kernel, step: Step)
    requires Enabled(k, step) && TablesOk(le, k.tables)
    ensures TablesOk(le, Apply(le, k, step).tables)
  {
    if step.Resolve? && Built(step.key, step.context).Ok? {
      BuiltTableOk(le, step.key, step.context);
    }
  }

  lemma {:induction false} RunKeepsTables(le: (string, string) -> bool, states: seq<Kernel>, steps: seq<Step>, n: nat)
    requires IsRun(le, states, steps) && n < |states|
    ensures TablesOk(le, states[n].tables)
  {
    if n > 0 {
      RunKeepsTables(le, states, steps, n - 1);
      StepKeepsTables(le, states[n - 1], steps[n - 1]);
    }
  }

  lemma CapableAlike(le: (string, string) -> bool, a: Key, b: Key, c: Candidate)
    requires TotalOrder(le) && KeyString(le, a) == KeyString(le, b)
    ensures Capable(a, c) <==> Capable(b, c)
  {
    KeyStringExact(le, a, b);
    SameMembers(a.requires_, b.requires_);
  }

  /** Every table that resolve returns, cached or fresh, is sorted and its candidates have the
      capabilities asked for. */
  lemma AnsweredTable(le: (string, string) -> bool, states: seq<Kernel>, steps: seq<Step>, n: nat, key: Key,
                      context: Context)
    requires TotalOrder(le) && IsRun(le, states, steps) && n < |states|
    requires Answer(le, states[n].tables, key, context).Ok?
    ensures var candidates := Answer(le, states[n].tables, key, context).value.candidates;
      SortedBy(Cheaper, candidates) && forall c :: c in candidates ==> Capable(key, c)
  {
    if Hit(le, states[n].tables, key, context) {
      RunKeepsTables(le, states, steps, n);
      var entry := states[n].tables.tables[KeyString(le, key)];
      forall c | c in entry.candidates
        ensures Capable(key, c)
      {
        CapableAlike(le, entry.key, key, c);
      }
    } else {
      BuiltTableOk(le, key, context);
    }
  }

  /** What the live filter gives, nothing if it refuses. */
  function Live(key: Key, context: Context): seq<Candidate> {
    if Refused(key, context).Some? then [] else Survivors(key, context, context.profiles[key.profile].routes, 4)
  }

  /** The asker's profile is within the ceiling, available, and binds the route. */
  predicate Binds(key: Key, context: Context, route: Route) {
    Refused(key, context).None? && route in context.profiles[key.profile].routes
  }

  lemma LiveExact(key: Key, context: Context, c: Candidate)
    ensures c in Live(key, context) <==> Binds(key, context, c.route) && Eligible(key, context, c)
  {
    if Refused(key, context).None? {
      FilterExact(key, context, context.profiles[key.profile].routes, c);
    }
  }

  /** What a hit does not look at: whether the asker's profile still binds the route, whether
      the provider is stale, and whether the asker's posture allows the residency. */
  ghost predicate StillFits(states: seq<Kernel>, steps: seq<Step>, n: nat, key: Key, context: Context, c: Candidate)
    requires n <= |steps| && n < |states|
  {
    && Binds(key, context, c.route) && !Stale(states, steps, n, c.route.provider)
    && Resident(key, context.posture, c)
  }

  /** A candidate of an answered table is one that the live filter would let pass, exactly if
      the table is fresh or the candidate still fits. */
  lemma AnsweredEligible(le: (string, string) -> bool, states: seq<Kernel>, steps: seq<Step>, n: nat, key: Key,
                         context: Context, c: Candidate)
    requires TotalOrder(le) && IsRun(le, states, steps) && n < |states| && context.providers == states[n].providers
    requires Answer(le, states[n].tables, key, context).Ok?
    requires c in Answer(le, states[n].tables, key, context).value.candidates
    ensures c in Live(key, context) <==>
      (Hit(le, states[n].tables, key, context) ==> StillFits(states, steps, n, key, context, c))
  {
    RouteCacheSound(le, states, steps, n, key, context, c);
    AnsweredTable(le, states, steps, n, key, context);
    LiveExact(key, context, c);
  }

  // ---------------------------------------------------------------- what a hit lacks

  /** The table was built by the resolve of step m. */
  ghost predicate BuiltAt(le: (string, string) -> bool, steps: seq<Step>, encoded: EncodedKey, entry: Entry, m: nat)
    requires m < |steps|
  {
    && steps[m].Resolve? && KeyString(le, steps[m].key) == encoded
    && Built(steps[m].key, steps[m].context) == Ok(entry)
  }

  ghost predicate BuiltBefore(le: (string, string) -> bool, steps: seq<Step>, n: nat, encoded: EncodedKey, entry: Entry)
    requires n <= |steps|
  {
    exists m :: 0 <= m < n && BuiltAt(le, steps, encoded, entry, m)
  }

  lemma NextBuilt(le: (string, string) -> bool, states: seq<Kernel>, steps: seq<Step>, n: nat, encoded: EncodedKey)
    requires n < |steps| && n + 1 < |states| && Enabled(states[n], steps[n])
    requires states[n + 1] == Apply(le, states[n], steps[n]) && encoded in states[n + 1].tables.tables
    ensures var entry := states[n + 1].tables.tables[encoded];
      || (encoded in states[n].tables.tables && entry == states[n].tables.tables[encoded])
      || BuiltAt(le, steps, encoded, entry, n)
  {}

  lemma {:induction false} CachedBuilt(le: (string, string) -> bool, states: seq<Kernel>, steps: seq<Step>, n: nat,
                                       encoded: EncodedKey)
    requires IsRun(le, states, steps) && n < |states| && encoded in states[n].tables.tables
    ensures BuiltBefore(le, steps, n, encoded, states[n].tables.tables[encoded])
  {
    NextBuilt(le, states, steps, n - 1, encoded);
    var entry := states[n].tables.tables[encoded];
    if BuiltAt(le, steps, encoded, entry, n - 1) {
      assert BuiltBefore(le, steps, n, encoded, entry);
    } else {
      CachedBuilt(le, states, steps, n - 1, encoded);
      var m :| 0 <= m < n - 1 && BuiltAt(le, steps, encoded, entry, m);
      assert BuiltBefore(le, steps, n, encoded, entry);
    }
  }

  /** A hit serves what some earlier resolve built, under the same stamps: it lacks a candidate
      that the live filter would let pass, exactly if that candidate did not pass then: its
      route was not bound, or its provider was not there, not healthy, not resident, or had
      another catalog entry or residency. */
  lemma HitLacks(le: (string, string) -> bool, states: seq<Kernel>, steps: seq<Step>, n: nat, key: Key,
                 context: Context) returns (m: nat)
    requires IsRun(le, states, steps) && n < |states| && Hit(le, states[n].tables, key, context)
    ensures m < n && BuiltAt(le, steps, KeyString(le, key), Answer(le, states[n].tables, key, context).value, m)
    ensures StampsMatch(Built(steps[m].key, steps[m].context).value, context)
    ensures forall c :: c in Live(key, context) ==>
      (c !in Answer(le, states[n].tables, key, context).value.candidates <==>
       !(Binds(steps[m].key, steps[m].context, c.route) && Eligible(steps[m].key, steps[m].context, c)))
  {
    var encoded := KeyString(le, key);
    CachedBuilt(le, states, steps, n, encoded);
    var entry := states[n].tables.tables[encoded];
    m :| 0 <= m < n && BuiltAt(le, steps, encoded, entry, m);
    forall c: Candidate
      ensures c in entry.candidates
        <==> Binds(steps[m].key, steps[m].context, c.route) && Eligible(steps[m].key, steps[m].context, c)
    {
      LiveExact(steps[m].key, steps[m].context, c);
    }
  }

  /** Dispatch over every run: a selection from the answered table is one of its candidates,
      has its provider's current entry and residency and the capabilities asked for, is
      affordable, and is least in priority and cost among the affordable candidates; the live
      filter would let it pass exactly if the table is fresh or it still fits; and there is no
      selection exactly if no candidate is affordable. */
  lemma DispatchOverRuns(le: (string, string) -> bool, states: seq<Kernel>, steps: seq<Step>, n: nat, key: Key,
                         context: Context, usage: Usage, maxCost: Option<Cost>, previous: Option<string>)
    requires TotalOrder(le) && IsRun(le, states, steps) && n < |states| && context.providers == states[n].providers
    requires Answer(le, states[n].tables, key, context).Ok?
    ensures
      var candidates := Answer(le, states[n].tables, key, context).value.candidates;
      match SelectBudgetedRoute(candidates, usage, maxCost, previous)
      case Err(_) => forall c :: c in candidates ==> !Affordable(c, usage, maxCost)
      case Ok(s) =>
        && s in candidates && Current(states[n].providers, s) && Capable(key, s) && Affordable(s, usage, maxCost)
        && (forall c :: c in candidates && Affordable(c, usage, maxCost) ==> Cheaper(s, c))
        && (s in Live(key, context) <==>
            (Hit(le, states[n].tables, key, context) ==> StillFits(states, steps, n, key, context, s)))
  {
    var candidates := Answer(le, states[n].tables, key, context).value.candidates;
    AnsweredTable(le, states, steps, n, key, context);
    SelectionExact(candidates, usage, maxCost, previous);
    var selected := SelectBudgetedRoute(candidates, usage, maxCost, previous);
    if selected.Ok? {
      RouteCacheSound(le, states, steps, n, key, context, selected.value);
      AnsweredEligible(le, states, steps, n, key, context, selected.value);
    }
  }

  // ---------------------------------------------------------------- the runs in which it matters

  /** The provider p is registered, and a table for the key is built and served again. */
  lemma ServedAgain(le: (string, string) -> bool, p: ProviderState, entry: CatalogEntry)
    returns (states: seq<Kernel>, steps: seq<Step>)
    requires p.id == "p" && p.catalog == [entry] && p.healthy && entry.modelId == "m" && entry.available
    ensures IsRun(le, states, steps) && steps == [Register(p), Resolve(KEY, Asking([p]))] && states[2].providers == [p]
    ensures KeyString(le, KEY) in states[2].tables.tables
    ensures Built(KEY, Asking([p])) == Ok(states[2].tables.tables[KeyString(le, KEY)])
    ensures states[2].tables.tables[KeyString(le, KEY)].candidates == [Candidate(ROUTE, entry, p.residency)]
  {
    steps := [Register(p), Resolve(KEY, Asking([p]))];
    var s1 := NEW_KERNEL.(providers := [p]);
    var s2 := Apply(le, s1, steps[1]);
    states := [NEW_KERNEL, s1, s2];
    TableBuiltFrom(p, entry, p.residency);
    assert !Hit(le, s1.tables, KEY, Asking([p]));
    assert s2.tables.tables == map[KeyString(le, KEY) := Built(KEY, Asking([p])).value];
  }

  /** A hit does not ask whether the profile is still available or within the ceiling: here
      the table is served although building it would be refused. */
  lemma HitNotRefused(le: (string, string) -> bool) returns (states: seq<Kernel>, steps: seq<Step>, context: Context)
    ensures IsRun(le, states, steps) && |steps| == 2 && context.providers == states[2].providers
    ensures Refused(KEY, context).Some? && Built(KEY, context).Err?
    ensures Hit(le, states[2].tables, KEY, context) && Answer(le, states[2].tables, KEY, context).Ok?
  {
    var p := Provider(ENTRY, "d", true);
    states, steps := ServedAgain(le, p, ENTRY);
    context := Asking([p]).(profiles := map[Fast := Binding([ROUTE], true)]);
  }

  /** A hit does not look at the posture: here the one candidate served has a residency that
      was revoked before, which the asker's posture forbids. */
  lemma HitNotResident(le: (string, string) -> bool) returns (states: seq<Kernel>, steps: seq<Step>, context: Context)
    ensures IsRun(le, states, steps) && |steps| == 2 && context.providers == states[2].providers
    ensures Hit(le, states[2].tables, KEY, context)
    ensures var c := Candidate(ROUTE, ENTRY, HOME.(revoked := true));
      && Answer(le, states[2].tables, KEY, context).value.candidates == [c]
      && !Resident(KEY, context.posture, c) && c !in Live(KEY, context)
  {
    var p := Provider(ENTRY, "d", true).(residency := HOME.(revoked := true));
    states, steps := ServedAgain(le, p, ENTRY);
    context := Asking([p]).(posture := Regulated);
    LiveExact(KEY, context, Candidate(ROUTE, ENTRY, HOME.(revoked := true)));
  }

  const OTHER_ROUTE := Route("q", "m", 0.0, 0.0)
  const OTHER_CANDIDATE := Candidate(OTHER_ROUTE, ENTRY, HOME)

  function AskingBoth(p: ProviderState, q: ProviderState): Context {
    Asking([p, q]).(profiles := map[Fast := Binding([ROUTE, OTHER_ROUTE], false)])
  }

  /** Of two bound providers the unhealthy one is not in the table that is built. */
  lemma OneHealthy(p: ProviderState, q: ProviderState)
    requires p == Provider(ENTRY, "d", true) && q == p.(id := "q", healthy := false)
    ensures var context := AskingBoth(p, q);
      && Built(KEY, context).Ok?
      && forall c :: c in Built(KEY, context).value.candidates ==> c.route.provider != "q"
  {
    var context, c := AskingBoth(p, q), Candidate(ROUTE, ENTRY, HOME);
    assert context.providers[0] == p && context.providers[1..] == [q];
    assert Resolved(context.providers, ROUTE) == Some(c);
    LiveExact(KEY, context, c);
    forall other: Candidate | other in Live(KEY, context)
      ensures other.route.provider != "q"
    {
      LiveExact(KEY, context, other);
    }
  }

  lemma BothHealthy(p: ProviderState, q: ProviderState)
    requires p == Provider(ENTRY, "d", true) && q.id == "q" && q.healthy && q.catalog == [ENTRY] && q.residency == HOME
    ensures OTHER_CANDIDATE in Live(KEY, AskingBoth(p, q))
  {
    var context := AskingBoth(p, q);
    RegisteredBoth(p, q, q);
    assert Resolved(context.providers, OTHER_ROUTE) == Some(OTHER_CANDIDATE);
    LiveExact(KEY, context, OTHER_CANDIDATE);
  }

  lemma {:induction false} IndexedOnly(providerKeys: map<string, set<EncodedKey>>, candidates: seq<Candidate>,
                                       encoded: EncodedKey, provider: string)
    requires forall c :: c in candidates ==> c.route.provider != provider
    ensures KeysOf(Indexed(providerKeys, candidates, encoded), provider) == KeysOf(providerKeys, provider)
    decreases |candidates|
  {
    if candidates != [] {
      var first := candidates[0].route.provider;
      assert first != provider;
      IndexedOnly(providerKeys[first := KeysOf(providerKeys, first) + {encoded}], candidates[1..], encoded, provider);
    }
  }

  /** Tables are not those of the live filter: a provider is unhealthy when the table is built.
      That it is healthy again is reported and announced, but drops no table that does not use
      it, so the table that is served goes on without its route. */
  lemma HitLacksRecovered(le: (string, string) -> bool)
    returns (states: seq<Kernel>, steps: seq<Step>, context: Context)
    ensures IsRun(le, states, steps) && |steps| == 5 && steps[4] == HealthRecorded("q")
    ensures context.providers == states[5].providers && Hit(le, states[5].tables, KEY, context)
    ensures OTHER_CANDIDATE in Live(KEY, context)
    ensures OTHER_CANDIDATE !in Answer(le, states[5].tables, KEY, context).value.candidates
  {
    var p := Provider(ENTRY, "d", true);
    var q := p.(id := "q", healthy := false);
    var well := q.(healthy := true, reportedAt := 5);
    states, steps := BothServed(le, p, q);
    context := AskingBoth(p, well);
    BothHealthy(p, well);
    OneHealthy(p, q);
    UnusedKept(le, AskingBoth(p, q), "q");
    states, steps := RecoveryAnnounced(le, states, steps, p, q, well);
  }

  lemma BothServed(le: (string, string) -> bool, p: ProviderState, q: ProviderState)
    returns (states: seq<Kernel>, steps: seq<Step>)
    requires p == Provider(ENTRY, "d", true) && q == p.(id := "q", healthy := false)
    ensures IsRun(le, states, steps) && |steps| == 3
    ensures states[3] == NEW_KERNEL.(
      providers := [p, q], tables := AfterResolve(le, Tables(map[], map[]), KEY, AskingBoth(p, q)))
  {
    RegisteredBoth(p, q, q);
    steps := [Register(p), Register(q), Resolve(KEY, AskingBoth(p, q))];
    var s1, s2 := NEW_KERNEL.(providers := [p]), NEW_KERNEL.(providers := [p, q]);
    states := [NEW_KERNEL, s1, s2, Apply(le, s2, steps[2])];
  }

  lemma RecoveryAnnounced(le: (string, string) -> bool, states: seq<Kernel>, steps: seq<Step>, p: ProviderState,
                          q: ProviderState, well: ProviderState) returns (later: seq<Kernel>, more: seq<Step>)
    requires IsRun(le, states, steps) && |steps| == 3
    requires states[3].providers == [p, q] && states[3].notices == multiset{}
    requires p.id == "p" && q.id == "q" && !q.healthy && well == q.(healthy := true, reportedAt := 5)
    ensures IsRun(le, later, more) && |more| == 5 && more[4] == HealthRecorded("q")
    ensures later[5].providers == [p, well] && later[5].tables == Invalidated(states[3].tables, "q")
  {
    var report, announce := ReportHealth("q", true, 5), HealthRecorded("q");
    RegisteredBoth(p, q, well);
    var reported := Apply(le, states[3], report);
    RunGrows(le, states, steps, report);
    RunGrows(le, states + [reported], steps + [report], announce);
    later := states + [reported] + [Apply(le, reported, announce)];
    more := steps + [report] + [announce];
  }

  /** Dropping the tables of a provider that the one table does not use drops nothing. */
  lemma UnusedKept(le: (string, string) -> bool, context: Context, provider: string)
    requires Built(KEY, context).Ok?
    requires forall c :: c in Built(KEY, context).value.candidates ==> c.route.provider != provider
    ensures var s := AfterResolve(le, Tables(map[], map[]), KEY, context);
      Invalidated(s, provider).tables == s.tables == map[KeyString(le, KEY) := Built(KEY, context).value]
  {
    IndexedOnly(map[], Built(KEY, context).value.candidates, KeyString(le, KEY), provider);
  }

  lemma RegisteredBoth(p: ProviderState, q: ProviderState, well: ProviderState)
    requires p.id == "p" && q.id == "q" && well.id == "q"
    ensures WithProvider([], p) == [p] && ProviderFor([], "p") == None
    ensures WithProvider([p], q) == [p, q] && ProviderFor([p], "q") == None
    ensures ProviderFor([p, q], "q") == Some(q) && WithProvider([p, q], well) == [p, well]
  {
    assert "p" != "q" && [p][1..] == [] && [p, q][1..] == [q];
  }
}
