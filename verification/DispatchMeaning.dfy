/** What dispatch promises in the terms of the request, the providers and the routes alone: the
    classification that counts, what an eligible candidate is, in which order candidates stand,
    when a cached table is served again, and what a call costs. */
module DispatchMeaning {
  import opened Wrappers
  import opened Sorting
  import opened Routes
  import opened RouteTable
  import opened Dispatcher

  // ---------------------------------------------------------------- the orders

  const CLASSIFICATIONS := [Public, Internal, Confidential, Restricted]
  const PROFILES := [Fast, Balanced, Deep]

  /** a does not stand after b in the order. */
  ghost predicate NotAbove<T(!new)>(order: seq<T>, a: T, b: T) {
    exists i, k :: 0 <= i <= k < |order| && order[i] == a && order[k] == b
  }

  lemma ClassificationOrder(a: Classification, b: Classification)
    ensures NotAbove(CLASSIFICATIONS, a, b) <==> a.Rank() <= b.Rank()
  {
    assert CLASSIFICATIONS[a.Rank()] == a && CLASSIFICATIONS[b.Rank()] == b;
    assert forall i :: 0 <= i < 4 ==> CLASSIFICATIONS[i].Rank() == i;
  }

  lemma ProfileOrder(a: Profile, b: Profile)
    ensures NotAbove(PROFILES, a, b) <==> a.Rank() <= b.Rank()
  {
    assert PROFILES[a.Rank()] == a && PROFILES[b.Rank()] == b;
    assert forall i :: 0 <= i < 3 ==> PROFILES[i].Rank() == i;
  }

  // ---------------------------------------------------------------- the classification that counts

  /** It is one of the two, and neither stands above it. */
  lemma HigherClassification(declared: Classification, frame: Classification)
    ensures MaximumClassification(declared, frame) in {declared, frame}
    ensures NotAbove(CLASSIFICATIONS, declared, MaximumClassification(declared, frame))
    ensures NotAbove(CLASSIFICATIONS, frame, MaximumClassification(declared, frame))
  {
    ClassificationOrder(declared, MaximumClassification(declared, frame));
    ClassificationOrder(frame, MaximumClassification(declared, frame));
  }

  /** The residency may hold content of that classification. */
  ghost predicate MayHold(residency: Residency, classification: Classification) {
    !residency.revoked && NotAbove(CLASSIFICATIONS, classification, residency.maximum)
  }

  /** Under a posture other than standard, what is selected from a fresh table may hold both the
      content as it was declared and the content of the frame. */
  lemma SelectionMayHold(profile: Profile, declared: Classification, frame: Classification, requires_: seq<string>,
                         context: Context, usage: Usage, maxCost: Option<Cost>, previous: Option<string>)
    requires context.posture != Standard
    ensures var key := Key(profile, MaximumClassification(declared, frame), requires_);
      Built(key, context).Ok? ==>
        var selected := SelectBudgetedRoute(Built(key, context).value.candidates, usage, maxCost, previous);
        selected.Ok? ==> MayHold(selected.value.residency, declared) && MayHold(selected.value.residency, frame)
  {
    var key := Key(profile, MaximumClassification(declared, frame), requires_);
    if Built(key, context).Ok? {
      var selected := SelectBudgetedRoute(Built(key, context).value.candidates, usage, maxCost, previous);
      if selected.Ok? {
        DispatchCorrect(key, context, usage, maxCost, previous);
        ClassificationOrder(declared, selected.value.residency.maximum);
        ClassificationOrder(frame, selected.value.residency.maximum);
      }
    }
  }

  // ---------------------------------------------------------------- what an eligible candidate is

  /** The first provider with the id. */
  ghost predicate IsProvider(providers: seq<ProviderState>, id: string, provider: ProviderState) {
    exists i :: 0 <= i < |providers| && providers[i] == provider && provider.id == id
      && forall k :: 0 <= k < i ==> providers[k].id != id
  }

  ghost predicate IsEntry(catalog: seq<CatalogEntry>, model: string, entry: CatalogEntry) {
    exists i :: 0 <= i < |catalog| && catalog[i] == entry && entry.modelId == model
      && forall k :: 0 <= k < i ==> catalog[k].modelId != model
  }

  lemma {:induction false} ProviderFound(providers: seq<ProviderState>, id: string, provider: ProviderState)
    ensures ProviderFor(providers, id) == Some(provider) <==> IsProvider(providers, id, provider)
  {
    if providers != [] && providers[0].id != id {
      var rest := providers[1..];
      ProviderFound(rest, id, provider);
      if IsProvider(rest, id, provider) {
        var i :| 0 <= i < |rest| && rest[i] == provider && forall k :: 0 <= k < i ==> rest[k].id != id;
        assert forall k :: 0 <= k < i + 1 ==> providers[k].id != id by {
          assert forall k :: 0 < k < i + 1 ==> providers[k] == rest[k - 1];
        }
        assert providers[i + 1] == provider;
      }
      if IsProvider(providers, id, provider) {
        var i :| 0 <= i < |providers| && providers[i] == provider && forall k :: 0 <= k < i ==> providers[k].id != id;
        assert rest[i - 1] == provider && forall k :: 0 <= k < i - 1 ==> rest[k] == providers[k + 1];
      }
    }
  }

  lemma {:induction false} EntryFound(catalog: seq<CatalogEntry>, model: string, entry: CatalogEntry)
    ensures EntryFor(catalog, model) == Some(entry) <==> IsEntry(catalog, model, entry)
  {
    if catalog != [] && catalog[0].modelId != model {
      var rest := catalog[1..];
      EntryFound(rest, model, entry);
      if IsEntry(rest, model, entry) {
        var i :| 0 <= i < |rest| && rest[i] == entry && forall k :: 0 <= k < i ==> rest[k].modelId != model;
        assert forall k :: 0 <= k < i + 1 ==> catalog[k].modelId != model by {
          assert forall k :: 0 < k < i + 1 ==> catalog[k] == rest[k - 1];
        }
        assert catalog[i + 1] == entry;
      }
      if IsEntry(catalog, model, entry) {
        var i :| 0 <= i < |catalog| && catalog[i] == entry && forall k :: 0 <= k < i ==> catalog[k].modelId != model;
        assert rest[i - 1] == entry && forall k :: 0 <= k < i - 1 ==> rest[k] == catalog[k + 1];
      }
    }
  }

  /** The candidate with the provider it comes from: healthy, with the entry available and
      capable, and with a residency that suits the posture. */
  ghost predicate Serves(key: Key, context: Context, c: Candidate, provider: ProviderState) {
    && IsProvider(context.providers, c.route.provider, provider) && provider.healthy
    && IsEntry(provider.catalog, c.route.model, c.entry) && c.entry.available
    && (forall i :: 0 <= i < |key.requires_| ==> key.requires_[i] in c.entry.capabilities)
    && c.residency == provider.residency
    && (context.posture == Standard || MayHold(c.residency, key.classification))
  }

  lemma EligibleMeans(key: Key, context: Context, c: Candidate)
    ensures Eligible(key, context, c) <==> exists provider :: Serves(key, context, c, provider)
  {
    ClassificationOrder(key.classification, c.residency.maximum);
    var found := ProviderFor(context.providers, c.route.provider);
    forall provider
      ensures found == Some(provider) <==> IsProvider(context.providers, c.route.provider, provider)
    {
      ProviderFound(context.providers, c.route.provider, provider);
    }
    if found.Some? {
      EntryFound(found.value.catalog, c.route.model, c.entry);
      assert Capable(key, c) <==> forall i :: 0 <= i < |key.requires_| ==> key.requires_[i] in c.entry.capabilities;
      assert Eligible(key, context, c) <==> Serves(key, context, c, found.value);
    }
  }

  /** The profile may be used: it is not above the ceiling, and bound to routes that are there. */
  ghost predicate Usable(key: Key, context: Context) {
    && NotAbove(PROFILES, key.profile, context.maximumProfile)
    && key.profile in context.profiles && !context.profiles[key.profile].unavailable
  }

  ghost predicate SomeServe(key: Key, context: Context)
    requires key.profile in context.profiles
  {
    exists c: Candidate, provider: ProviderState ::
      c.route in context.profiles[key.profile].routes && Serves(key, context, c, provider)
  }

  ghost predicate InOrder(candidates: seq<Candidate>) {
    forall i, k :: 0 <= i < k < |candidates| ==>
      || candidates[i].route.priority < candidates[k].route.priority
      || (candidates[i].route.priority == candidates[k].route.priority
          && candidates[i].route.costMetric <= candidates[k].route.costMetric)
  }

  /** A fresh table is built exactly if the profile may be used and some bound route has a
      candidate that serves; it holds exactly those, by priority and then by cost, with the
      stamps of the context. */
  lemma BuiltMeans(key: Key, context: Context)
    ensures Built(key, context).Ok? <==> Usable(key, context) && SomeServe(key, context)
    ensures Built(key, context).Ok? ==>
      var entry := Built(key, context).value;
      && entry.key == key && entry.epochs == context.epochs && entry.builtFromDigests == context.inputDigests
      && InOrder(entry.candidates)
      && forall c :: c in entry.candidates <==>
           c.route in context.profiles[key.profile].routes && exists provider :: Serves(key, context, c, provider)
  {
    ProfileOrder(key.profile, context.maximumProfile);
    if Refused(key, context).None? {
      var routes := context.profiles[key.profile].routes;
      var candidates := Survivors(key, context, routes, 4);
      forall c: Candidate
        ensures c in candidates <==>
          c.route in routes && exists provider :: Serves(key, context, c, provider)
        ensures SortedBy(Cheaper, candidates)
      {
        FilterExact(key, context, routes, c);
        EligibleMeans(key, context, c);
      }
      assert candidates != [] <==> exists c :: c in candidates by {
        assert candidates != [] ==> candidates[0] in candidates;
      }
    }
  }

  /** Why there is no table: the profile is above the ceiling; else it is not bound to routes that
      are there; else no candidate serves. */
  lemma RefusedMeans(key: Key, context: Context)
    requires Built(key, context).Err?
    ensures Built(key, context).error ==
      if !NotAbove(PROFILES, key.profile, context.maximumProfile) then NoEligibleRoute("profile-ceiling", [])
      else if !Usable(key, context) then NoEligibleRoute("profile-binding", [])
      else NoEligibleRoute("ordering", [])
  {
    ProfileOrder(key.profile, context.maximumProfile);
  }

  /** What a candidate has passed after a step of the trace: it has an entry of its provider; then
      the provider is healthy and the entry available; then it has the capabilities; then its
      residency suits the posture. The last step only sorts. */
  ghost predicate Passed(key: Key, context: Context, c: Candidate, provider: ProviderState, step: nat) {
    && IsProvider(context.providers, c.route.provider, provider) && c.residency == provider.residency
    && IsEntry(provider.catalog, c.route.model, c.entry)
    && (step >= 1 ==> provider.healthy && c.entry.available)
    && (step >= 2 ==> forall i :: 0 <= i < |key.requires_| ==> key.requires_[i] in c.entry.capabilities)
    && (step >= 3 ==> context.posture == Standard || MayHold(c.residency, key.classification))
  }

  /** The tests of the first steps on a candidate that comes from its provider. */
  predicate Tested(key: Key, context: Context, c: Candidate, step: nat) {
    && Resolved(context.providers, c.route) == Some(c)
    && (step >= 1 ==> Healthy(context.providers, c))
    && (step >= 2 ==> Capable(key, c))
    && (step >= 3 ==> Resident(key, context.posture, c))
  }

  lemma TestedMeans(key: Key, context: Context, c: Candidate, step: nat)
    ensures Tested(key, context, c, step) <==> exists provider :: Passed(key, context, c, provider, step)
  {
    ClassificationOrder(key.classification, c.residency.maximum);
    var found := ProviderFor(context.providers, c.route.provider);
    forall provider
      ensures found == Some(provider) <==> IsProvider(context.providers, c.route.provider, provider)
    {
      ProviderFound(context.providers, c.route.provider, provider);
    }
    if found.Some? {
      EntryFound(found.value.catalog, c.route.model, c.entry);
      assert Capable(key, c) <==> forall i :: 0 <= i < |key.requires_| ==> key.requires_[i] in c.entry.capabilities;
      assert Tested(key, context, c, step) <==> Passed(key, context, c, found.value, step);
    }
  }

  lemma SurvivorsTested(key: Key, context: Context, routes: seq<Route>, c: Candidate, step: nat)
    requires step <= 4
    ensures c in Survivors(key, context, routes, step) <==> c.route in routes && Tested(key, context, c, step)
  {
    CataloguedMembers(context.providers, routes);
    if 1 <= step <= 3 {
      SurvivorsTested(key, context, routes, c, step - 1);
      StageMembers(key, context, routes, step, c);
    } else if step == 4 {
      FilterExact(key, context, routes, c);
    }
  }

  ghost predicate NamedBy(key: Key, context: Context, routes: seq<Route>, step: nat, id: string, c: Candidate) {
    && c.route in routes && id == c.route.provider + "/" + c.route.model
    && exists provider :: Passed(key, context, c, provider, step)
  }

  ghost predicate Named(key: Key, context: Context, routes: seq<Route>, step: nat, id: string) {
    exists c :: NamedBy(key, context, routes, step, id, c)
  }

  lemma IdsNamed(key: Key, context: Context, routes: seq<Route>, step: nat, id: string)
    requires step <= 4
    ensures id in Ids(Survivors(key, context, routes, step)) <==> Named(key, context, routes, step, id)
  {
    var survivors := Survivors(key, context, routes, step);
    if id in Ids(survivors) {
      var i :| 0 <= i < |survivors| && Ids(survivors)[i] == id;
      assert survivors[i] in survivors;
      SurvivorsTested(key, context, routes, survivors[i], step);
      TestedMeans(key, context, survivors[i], step);
      assert NamedBy(key, context, routes, step, id, survivors[i]);
    }
    if c: Candidate :| NamedBy(key, context, routes, step, id, c) {
      TestedMeans(key, context, c, step);
      SurvivorsTested(key, context, routes, c, step);
      var i :| 0 <= i < |survivors| && survivors[i] == c;
      assert Ids(survivors)[i] == id;
    }
  }

  /** The trace of a fresh table names, step by step, exactly the candidates that are left. */
  lemma TraceMeans(key: Key, context: Context, step: nat, id: string)
    requires Built(key, context).Ok? && step < 5
    ensures var routes, trace := context.profiles[key.profile].routes, Built(key, context).value.trace;
      && |trace| == 5 && trace[step].step == ["catalog", "health", "capabilities", "residency", "ordering"][step]
      && (id in trace[step].survivors <==> Named(key, context, routes, step, id))
  {
    IdsNamed(key, context, context.profiles[key.profile].routes, step, id);
  }

  // ---------------------------------------------------------------- the cache

  /** A table that was just answered is served again, as it is, to every asker with a key of the
      same meaning and the same epochs and digests, and to no other. */
  lemma ServedWhileStamped(le: (string, string) -> bool, s: Tables, key: Key, context: Context, later: Key,
                           asking: Context)
    requires Answer(le, s, key, context).Ok? && TotalOrder(le)
    requires later.profile == key.profile && later.classification == key.classification
    requires multiset(later.requires_) == multiset(key.requires_)
    ensures var t := AfterResolve(le, s, key, context);
      && (Hit(le, t, later, asking) <==>
          && asking.epochs.org == context.epochs.org && asking.epochs.workspace == context.epochs.workspace
          && asking.epochs.agent == context.epochs.agent && asking.epochs.session == context.epochs.session
          && asking.epochs.principal == context.epochs.principal && asking.inputDigests == context.inputDigests)
      && (Hit(le, t, later, asking) ==> Answer(le, t, later, asking) == Answer(le, s, key, context))
  {
    KeyStringExact(le, key, later);
  }

  // ---------------------------------------------------------------- what a call costs

  /** A thousand input tokens cost the input rate, a thousand output tokens the output rate, the
      cost of more is the sum; and with an unknown rate it is without bound. */
  lemma CostMeans(c: Candidate, a: Usage, b: Usage)
    requires c.entry.inputRate.Some? && c.entry.outputRate.Some?
    ensures EstimateCost(c, Usage(1000, 0)) == Finite(c.entry.inputRate.value)
    ensures EstimateCost(c, Usage(0, 1000)) == Finite(c.entry.outputRate.value)
    ensures EstimateCost(c, a).Finite? && EstimateCost(c, b).Finite?
    ensures var both := Usage(a.promptInputTokens + b.promptInputTokens, a.maximumOutputTokens + b.maximumOutputTokens);
      EstimateCost(c, both) == Finite(EstimateCost(c, a).usd + EstimateCost(c, b).usd)
  {
    RateSplits(a.promptInputTokens, b.promptInputTokens, c.entry.inputRate.value);
    RateSplits(a.maximumOutputTokens, b.maximumOutputTokens, c.entry.outputRate.value);
    assert 1000 as real / 1000.0 == 1.0 && 0 as real / 1000.0 == 0.0;
  }

  lemma RateSplits(a: nat, b: nat, rate: real)
    ensures (a + b) as real / 1000.0 * rate == a as real / 1000.0 * rate + b as real / 1000.0 * rate
  {
    assert (a + b) as real == a as real + b as real;
    assert (a + b) as real / 1000.0 == a as real / 1000.0 + b as real / 1000.0;
  }

  /** Without a limit every candidate is affordable; with one, exactly those whose rates are known
      and whose cost does not exceed it. */
  lemma AffordableMeans(c: Candidate, usage: Usage, maximumUsd: real)
    ensures Affordable(c, usage, None)
    ensures Affordable(c, usage, Some(Finite(maximumUsd))) <==>
      && c.entry.inputRate.Some? && c.entry.outputRate.Some?
      && EstimateCost(c, usage).Finite? && EstimateCost(c, usage).usd <= maximumUsd
  {}
}
