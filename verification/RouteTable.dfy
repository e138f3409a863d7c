/** The route table cache and its reverse index from providers to the tables that use them. */
module RouteTable {
  import opened Wrappers
  import opened Routes

  datatype Entry = Entry(
    key: Key, candidates: seq<Candidate>, builtFromDigests: seq<string>, epochs: EpochVector, trace: seq<TraceStep>)

  datatype Tables = Tables(tables: map<EncodedKey, Entry>, providerKeys: map<string, set<EncodedKey>>)

  predicate StampsMatch(entry: Entry, context: Context) {
    entry.epochs == context.epochs && entry.builtFromDigests == context.inputDigests
  }

  function TraceOf(key: Key, context: Context, routes: seq<Route>): (trace: seq<TraceStep>)
    ensures |trace| == 5
  {
    seq(5, i requires 0 <= i < 5 => TraceStep(STEPS[i], Ids(Survivors(key, context, routes, i))))
  }

  /** The table built from scratch, or the reason why there is none. */
  function Built(key: Key, context: Context): Result<Entry, RouteError> {
    if Refused(key, context).Some? then Err(Refused(key, context).value)
    else
      var routes := context.profiles[key.profile].routes;
      var candidates := Survivors(key, context, routes, 4);
      if candidates == [] then Err(NoEligibleRoute("ordering", []))
      else Ok(Entry(key, candidates, context.inputDigests, context.epochs, TraceOf(key, context, routes)))
  }

  function KeysOf(providerKeys: map<string, set<EncodedKey>>, provider: string): set<EncodedKey> {
    if provider in providerKeys then providerKeys[provider] else {}
  }

  function Indexed(providerKeys: map<string, set<EncodedKey>>, candidates: seq<Candidate>, encoded: EncodedKey)
    : map<string, set<EncodedKey>>
    decreases |candidates|
  {
    if candidates == [] then providerKeys
    else
      var provider := candidates[0].route.provider;
      Indexed(providerKeys[provider := KeysOf(providerKeys, provider) + {encoded}], candidates[1..], encoded)
  }

  /** The table is served from the cache. */
  predicate Hit(le: (string, string) -> bool, s: Tables, key: Key, context: Context) {
    KeyString(le, key) in s.tables && StampsMatch(s.tables[KeyString(le, key)], context)
  }

  function Answer(le: (string, string) -> bool, s: Tables, key: Key, context: Context): Result<Entry, RouteError> {
    if Hit(le, s, key, context) then Ok(s.tables[KeyString(le, key)]) else Built(key, context)
  }

  function AfterResolve(le: (string, string) -> bool, s: Tables, key: Key, context: Context): Tables {
    var encoded := KeyString(le, key);
    if Hit(le, s, key, context) || Built(key, context).Err? then s
    else
      var entry := Built(key, context).value;
      Tables(s.tables[encoded := entry], Indexed(s.providerKeys, entry.candidates, encoded))
  }

  function Invalidated(s: Tables, provider: string): Tables {
    Tables(s.tables - KeysOf(s.providerKeys, provider), s.providerKeys - {provider})
  }

  class RouteTableStore {
    const le: (string, string) -> bool
    var tables: map<EncodedKey, Entry>
    var providerKeys: map<string, set<EncodedKey>>

    ghost function State(): Tables
      reads this
    {
      Tables(tables, providerKeys)
    }

    constructor (le: (string, string) -> bool)
      ensures State() == Tables(map[], map[]) && this.le == le
    {
      this.le := le;
      tables, providerKeys := map[], map[];
    }

    method Resolve(key: Key, context: Context) returns (answer: Result<Entry, RouteError>)
      modifies this
      ensures answer == Answer(le, old(State()), key, context)
      ensures State() == AfterResolve(le, old(State()), key, context)
    {
      var encoded := KeyString(le, key);
      if encoded in tables && StampsMatch(tables[encoded], context) {
        return Ok(tables[encoded]);
      }
      var filtered := LiveRouteFilter(key, context);
      if filtered.Err? {
        return Err(filtered.error);
      }
      var (candidates, trace) := filtered.value;
      if |candidates| == 0 {
        NothingLeft(key, context, context.profiles[key.profile].routes);
        return Err(NoEligibleRoute(trace[|trace| - 1].step, trace[|trace| - 2].survivors));
      }
      var entry := Entry(key, candidates, context.inputDigests, context.epochs, trace);
      assert trace == TraceOf(key, context, context.profiles[key.profile].routes);
      tables := tables[encoded := entry];
      ghost var before := providerKeys;
      for i := 0 to |candidates|
        invariant tables == old(tables)[encoded := entry]
        invariant Indexed(providerKeys, candidates[i..], encoded) == Indexed(before, candidates, encoded)
      {
        assert candidates[i..][0] == candidates[i] && candidates[i..][1..] == candidates[i + 1..];
        var provider := candidates[i].route.provider;
        var keys := if provider in providerKeys then providerKeys[provider] else {};
        providerKeys := providerKeys[provider := keys + {encoded}];
      }
      answer := Ok(entry);
    }

    method InvalidateProvider(provider: string)
      modifies this
      ensures State() == Invalidated(old(State()), provider)
    {
      var keys := if provider in providerKeys then providerKeys[provider] else {};
      var rest := keys;
      while rest != {}
        invariant rest <= keys && providerKeys == old(providerKeys)
        invariant tables == old(tables) - (keys - rest)
        decreases |rest|
      {
        var key :| key in rest;
        tables := tables - {key};
        rest := rest - {key};
      }
      providerKeys := providerKeys - {provider};
    }

    method Clear()
      modifies this
      ensures State() == Tables(map[], map[])
    {
      tables, providerKeys := map[], map[];
    }
  }

  lemma NothingLeft(key: Key, context: Context, routes: seq<Route>)
    requires Survivors(key, context, routes, 4) == []
    ensures Ids(Survivors(key, context, routes, 3)) == []
  {}

  // ---------------------------------------------------------------- the reverse index

  /** Every candidate of a cached table is found through the index of its provider. */
  ghost predicate Covered(s: Tables) {
    forall encoded, c :: encoded in s.tables && c in s.tables[encoded].candidates ==>
      encoded in KeysOf(s.providerKeys, c.route.provider)
  }

  lemma {:induction false} IndexedCovers(providerKeys: map<string, set<EncodedKey>>, candidates: seq<Candidate>,
                                         encoded: EncodedKey)
    ensures var index := Indexed(providerKeys, candidates, encoded);
      && (forall provider :: KeysOf(providerKeys, provider) <= KeysOf(index, provider))
      && forall c :: c in candidates ==> encoded in KeysOf(index, c.route.provider)
    decreases |candidates|
  {
    if candidates != [] {
      var provider := candidates[0].route.provider;
      var next := providerKeys[provider := KeysOf(providerKeys, provider) + {encoded}];
      forall p ensures KeysOf(providerKeys, p) <= KeysOf(next, p) {}
      IndexedCovers(next, candidates[1..], encoded);
    }
  }

  lemma ResolveCovers(le: (string, string) -> bool, s: Tables, key: Key, context: Context)
    requires Covered(s)
    ensures Covered(AfterResolve(le, s, key, context))
  {
    if !Hit(le, s, key, context) && Built(key, context).Ok? {
      IndexedCovers(s.providerKeys, Built(key, context).value.candidates, KeyString(le, key));
    }
  }

  /** After the invalidation of a provider no cached table uses it, and the tables that remain
      are as they were. */
  lemma InvalidationClears(s: Tables, provider: string)
    requires Covered(s)
    ensures Covered(Invalidated(s, provider))
    ensures forall encoded :: encoded in Invalidated(s, provider).tables ==>
      && encoded in s.tables && Invalidated(s, provider).tables[encoded] == s.tables[encoded]
      && forall c :: c in s.tables[encoded].candidates ==> c.route.provider != provider
  {}
}
