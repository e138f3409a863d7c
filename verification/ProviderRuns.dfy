/** Whose write is in force in the provider registry, over every run, and runs in which that
    is not the latest report or the latest request. */
module ProviderRuns {
  import opened Wrappers
  import opened Routes
  import opened Sorting
  import opened RouteTable
  import opened Providers

  // ---------------------------------------------------------------- health

  /** The step writes the health of the provider: a registration, a report, or the writing
      back of a catalog update. */
  predicate WritesHealth(step: Step, id: string) {
    match step
    case Register(state) => state.id == id
    case ReportHealth(p, _, _) => p == id
    case CatalogRecorded(update) => update.captured.id == id
    case _ => false
  }

  function HealthWritten(step: Step, id: string): bool
    requires WritesHealth(step, id)
  {
    match step
    case Register(state) => state.healthy
    case ReportHealth(_, healthy, _) => healthy
    case CatalogRecorded(update) => update.captured.healthy
  }

  function StateOf(k: Kernel, id: string): Option<ProviderState> {
    ProviderFor(k.providers, id)
  }

  lemma HealthStep(le: (string, string) -> bool, k: Kernel, step: Step, id: string)
    requires Enabled(k, step)
    ensures var t := Apply(le, k, step);
      if WritesHealth(step, id) then StateOf(t, id).Some? && StateOf(t, id).value.healthy == HealthWritten(step, id)
      else StateOf(t, id) == StateOf(k, id)
  {
    match step
    case Register(state) => LookupAfterWrite(k.providers, state, id);
    case ReportHealth(p, healthy, reportedAt) =>
      LookupId(k.providers, p);
      var state := ProviderFor(k.providers, p).value;
      LookupAfterWrite(k.providers, state.(healthy := healthy, reportedAt := reportedAt), id);
    case CatalogRecorded(update) => LookupAfterWrite(k.providers, WrittenBack(update), id);
    case _ =>
  }

  /** The health in force is that of the last write. */
  lemma {:induction false} LastWriteInForce(le: (string, string) -> bool, states: seq<Kernel>, steps: seq<Step>,
                                            n: nat, id: string, w: nat)
    requires IsRun(le, states, steps) && w < n < |states| && WritesHealth(steps[w], id)
    requires forall k :: w < k < n ==> !WritesHealth(steps[k], id)
    ensures StateOf(states[n], id).Some? && StateOf(states[n], id).value.healthy == HealthWritten(steps[w], id)
  {
    HealthStep(le, states[n - 1], steps[n - 1], id);
    if n - 1 > w {
      LastWriteInForce(le, states, steps, n - 1, id, w);
    }
  }

  predicate WritesBack(step: Step, id: string) {
    step.CatalogRecorded? && step.update.captured.id == id
  }

  /** The last catalog update written back after the report at r had captured another
      health than the report says. */
  ghost predicate UndoneAt(steps: seq<Step>, n: nat, id: string, r: nat, w: nat)
    requires r < n <= |steps| && steps[r].ReportHealth?
  {
    && r < w < n && WritesBack(steps[w], id) && steps[w].update.captured.healthy != steps[r].healthy
    && forall k :: w < k < n ==> !WritesBack(steps[k], id)
  }

  lemma {:induction false} LastWriteBack(steps: seq<Step>, n: nat, id: string, r: nat) returns (w: nat)
    requires r < n <= |steps|
    ensures r <= w < n && (w == r || WritesBack(steps[w], id))
    ensures forall k :: w < k < n ==> !WritesBack(steps[k], id)
  {
    w := n - 1;
    if r < n - 1 && !WritesBack(steps[n - 1], id) {
      w := LastWriteBack(steps, n - 1, id, r);
    }
  }

  lemma {:induction false} StaysRegistered(le: (string, string) -> bool, states: seq<Kernel>, steps: seq<Step>,
                                           r: nat, k: nat, id: string)
    requires IsRun(le, states, steps) && r <= k < |states| && StateOf(states[r], id).Some?
    ensures StateOf(states[k], id).Some?
    decreases k
  {
    if r < k {
      StaysRegistered(le, states, steps, r, k - 1, id);
      HealthStep(le, states[k - 1], steps[k - 1], id);
    }
  }

  /** Over every run, exactly when a report is in force: the health of a provider is that of
      its latest report if and only if the last catalog update written back since then, if
      there is one, had captured that health too. */
  lemma ReportInForce(le: (string, string) -> bool, states: seq<Kernel>, steps: seq<Step>, n: nat, id: string, r: nat)
    requires IsRun(le, states, steps) && r < n < |states| && steps[r].ReportHealth? && steps[r].id == id
    requires forall k :: r < k < n ==> !(steps[k].ReportHealth? && steps[k].id == id)
    ensures StateOf(states[n], id).Some?
    ensures StateOf(states[n], id).value.healthy == steps[r].healthy <==> !exists w: nat :: UndoneAt(steps, n, id, r, w)
  {
    var w := LastWriteBack(steps, n, id, r);
    forall k | w < k < n ensures !WritesHealth(steps[k], id) {
      if steps[k].Register? && steps[k].state.id == id {
        StaysRegistered(le, states, steps, r, k, id);
        assert false;
      }
    }
    LastWriteInForce(le, states, steps, n, id, w);
    if w > r && steps[w].update.captured.healthy != steps[r].healthy {
      assert UndoneAt(steps, n, id, r, w);
    }
    forall v: nat | UndoneAt(steps, n, id, r, v) ensures v == w {}
  }

  // ---------------------------------------------------------------- catalogs

  lemma CatalogStep(le: (string, string) -> bool, k: Kernel, step: Step, id: string)
    requires Enabled(k, step)
    ensures var t := Apply(le, k, step);
      && (WritesBack(step, id) ==> StateOf(t, id).Some? && StateOf(t, id).value.catalog == step.update.catalog)
      && (!WritesBack(step, id) && StateOf(k, id).Some? ==>
          StateOf(t, id).Some? && StateOf(t, id).value.catalog == StateOf(k, id).value.catalog)
  {
    match step
    case Register(state) => LookupAfterWrite(k.providers, state, id);
    case ReportHealth(p, healthy, reportedAt) =>
      LookupId(k.providers, p);
      var state := ProviderFor(k.providers, p).value;
      LookupAfterWrite(k.providers, state.(healthy := healthy, reportedAt := reportedAt), id);
    case CatalogRecorded(update) => LookupAfterWrite(k.providers, WrittenBack(update), id);
    case _ =>
  }

  /** Of overlapping catalog updates the one written back last is in force, whichever was
      requested first. */
  lemma {:induction false} LastWriteBackInForce(le: (string, string) -> bool, states: seq<Kernel>, steps: seq<Step>,
                                                n: nat, id: string, w: nat)
    requires IsRun(le, states, steps) && w < n < |states| && WritesBack(steps[w], id)
    requires forall k :: w < k < n ==> !WritesBack(steps[k], id)
    ensures StateOf(states[n], id).Some? && StateOf(states[n], id).value.catalog == steps[w].update.catalog
  {
    if n - 1 > w {
      LastWriteBackInForce(le, states, steps, n - 1, id, w);
    }
    CatalogNext(le, states, steps, n - 1, id);
  }

  lemma CatalogNext(le: (string, string) -> bool, states: seq<Kernel>, steps: seq<Step>, n: nat, id: string)
    requires IsRun(le, states, steps) && n < |steps|
    ensures WritesBack(steps[n], id) ==>
      StateOf(states[n + 1], id).Some? && StateOf(states[n + 1], id).value.catalog == steps[n].update.catalog
    ensures !WritesBack(steps[n], id) && StateOf(states[n], id).Some? ==>
      && StateOf(states[n + 1], id).Some?
      && StateOf(states[n + 1], id).value.catalog == StateOf(states[n], id).value.catalog
  {
    CatalogStep(le, states[n], steps[n], id);
  }

  // ---------------------------------------------------------------- the runs in which it matters

  const ENTRY := CatalogEntry("m", [], None, None, true, "e")
  const OTHER := CatalogEntry("m", ["tools"], None, None, true, "f")
  const HOME := Residency("r", Restricted, false)
  const ROUTE := Route("p", "m", 0.0, 0.0)
  const KEY := Key(Fast, Public, [])

  function Provider(entry: CatalogEntry, digest: string, healthy: bool): ProviderState {
    ProviderState("p", HOME, [entry], digest, healthy, 0, 1)
  }

  function Asking(providers: seq<ProviderState>): Context {
    Context(map[Fast := Binding([ROUTE], false)], Deep, providers, Standard, EpochVector(0, 0, 0, 0, 0), [])
  }

  /** With its one provider healthy, the table for the key is built and holds it. */
  lemma TableBuilt(entry: CatalogEntry, digest: string)
    requires entry == ENTRY || entry == OTHER
    ensures var context := Asking([Provider(entry, digest, true)]);
      Built(KEY, context).Ok? && Built(KEY, context).value.candidates == [Candidate(ROUTE, entry, HOME)]
  {
    TableBuiltFrom(Provider(entry, digest, true), entry, HOME);
  }

  /** The same for whatever residency the provider has. */
  lemma TableBuiltFrom(p: ProviderState, entry: CatalogEntry, home: Residency)
    requires p.id == "p" && p.catalog == [entry] && p.healthy && p.residency == home
    requires entry.modelId == "m" && entry.available
    ensures var context := Asking([p]);
      Built(KEY, context).Ok? && Built(KEY, context).value.candidates == [Candidate(ROUTE, entry, home)]
  {
    var providers := [p];
    var c, context, routes := Candidate(ROUTE, entry, home), Asking(providers), [ROUTE];
    assert Resolved(providers, ROUTE) == Some(c);
    assert Catalogued(providers, routes) == [c] + Catalogued(providers, routes[1..]);
    assert routes[1..] == [] && Survivors(KEY, context, routes, 0) == [c];
    OneKept(IsHealthy(providers), c);
    assert Survivors(KEY, context, routes, 1) == [c];
    OneKept(IsCapable(KEY), c);
    assert Survivors(KEY, context, routes, 2) == [c];
    OneKept(IsResident(KEY, Standard), c);
    assert Survivors(KEY, context, routes, 3) == [c];
    OneSorted(c);
  }

  lemma OneKept(test: Test, c: Candidate)
    requires test.Passes(c)
    ensures Filter(test, [c]) == [c]
  {
    assert [c][1..] == [];
  }

  lemma OneSorted(c: Candidate)
    ensures Sort(Cheaper, [c]) == [c]
  {
    SortOfSorted(Cheaper, [c]);
  }

  /** A run to a stale table: the provider is registered, its table is built, it is reported
      unhealthy, and the record of that is not yet appended. The next resolve is served from
      the cache, with the unhealthy provider in it. */
  lemma StaleTableServed(le: (string, string) -> bool) returns (states: seq<Kernel>, steps: seq<Step>)
    ensures IsRun(le, states, steps) && |steps| == 3 && steps[2] == ReportHealth("p", false, 5)
    ensures var k := states[3];
      var context, c := Asking(k.providers), Candidate(ROUTE, ENTRY, HOME);
      && Hit(le, k.tables, KEY, context) && c in Answer(le, k.tables, KEY, context).value.candidates
      && !Healthy(k.providers, c)
  {
    var p := Provider(ENTRY, "d", true);
    steps := [Register(p), Resolve(KEY, Asking([p])), ReportHealth("p", false, 5)];
    var s1 := NEW_KERNEL.(providers := [p]);
    var s2 := Apply(le, s1, steps[1]);
    var s3 := Apply(le, s2, steps[2]);
    states := [NEW_KERNEL, s1, s2, s3];
    TableBuilt(ENTRY, "d");
    var context := Asking([p]);
    assert !Hit(le, s1.tables, KEY, context);
    assert s2.tables.tables == map[KeyString(le, KEY) := Built(KEY, context).value];
    assert s3.providers == [p.(healthy := false, reportedAt := 5)];
  }

  /** A run that undoes a report: a catalog update is under way when the provider is reported
      unhealthy; when it is written back the provider counts as healthy again, and the next
      table is built with it. */
  lemma ReportUndone(le: (string, string) -> bool) returns (states: seq<Kernel>, steps: seq<Step>)
    ensures IsRun(le, states, steps) && |steps| == 4
    ensures steps[2] == ReportHealth("p", false, 5) && steps[3].CatalogRecorded?
    ensures StateOf(states[3], "p").Some? && !StateOf(states[3], "p").value.healthy
    ensures StateOf(states[4], "p").Some? && StateOf(states[4], "p").value.healthy
    ensures var context := Asking(states[4].providers);
      !Hit(le, states[4].tables, KEY, context) && Answer(le, states[4].tables, KEY, context).Ok?
      && Candidate(ROUTE, OTHER, HOME) in Answer(le, states[4].tables, KEY, context).value.candidates
  {
    var p := Provider(ENTRY, "d", true);
    var update := Update(p, [OTHER], "d2");
    steps := [Register(p), UpdateCatalog("p", [OTHER], "d2"), ReportHealth("p", false, 5), CatalogRecorded(update)];
    var s1 := NEW_KERNEL.(providers := [p]);
    var s2 := s1.(updates := multiset{update});
    var s3 := s2.(providers := [p.(healthy := false, reportedAt := 5)], notices := multiset{"p"});
    var s4 := Apply(le, s3, steps[3]);
    states := [NEW_KERNEL, s1, s2, s3, s4];
    assert "d" != "d2";
    assert s2 == Apply(le, s1, steps[1]) && s3 == Apply(le, s2, steps[2]);
    assert s4.providers == [Provider(OTHER, "d2", true)];
    TableBuilt(OTHER, "d2");
  }

  lemma RunGrows(le: (string, string) -> bool, states: seq<Kernel>, steps: seq<Step>, step: Step)
    requires IsRun(le, states, steps) && Enabled(states[|steps|], step)
    ensures IsRun(le, states + [Apply(le, states[|steps|], step)], steps + [step])
  {}

  /** A run in which the first of two overlapping catalog updates is in force in the end. */
  lemma EarlierUpdateWins(le: (string, string) -> bool) returns (states: seq<Kernel>, steps: seq<Step>)
    ensures IsRun(le, states, steps) && |steps| == 5
    ensures steps[1] == UpdateCatalog("p", [OTHER], "d2") && steps[2] == UpdateCatalog("p", [], "d3")
    ensures StateOf(states[5], "p").Some? && StateOf(states[5], "p").value.catalog == [OTHER]
  {
    var p := Provider(ENTRY, "d", true);
    var first, second := Update(p, [OTHER], "d2"), Update(p, [], "d3");
    states, steps := TwoUpdates(le, p, first, second);
    var s4 := Apply(le, states[3], CatalogRecorded(second));
    RunGrows(le, states, steps, CatalogRecorded(second));
    RunGrows(le, states + [s4], steps + [CatalogRecorded(second)], CatalogRecorded(first));
    states := states + [s4] + [Apply(le, s4, CatalogRecorded(first))];
    steps := steps + [CatalogRecorded(second)] + [CatalogRecorded(first)];
    LastWriteBackInForce(le, states, steps, 5, "p", 4);
  }

  lemma TwoUpdates(le: (string, string) -> bool, p: ProviderState, first: Update, second: Update)
    returns (states: seq<Kernel>, steps: seq<Step>)
    requires p == Provider(ENTRY, "d", true) && first == Update(p, [OTHER], "d2") && second == Update(p, [], "d3")
    ensures IsRun(le, states, steps)
    ensures steps == [Register(p), UpdateCatalog("p", [OTHER], "d2"), UpdateCatalog("p", [], "d3")]
    ensures states[3].updates == multiset{first, second}
  {
    steps := [Register(p), UpdateCatalog("p", [OTHER], "d2"), UpdateCatalog("p", [], "d3")];
    assert |"d"| == 1 && |"d2"| == 2 && |"d3"| == 2;
    var s1 := NEW_KERNEL.(providers := [p]);
    var s2 := s1.(updates := multiset{first});
    states := [NEW_KERNEL, s1, s2, s1.(updates := multiset{first, second})];
    assert s2 == Apply(le, s1, steps[1]) && states[3] == Apply(le, s2, steps[2]);
  }
}
