/** Budgeted route selection with a sticky tie-break. */
module Dispatcher {
  import opened Wrappers
  import opened Sorting
  import opened Routes
  import opened RouteTable

  /** A cost in dollars; unknown rates cost infinitely much. */
  datatype Cost = Finite(usd: real) | Infinite

  predicate AtMost(a: Cost, b: Cost) {
    b.Infinite? || (a.Finite? && a.usd <= b.usd)
  }

  datatype Usage = Usage(promptInputTokens: nat, maximumOutputTokens: nat)

  function EstimateCost(c: Candidate, usage: Usage): Cost {
    if c.entry.inputRate.None? || c.entry.outputRate.None? then Infinite
    else Finite(usage.promptInputTokens as real / 1000.0 * c.entry.inputRate.value
                + usage.maximumOutputTokens as real / 1000.0 * c.entry.outputRate.value)
  }

  predicate Tied(a: Candidate, b: Candidate) {
    a.route.priority == b.route.priority && a.route.costMetric == b.route.costMetric
  }

  predicate Affordable(c: Candidate, usage: Usage, maxCost: Option<Cost>) {
    maxCost.None? || AtMost(EstimateCost(c, usage), maxCost.value)
  }

  function Budgeted(candidates: seq<Candidate>, usage: Usage, maxCost: Option<Cost>): seq<Candidate> {
    if candidates == [] then []
    else (if Affordable(candidates[0], usage, maxCost) then [candidates[0]] else [])
         + Budgeted(candidates[1..], usage, maxCost)
  }

  /** The first candidate that was selected before and is tied with the front-runner. */
  function Sticky(budgeted: seq<Candidate>, first: Candidate, previous: Option<string>): Option<Candidate> {
    if budgeted == [] then None
    else if Some(RouteId(budgeted[0])) == previous && Tied(budgeted[0], first) then Some(budgeted[0])
    else Sticky(budgeted[1..], first, previous)
  }

  function SelectBudgetedRoute(candidates: seq<Candidate>, usage: Usage, maxCost: Option<Cost>,
                               previous: Option<string>)
    : Result<Candidate, RouteError>
  {
    var budgeted := Budgeted(candidates, usage, maxCost);
    if budgeted == [] then Err(NoEligibleRoute("budget", Ids(candidates)))
    else
      var sticky := Sticky(budgeted, budgeted[0], previous);
      Ok(if sticky.Some? then sticky.value else budgeted[0])
  }

  function MaximumClassification(a: Classification, b: Classification): Classification {
    if b.Rank() > a.Rank() then b else a
  }

  class ModelDispatcher {
    const tables: RouteTableStore
    var sticky: map<string, string>

    constructor (tables: RouteTableStore)
      ensures sticky == map[] && this.tables == tables
    {
      this.tables := tables;
      sticky := map[];
    }

    function Previous(scope: string): Option<string>
      reads this
    {
      if scope in sticky then Some(sticky[scope]) else None
    }

    /** Resolves the table for the higher of the two classifications, selects within the
        budget, and remembers the selection for the scope only. */
    method Select(profile: Profile, declared: Classification, frame: Classification, requires_: seq<string>,
                  maxCost: Option<Cost>, usage: Usage, scope: string, context: Context)
      returns (selected: Result<Candidate, RouteError>)
      modifies this`sticky, tables
      ensures
        var key := Key(profile, MaximumClassification(declared, frame), requires_);
        var table := Answer(tables.le, old(tables.State()), key, context);
        && tables.State() == AfterResolve(tables.le, old(tables.State()), key, context)
        && selected == (if table.Err? then Err(table.error)
                        else SelectBudgetedRoute(table.value.candidates, usage, maxCost,
                                                 if scope in old(sticky) then Some(old(sticky)[scope]) else None))
        && sticky == (if selected.Err? then old(sticky)
                      else old(sticky)[scope := selected.value.route.provider + "/" + selected.value.route.model])
    {
      var key := Key(profile, MaximumClassification(declared, frame), requires_);
      var table := tables.Resolve(key, context);
      if table.Err? {
        return Err(table.error);
      }
      selected := SelectBudgetedRoute(table.value.candidates, usage, maxCost, Previous(scope));
      if selected.Ok? {
        sticky := sticky[scope := RouteId(selected.value)];
      }
    }

    method ClearStickiness(scope: Option<string>)
      modifies this`sticky
      ensures sticky == if scope.None? then map[] else old(sticky) - {scope.value}
    {
      sticky := if scope.None? then map[] else sticky - {scope.value};
    }
  }

  // ---------------------------------------------------------------- what is selected

  lemma {:induction false} BudgetedMembers(candidates: seq<Candidate>, usage: Usage, maxCost: Option<Cost>)
    requires SortedBy(Cheaper, candidates)
    ensures forall c :: c in Budgeted(candidates, usage, maxCost) <==> c in candidates && Affordable(c, usage, maxCost)
    ensures SortedBy(Cheaper, Budgeted(candidates, usage, maxCost))
  {
    if candidates != [] {
      BudgetedMembers(candidates[1..], usage, maxCost);
      assert candidates == [candidates[0]] + candidates[1..];
      forall c | c in candidates[1..] ensures Cheaper(candidates[0], c) {}
    }
  }

  lemma {:induction false} StickyFound(budgeted: seq<Candidate>, first: Candidate, previous: Option<string>)
    ensures match Sticky(budgeted, first, previous)
      case Some(c) => c in budgeted && Some(RouteId(c)) == previous && Tied(c, first)
      case None => forall c :: c in budgeted && Some(RouteId(c)) == previous ==> !Tied(c, first)
  {
    if budgeted != [] {
      StickyFound(budgeted[1..], first, previous);
    }
  }

  /** The front-runner is the first affordable candidate. */
  ghost predicate IsFront(candidates: seq<Candidate>, usage: Usage, maxCost: Option<Cost>, c: Candidate) {
    exists i :: 0 <= i < |candidates| && candidates[i] == c && Affordable(c, usage, maxCost)
      && forall j :: 0 <= j < i ==> !Affordable(candidates[j], usage, maxCost)
  }

  lemma {:induction false} BudgetedFront(candidates: seq<Candidate>, usage: Usage, maxCost: Option<Cost>)
    requires Budgeted(candidates, usage, maxCost) != []
    ensures IsFront(candidates, usage, maxCost, Budgeted(candidates, usage, maxCost)[0])
  {
    if Affordable(candidates[0], usage, maxCost) {
      assert candidates[0] == Budgeted(candidates, usage, maxCost)[0];
    } else {
      BudgetedFront(candidates[1..], usage, maxCost);
      var front := Budgeted(candidates, usage, maxCost)[0];
      var i :| 0 <= i < |candidates[1..]| && candidates[1..][i] == front && Affordable(front, usage, maxCost)
        && forall j :: 0 <= j < i ==> !Affordable(candidates[1..][j], usage, maxCost);
      assert candidates[i + 1] == front;
      forall j | 0 <= j < i + 1 ensures !Affordable(candidates[j], usage, maxCost) {
        if j > 0 {
          assert candidates[1..][j - 1] == candidates[j];
        }
      }
    }
  }

  /** The selected route is an affordable candidate of least priority and, within it, least
      cost; the previous selection wins exactly inside a tie and otherwise the front-runner
      does; there is no route if and only if none is affordable. */
  lemma SelectionExact(candidates: seq<Candidate>, usage: Usage, maxCost: Option<Cost>, previous: Option<string>)
    requires SortedBy(Cheaper, candidates)
    ensures SelectBudgetedRoute(candidates, usage, maxCost, previous).Err?
      <==> forall c :: c in candidates ==> !Affordable(c, usage, maxCost)
    ensures SelectBudgetedRoute(candidates, usage, maxCost, previous).Err? ==>
      SelectBudgetedRoute(candidates, usage, maxCost, previous).error == NoEligibleRoute("budget", Ids(candidates))
    ensures SelectBudgetedRoute(candidates, usage, maxCost, previous).Ok? ==>
      var s := SelectBudgetedRoute(candidates, usage, maxCost, previous).value;
      && s in candidates && Affordable(s, usage, maxCost)
      && (forall c :: c in candidates && Affordable(c, usage, maxCost) ==> Cheaper(s, c))
      && ((exists c :: c in candidates && Affordable(c, usage, maxCost) && Some(RouteId(c)) == previous && Tied(c, s))
          ==> Some(RouteId(s)) == previous)
      && (Some(RouteId(s)) != previous ==> IsFront(candidates, usage, maxCost, s))
  {
    var budgeted := Budgeted(candidates, usage, maxCost);
    BudgetedMembers(candidates, usage, maxCost);
    if budgeted != [] {
      BudgetedFront(candidates, usage, maxCost);
    }
    if budgeted == [] {
      forall c | c in candidates ensures !Affordable(c, usage, maxCost) {
        assert c !in budgeted;
      }
    } else {
      StickyFound(budgeted, budgeted[0], previous);
      assert budgeted[0] in budgeted;
      var s := SelectBudgetedRoute(candidates, usage, maxCost, previous).value;
      forall c | c in budgeted ensures Cheaper(s, c) {
        assert Cheaper(budgeted[0], c);
      }
    }
  }

  /** Selecting again among the same candidates, under the same budget, with the selection
      remembered, gives the same route. */
  lemma SelectionIsStable(candidates: seq<Candidate>, usage: Usage, maxCost: Option<Cost>, previous: Option<string>)
    requires SelectBudgetedRoute(candidates, usage, maxCost, previous).Ok?
    ensures var s := SelectBudgetedRoute(candidates, usage, maxCost, previous).value;
      SelectBudgetedRoute(candidates, usage, maxCost, Some(RouteId(s))) == Ok(s)
  {
    var budgeted := Budgeted(candidates, usage, maxCost);
    StickyFound(budgeted, budgeted[0], previous);
  }

  /** Dispatch as a whole: over a table built from the context, the selected route passes
      every filter, is affordable, and is least in priority and cost among the bound routes
      that pass every filter and are affordable. */
  lemma DispatchCorrect(key: Key, context: Context, usage: Usage, maxCost: Option<Cost>, previous: Option<string>)
    requires Built(key, context).Ok?
    requires SelectBudgetedRoute(Built(key, context).value.candidates, usage, maxCost, previous).Ok?
    ensures var s := SelectBudgetedRoute(Built(key, context).value.candidates, usage, maxCost, previous).value;
      && s.route in context.profiles[key.profile].routes && Eligible(key, context, s) && Affordable(s, usage, maxCost)
      && forall c: Candidate ::
           c.route in context.profiles[key.profile].routes && Eligible(key, context, c) ==>
             Affordable(c, usage, maxCost) ==> Cheaper(s, c)
  {
    var routes := context.profiles[key.profile].routes;
    var candidates := Built(key, context).value.candidates;
    var s := SelectBudgetedRoute(candidates, usage, maxCost, previous).value;
    FilterExact(key, context, routes, s);
    SelectionExact(candidates, usage, maxCost, previous);
    forall c: Candidate | c.route in routes && Eligible(key, context, c) && Affordable(c, usage, maxCost)
      ensures Cheaper(s, c)
    {
      FilterExact(key, context, routes, c);
    }
  }
}
