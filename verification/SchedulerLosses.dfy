/** When interleaved fires lose a recurring job, exactly, over every run. */
module SchedulerLosses {
  import opened Wrappers
  import opened Recurrence
  import opened Scheduler
  import opened SchedulerFires

  /** The job, but for its next run, is stored. A job of another payload under the same id is
      another job. */
  ghost predicate StoredAs(s: Store, origin: Job) {
    exists job :: job in s.jobs && SameJob(job, origin)
  }

  /** The fire has taken the job out and can still put it back. */
  predicate HoldsBack(fire: Fire, origin: Job) {
    || (fire.phase.Rescheduling? && SameJob(fire.phase.next, origin))
    || (fire.phase.Failing? && SameJob(fire.lease.job, origin))
  }

  /** A fire other than f. */
  predicate OtherHolds(w: World, origin: Job, f: nat) {
    exists g :: 0 <= g < |w.fires| && g != f && HoldsBack(w.fires[g], origin)
  }

  ghost predicate Kept(w: World, origin: Job) {
    StoredAs(w.store, origin) || OtherHolds(w, origin, |w.fires|)
  }

  /** The fire, of another job under the origin's id, holds the lease. */
  predicate EndsForeign(w: World, f: nat, origin: Job)
    requires f < |w.fires|
  {
    var lease := w.fires[f].lease;
    lease.job.id == origin.id && !SameJob(lease.job, origin) && Holds(w.store, origin.id, lease.owner)
  }

  /** What loses a job that no other fire holds: a refused fire that holds the lease; the
      settlement, by completion, of a fire of another job that holds the lease; a last
      rescheduling that finds the id taken; a refresh with another payload while nobody has
      leased the job. */
  ghost predicate Loses(w: World, step: Step, origin: Job)
    requires Enabled(w, step)
  {
    match step
    case Blocked(f) =>
      var lease := w.fires[f].lease;
      lease.job.id == origin.id && Holds(w.store, origin.id, lease.owner) && !OtherHolds(w, origin, f)
    case Executed(f, succeeded) =>
      && EndsForeign(w, f, origin) && (succeeded || w.fires[f].lease.job.recurrence.Some?)
      && !OtherHolds(w, origin, f)
    case FailureSettled(f) => EndsForeign(w, f, origin) && !OtherHolds(w, origin, f)
    case Rescheduled(f) =>
      && SameJob(w.fires[f].phase.next, origin) && w.fires[f].phase.last
      && Stored(w.store.jobs, origin.id) && !StoredAs(w.store, origin) && !OtherHolds(w, origin, f)
    case Replace(job) =>
      && job.id == origin.id && job.payload != origin.payload && origin.id !in w.store.leases
      && !OtherHolds(w, origin, |w.fires|)
    case _ => false
  }

  // ---------------------------------------------------------------- one step

  /** After a step of fire f. */
  lemma KeptAt(w: World, f: nat, result: (Store, Phase), origin: Job)
    requires f < |w.fires|
    ensures Kept(At(w, f, result), origin)
      <==> StoredAs(result.0, origin) || HoldsBack(w.fires[f].(phase := result.1), origin) || OtherHolds(w, origin, f)
    ensures Kept(w, origin)
      <==> StoredAs(w.store, origin) || HoldsBack(w.fires[f], origin) || OtherHolds(w, origin, f)
  {
    var t := At(w, f, result);
    assert t.fires[f] == w.fires[f].(phase := result.1);
    assert forall g :: 0 <= g < |w.fires| && g != f ==> t.fires[g] == w.fires[g];
  }

  lemma StoredAfterCompletion(s: Store, id: string, owner: string, origin: Job)
    requires s.Valid()
    ensures StoredAs(Completed(s, id, owner), origin)
      <==> StoredAs(s, origin) && !(Holds(s, id, owner) && id == origin.id)
  {
    CompletedJobs(s, id, owner);
  }

  lemma StoredAfterScheduling(s: Store, job: Job, origin: Job)
    requires s.Valid()
    ensures StoredAs(OrSame(Scheduled(s, job), s), origin)
      <==> StoredAs(s, origin) || (SameJob(job, origin) && !Stored(s.jobs, job.id))
  {
    ScheduledJobs(s, job);
  }

  lemma StoredAfterRefresh(s: Store, job: Job, origin: Job)
    requires s.Valid() && StoredAs(s, origin)
    ensures StoredAs(Replaced(s, job), origin)
      <==> !(job.id == origin.id && job.payload != origin.payload && origin.id !in s.leases)
  {
    ReplacedJobs(s, job);
    var stored :| stored in s.jobs && SameJob(stored, origin);
    if job.id != origin.id {
      assert stored in Replaced(s, job).jobs;
    } else if stored.payload != job.payload && job.id !in s.leases {
      assert forall other :: other in Replaced(s, job).jobs ==> !SameJob(other, origin);
    }
  }

  lemma SettleExact(cron: Cron, w: World, f: nat, succeeded: bool, origin: Job)
    requires Sound(w) && origin.recurrence.Some? && f < |w.fires| && !w.fires[f].phase.Rescheduling?
    requires Kept(w, origin)
    ensures !Kept(At(w, f, SettleStart(cron, w.store, w.fires[f], succeeded)), origin)
      <==> EndsForeign(w, f, origin) && (succeeded || w.fires[f].lease.job.recurrence.Some?)
           && !OtherHolds(w, origin, f)
  {
    var lease := w.fires[f].lease;
    KeptAt(w, f, SettleStart(cron, w.store, w.fires[f], succeeded), origin);
    StoredAfterCompletion(w.store, lease.job.id, lease.owner, origin);
  }

  lemma RescheduleExact(w: World, f: nat, origin: Job)
    requires Sound(w) && f < |w.fires| && w.fires[f].phase.Rescheduling? && Kept(w, origin)
    ensures !Kept(At(w, f, Reschedule(w.store, w.fires[f].phase)), origin)
      <==> Loses(w, Rescheduled(f), origin)
  {
    assert FireSound(w.fires[f]);
    KeptAt(w, f, Reschedule(w.store, w.fires[f].phase), origin);
    StoredAfterScheduling(w.store, w.fires[f].phase.next, origin);
  }

  lemma StoreExact(w: World, t: World, origin: Job)
    requires t.fires == w.fires
    ensures Kept(t, origin) <==> StoredAs(t.store, origin) || OtherHolds(w, origin, |w.fires|)
  {}

  lemma TickKeeps(cron: Cron, leaseMs: nat, w: World, step: Step, origin: Job)
    requires step.Tick? && Kept(w, origin)
    ensures Kept(Apply(cron, leaseMs, w, step), origin)
  {
    var t := Apply(cron, leaseMs, w, step);
    if g :| 0 <= g < |w.fires| && HoldsBack(w.fires[g], origin) {
      assert t.fires[g] == w.fires[g];
    }
  }

  /** A recurring job that is kept, is kept by every step but those. */
  lemma KeptExactly(cron: Cron, leaseMs: nat, w: World, step: Step, origin: Job)
    requires Sound(w) && origin.recurrence.Some? && Kept(w, origin) && Enabled(w, step)
    ensures !Kept(Apply(cron, leaseMs, w, step), origin) <==> Loses(w, step, origin)
  {
    var t := Apply(cron, leaseMs, w, step);
    match step
    case ScheduleNew(job) =>
      StoredAfterScheduling(w.store, job, origin);
      StoreExact(w, t, origin);
    case Replace(job) =>
      if StoredAs(w.store, origin) {
        StoredAfterRefresh(w.store, job, origin);
      }
      StoreExact(w, t, origin);
    case Tick(_, _, _) => TickKeeps(cron, leaseMs, w, step, origin);
    case Blocked(f) =>
      var lease := w.fires[f].lease;
      KeptAt(w, f, (Completed(w.store, lease.job.id, lease.owner), Over), origin);
      StoredAfterCompletion(w.store, lease.job.id, lease.owner, origin);
    case Executed(f, succeeded) => SettleExact(cron, w, f, succeeded, origin);
    case Rescheduled(f) => RescheduleExact(w, f, origin);
    case FailureSettled(f) =>
      assert FireSound(w.fires[f]);
      SettleExact(cron, w, f, false, origin);
    case Decided(f, allowed) => KeptAt(w, f, (w.store, if allowed then Executing else Blocking), origin);
    case Throws(f) => KeptAt(w, f, (w.store, Over), origin);
  }

  // ---------------------------------------------------------------- every run

  /** Over every run of ticks, refreshes and interleaved fires: from a state that keeps it on, a
      recurring job is kept, stored as it is or about to be put back, if and only if no step
      loses it. */
  lemma {:induction false} KeptThroughout(cron: Cron, leaseMs: nat, worlds: seq<World>, steps: seq<Step>, origin: Job,
                                          first: nat, n: nat)
    requires IsRun(cron, leaseMs, worlds, steps) && origin.recurrence.Some?
    requires first <= n < |worlds| && Kept(worlds[first], origin)
    ensures (forall m :: first <= m <= n ==> Kept(worlds[m], origin))
      <==> forall k :: first <= k < n ==> Enabled(worlds[k], steps[k]) && !Loses(worlds[k], steps[k], origin)
    decreases n
  {
    if first < n {
      KeptThroughout(cron, leaseMs, worlds, steps, origin, first, n - 1);
      assert Follows(cron, leaseMs, worlds[n - 1], steps[n - 1], worlds[n]);
      RunSound(cron, leaseMs, worlds, steps, n - 1);
      if Kept(worlds[n - 1], origin) {
        KeptExactly(cron, leaseMs, worlds[n - 1], steps[n - 1], origin);
      }
    }
  }

  /** If nothing but the origin is ever brought in under its id, only a refused fire that holds
      the lease can lose it. */
  lemma OnlyBlockingLoses(cron: Cron, leaseMs: nat, worlds: seq<World>, steps: seq<Step>, origin: Job, n: nat)
    requires IsRun(cron, leaseMs, worlds, steps) && n < |steps| && Enabled(worlds[n], steps[n])
    requires forall job :: job in Brought(steps, |steps|) && job.id == origin.id ==> SameJob(job, origin)
    requires Loses(worlds[n], steps[n], origin)
    ensures steps[n].Blocked?
  {
    var w := worlds[n];
    BroughtGrows(steps, n);
    RunFrom(cron, leaseMs, worlds, steps, n);
    forall job | From(job, Brought(steps, n)) && job.id == origin.id
      ensures SameJob(job, origin)
    {
      var original :| original in Brought(steps, n) && SameJob(job, original);
    }
    if steps[n].Executed? || steps[n].FailureSettled? {
      assert From(w.fires[steps[n].fire].lease.job, Brought(steps, n));
    }
    assert forall i :: 0 <= i < |w.store.jobs| ==> From(w.store.jobs[i], Brought(steps, n));
  }

  lemma {:induction false} BroughtGrows(steps: seq<Step>, n: nat)
    requires n < |steps|
    ensures Brought(steps, n) <= Brought(steps, |steps|) && BroughtBy(steps[n]) <= Brought(steps, |steps|)
  {
    BroughtPrefix(steps, n + 1, |steps|);
    assert Brought(steps, n + 1) == Brought(steps, n) + BroughtBy(steps[n]);
  }

  lemma {:induction false} BroughtPrefix(steps: seq<Step>, i: nat, n: nat)
    requires i <= n <= |steps|
    ensures Brought(steps, i) <= Brought(steps, n)
    decreases n
  {
    if i < n {
      BroughtPrefix(steps, i, n - 1);
    }
  }

  // ---------------------------------------------------------------- a blocked job that comes back

  function OneJob(recurrence: Recurrence): Job {
    Job("j", "p", "a", [], 0, "", Some(recurrence), None)
  }

  lemma OneDue(job: Job, leases: map<string, LeasedJob>, now: int)
    requires Grantable(job, leases, now)
    ensures GrantedJobs(Store([job], leases), now, 1) == [job]
    ensures forall owner, until :: Leases([job], owner, until) == [LeasedJob(job, owner, until)]
    ensures forall l :: WithLeases(leases, [l]) == leases[l.job.id := l]
  {
    assert Due([job], leases, now, 0) == [] && Due([job], leases, now, 1) == [] + [job];
    forall l ensures WithLeases(leases, [l]) == leases[l.job.id := l] {
      assert [l][..0] == [] && WithLeases(leases, []) == leases;
    }
  }

  function StaleSteps(leaseMs: nat, recurrence: Recurrence): seq<Step> {
    [ScheduleNew(OneJob(recurrence)), Tick(0, "x", 1), Decided(0, true), Tick(leaseMs, "y", 1), Decided(1, false),
     Blocked(1), Executed(0, true), Rescheduled(0)]
  }

  function StaleWorlds(cron: Cron, leaseMs: nat, recurrence: Recurrence): seq<World> {
    var job := OneJob(recurrence);
    var next := RecurringJob(cron, job, 0, true).value;
    var x, y := LeasedJob(job, "x", leaseMs), LeasedJob(job, "y", leaseMs + leaseMs);
    var once, twice := Store([job], map["j" := x]), Store([job], map["j" := y]);
    [START,
     World(Store([job], map[]), []),
     World(once, [Fire(x, 0, Deciding)]),
     World(once, [Fire(x, 0, Executing)]),
     World(twice, [Fire(x, 0, Executing), Fire(y, leaseMs, Deciding)]),
     World(twice, [Fire(x, 0, Executing), Fire(y, leaseMs, Blocking)]),
     World(Store([], map[]), [Fire(x, 0, Executing), Fire(y, leaseMs, Over)]),
     World(Store([], map[]), [Fire(x, 0, Rescheduling(next, false)), Fire(y, leaseMs, Over)]),
     World(Store([next], map[]), [Fire(x, 0, Over), Fire(y, leaseMs, Over)])]
  }

  lemma TickGrants(cron: Cron, leaseMs: nat, job: Job, leases: map<string, LeasedJob>, fires: seq<Fire>, now: int,
                   owner: string)
    requires Grantable(job, leases, now)
    ensures var lease := LeasedJob(job, owner, now + leaseMs);
      Apply(cron, leaseMs, World(Store([job], leases), fires), Tick(now, owner, 1))
      == World(Store([job], leases[job.id := lease]), fires + [Fire(lease, now, Deciding)])
  {
    OneDue(job, leases, now);
    assert Leases([job], owner, now + leaseMs) == [LeasedJob(job, owner, now + leaseMs)];
    var lease := LeasedJob(job, owner, now + leaseMs);
    assert Fires([lease], now) == [Fire(lease, now, Deciding)];
  }

  lemma StaleTicks(cron: Cron, leaseMs: nat, recurrence: Recurrence)
    ensures var worlds, steps := StaleWorlds(cron, leaseMs, recurrence), StaleSteps(leaseMs, recurrence);
      && Follows(cron, leaseMs, worlds[0], steps[0], worlds[1])
      && Follows(cron, leaseMs, worlds[1], steps[1], worlds[2])
      && Follows(cron, leaseMs, worlds[3], steps[3], worlds[4])
  {
    var job, worlds := OneJob(recurrence), StaleWorlds(cron, leaseMs, recurrence);
    TickGrants(cron, leaseMs, job, map[], [], 0, "x");
    TickGrants(cron, leaseMs, job, map["j" := LeasedJob(job, "x", leaseMs)], worlds[3].fires, leaseMs, "y");
    assert map["j" := LeasedJob(job, "x", leaseMs)]["j" := LeasedJob(job, "y", leaseMs + leaseMs)]
        == map["j" := LeasedJob(job, "y", leaseMs + leaseMs)];
  }

  lemma StaleDecisions(cron: Cron, leaseMs: nat, recurrence: Recurrence)
    ensures var worlds, steps := StaleWorlds(cron, leaseMs, recurrence), StaleSteps(leaseMs, recurrence);
      && Follows(cron, leaseMs, worlds[2], steps[2], worlds[3])
      && Follows(cron, leaseMs, worlds[4], steps[4], worlds[5])
  {}

  lemma StaleBlock(cron: Cron, leaseMs: nat, recurrence: Recurrence)
    ensures var worlds, steps := StaleWorlds(cron, leaseMs, recurrence), StaleSteps(leaseMs, recurrence);
      Follows(cron, leaseMs, worlds[5], steps[5], worlds[6])
  {
    assert Removed([OneJob(recurrence)], "j") == [];
  }

  lemma StaleReturn(cron: Cron, leaseMs: nat, recurrence: Recurrence)
    ensures var worlds, steps := StaleWorlds(cron, leaseMs, recurrence), StaleSteps(leaseMs, recurrence);
      && Follows(cron, leaseMs, worlds[6], steps[6], worlds[7])
      && Follows(cron, leaseMs, worlds[7], steps[7], worlds[8])
  {}

  lemma StaleRun(cron: Cron, leaseMs: nat, recurrence: Recurrence)
    ensures IsRun(cron, leaseMs, StaleWorlds(cron, leaseMs, recurrence), StaleSteps(leaseMs, recurrence))
  {
    StaleTicks(cron, leaseMs, recurrence);
    StaleDecisions(cron, leaseMs, recurrence);
    StaleBlock(cron, leaseMs, recurrence);
    StaleReturn(cron, leaseMs, recurrence);
    var worlds, steps := StaleWorlds(cron, leaseMs, recurrence), StaleSteps(leaseMs, recurrence);
    forall n | 0 <= n < |steps| ensures Follows(cron, leaseMs, worlds[n], steps[n], worlds[n + 1]) {
      assert n in {0, 1, 2, 3, 4, 5, 6, 7};
    }
  }

  /** A stale fire puts a removed job back: its lease runs out while it executes, a second
      fire of the job is refused and removes it, and then the first one reschedules it. */
  lemma BlockedJobReturns(cron: Cron, leaseMs: nat, recurrence: Recurrence)
    ensures var worlds, steps := StaleWorlds(cron, leaseMs, recurrence), StaleSteps(leaseMs, recurrence);
      && IsRun(cron, leaseMs, worlds, steps) && steps[5].Blocked? && Loses(worlds[5], steps[5], OneJob(recurrence))
      && !Kept(worlds[6], OneJob(recurrence)) && StoredAs(worlds[8].store, OneJob(recurrence))
  {
    StaleRun(cron, leaseMs, recurrence);
    var worlds := StaleWorlds(cron, leaseMs, recurrence);
    assert worlds[8].store.jobs[0] in worlds[8].store.jobs;
  }
  // ---------------------------------------------------------------- a job whose id is taken

  function TakenSteps(recurrence: Recurrence, other: Job): seq<Step> {
    [ScheduleNew(OneJob(recurrence)), Tick(0, "x", 1), Decided(0, true), Executed(0, true), Replace(other),
     Rescheduled(0), FailureSettled(0), Rescheduled(0)]
  }

  function TakenWorlds(cron: Cron, leaseMs: nat, recurrence: Recurrence, other: Job): seq<World> {
    var job := OneJob(recurrence);
    var next, retry := RecurringJob(cron, job, 0, true).value, RecurringJob(cron, job, 0, false).value;
    var x, taken := LeasedJob(job, "x", leaseMs), Store([other], map[]);
    [START,
     World(Store([job], map[]), []),
     World(Store([job], map["j" := x]), [Fire(x, 0, Deciding)]),
     World(Store([job], map["j" := x]), [Fire(x, 0, Executing)]),
     World(Store([], map[]), [Fire(x, 0, Rescheduling(next, false))]),
     World(taken, [Fire(x, 0, Rescheduling(next, false))]),
     World(taken, [Fire(x, 0, Failing)]),
     World(taken, [Fire(x, 0, Rescheduling(retry, true))]),
     World(taken, [Fire(x, 0, Over)])]
  }

  lemma TakenStarts(cron: Cron, leaseMs: nat, recurrence: Recurrence, other: Job)
    requires other.id == "j"
    ensures var worlds, steps := TakenWorlds(cron, leaseMs, recurrence, other), TakenSteps(recurrence, other);
      && Follows(cron, leaseMs, worlds[0], steps[0], worlds[1])
      && Follows(cron, leaseMs, worlds[1], steps[1], worlds[2])
      && Follows(cron, leaseMs, worlds[2], steps[2], worlds[3])
  {
    TickGrants(cron, leaseMs, OneJob(recurrence), map[], [], 0, "x");
  }

  lemma TakenBetween(cron: Cron, leaseMs: nat, recurrence: Recurrence, other: Job)
    requires other.id == "j"
    ensures var worlds, steps := TakenWorlds(cron, leaseMs, recurrence, other), TakenSteps(recurrence, other);
      && Follows(cron, leaseMs, worlds[3], steps[3], worlds[4])
      && Follows(cron, leaseMs, worlds[4], steps[4], worlds[5])
  {
    assert Removed([OneJob(recurrence)], "j") == [];
  }

  lemma TakenFails(cron: Cron, leaseMs: nat, recurrence: Recurrence, other: Job)
    requires other.id == "j"
    ensures var worlds, steps := TakenWorlds(cron, leaseMs, recurrence, other), TakenSteps(recurrence, other);
      && Follows(cron, leaseMs, worlds[5], steps[5], worlds[6])
      && Follows(cron, leaseMs, worlds[6], steps[6], worlds[7])
      && Follows(cron, leaseMs, worlds[7], steps[7], worlds[8])
  {
    assert [other][0].id == "j" && Stored([other], "j");
  }

  /** A recurring job is lost without any refusal: between its completion and its rescheduling
      a refresh stores another job, of another payload, under its id. The rescheduling finds
      the id taken, and so does the one that settles this failure. */
  lemma TakenIdLosesJob(cron: Cron, leaseMs: nat, recurrence: Recurrence, other: Job)
    requires other.id == "j" && other.payload != ""
    ensures var worlds, steps := TakenWorlds(cron, leaseMs, recurrence, other), TakenSteps(recurrence, other);
      && IsRun(cron, leaseMs, worlds, steps) && (forall step :: step in steps ==> !step.Blocked?)
      && (forall m :: 1 <= m < 8 ==> Kept(worlds[m], OneJob(recurrence)))
      && !Kept(worlds[8], OneJob(recurrence)) && worlds[8].store.jobs == [other]
  {
    var worlds, steps := TakenWorlds(cron, leaseMs, recurrence, other), TakenSteps(recurrence, other);
    TakenStarts(cron, leaseMs, recurrence, other);
    TakenBetween(cron, leaseMs, recurrence, other);
    TakenFails(cron, leaseMs, recurrence, other);
    forall n | 0 <= n < |steps|
      ensures Follows(cron, leaseMs, worlds[n], steps[n], worlds[n + 1])
    {
      assert n in {0, 1, 2, 3, 4, 5, 6, 7};
    }
    TakenKept(cron, leaseMs, recurrence, other);
  }

  lemma TakenKept(cron: Cron, leaseMs: nat, recurrence: Recurrence, other: Job)
    requires other.id == "j" && other.payload != ""
    ensures var worlds := TakenWorlds(cron, leaseMs, recurrence, other);
      && (forall m :: 1 <= m < 8 ==> Kept(worlds[m], OneJob(recurrence)))
      && !Kept(worlds[8], OneJob(recurrence))
  {
    var worlds, job := TakenWorlds(cron, leaseMs, recurrence, other), OneJob(recurrence);
    forall m | 1 <= m < 8
      ensures Kept(worlds[m], job)
    {
      assert m <= 3 ==> worlds[m].store.jobs == [job] && job in worlds[m].store.jobs;
      assert m > 3 ==> HoldsBack(worlds[m].fires[0], job);
    }
  }
}
