/** Fires of scheduled jobs, interleaved at their awaits with each other and with every other
    use of the store. */
module SchedulerFires {
  import opened Wrappers
  import opened Recurrence
  import opened Scheduler
  import opened SchedulerRuns

  /** What a fire is waiting for. */
  datatype Phase =
    | Deciding       // the authority's answer
    | Blocking       // the record of its refusal
    | Executing      // the record of the fire and the executor
    | Rescheduling(next: Job, last: bool)
    // the store, which has completed the job; last says whether a failure is final
    | Failing        // the rejection of a rescheduling that followed a success
    | Over

  datatype Fire = Fire(lease: LeasedJob, now: int, phase: Phase)

  datatype World = World(store: Store, fires: seq<Fire>)

  const START := World(Store([], map[]), [])

  datatype Step =
    | ScheduleNew(job: Job)
    | Replace(job: Job)
    | Tick(now: int, owner: string, limit: int)
    | Decided(fire: nat, allowed: bool)
    | Blocked(fire: nat)
    | Executed(fire: nat, succeeded: bool)
    | Rescheduled(fire: nat)
    | FailureSettled(fire: nat)
    | Throws(fire: nat)

  /** The index of the stored job with the id. */
  function IndexOf(jobs: seq<Job>, id: string): (i: nat)
    requires Stored(jobs, id)
    ensures i < |jobs| && jobs[i].id == id
  {
    if jobs[0].id == id then 0 else
      assert Stored(jobs[1..], id) by {
        var k :| 0 <= k < |jobs| && jobs[k].id == id;
        assert jobs[1..][k - 1] == jobs[k];
      }
      1 + IndexOf(jobs[1..], id)
  }

  /** A refresh of the job: a stored one gives way if its payload differs and nobody has
      leased it. */
  function Replaced(s: Store, job: Job): Store {
    if !Stored(s.jobs, job.id) then s.(jobs := s.jobs + [job])
    else
      var i := IndexOf(s.jobs, job.id);
      if s.jobs[i].payload == job.payload || job.id in s.leases then s else s.(jobs := s.jobs[i := job])
  }

  function OrSame(result: Result<Store, string>, s: Store): Store {
    if result.Ok? then result.value else s
  }

  predicate Enabled(w: World, step: Step) {
    match step
    case ScheduleNew(_) => true
    case Replace(_) => true
    case Tick(_, _, _) => true
    case Decided(f, _) => f < |w.fires| && w.fires[f].phase.Deciding?
    case Blocked(f) => f < |w.fires| && w.fires[f].phase.Blocking?
    case Executed(f, _) => f < |w.fires| && w.fires[f].phase.Executing?
    case Rescheduled(f) => f < |w.fires| && w.fires[f].phase.Rescheduling?
    case FailureSettled(f) => f < |w.fires| && w.fires[f].phase.Failing?
    case Throws(f) => f < |w.fires| && (w.fires[f].phase.Deciding? || w.fires[f].phase.Blocking?)
  }

  /** The settlement up to its first await. */
  function SettleStart(cron: Cron, s: Store, fire: Fire, succeeded: bool): (Store, Phase) {
    var job, owner := fire.lease.job, fire.lease.owner;
    var next := RecurringJob(cron, job, fire.now, succeeded);
    if !succeeded && next.None? then (Released(s, job.id, owner), Over)
    else if next.None? then (Completed(s, job.id, owner), Over)
    else (Completed(s, job.id, owner), Rescheduling(next.value, !succeeded))
  }

  function Reschedule(s: Store, phase: Phase): (Store, Phase)
    requires phase.Rescheduling?
  {
    var scheduled := Scheduled(s, phase.next);
    if scheduled.Ok? then (scheduled.value, Over) else (s, if phase.last then Over else Failing)
  }

  function At(w: World, f: nat, result: (Store, Phase)): World
    requires f < |w.fires|
  {
    World(result.0, w.fires[f := w.fires[f].(phase := result.1)])
  }

  function Fires(leased: seq<LeasedJob>, now: int): (fires: seq<Fire>)
    ensures |fires| == |leased| && forall i :: 0 <= i < |leased| ==> fires[i] == Fire(leased[i], now, Deciding)
  {
    seq(|leased|, i requires 0 <= i < |leased| => Fire(leased[i], now, Deciding))
  }

  function Apply(cron: Cron, leaseMs: nat, w: World, step: Step): World
    requires Enabled(w, step)
  {
    match step
    case ScheduleNew(job) => w.(store := OrSame(Scheduled(w.store, job), w.store))
    case Replace(job) => w.(store := Replaced(w.store, job))
    case Tick(now, owner, limit) =>
      World(Leased(w.store, leaseMs, now, owner, limit),
            w.fires + Fires(Leases(GrantedJobs(w.store, now, limit), owner, now + leaseMs), now))
    case Decided(f, allowed) => At(w, f, (w.store, if allowed then Executing else Blocking))
    case Blocked(f) => At(w, f, (Completed(w.store, w.fires[f].lease.job.id, w.fires[f].lease.owner), Over))
    case Executed(f, succeeded) => At(w, f, SettleStart(cron, w.store, w.fires[f], succeeded))
    case Rescheduled(f) => At(w, f, Reschedule(w.store, w.fires[f].phase))
    case FailureSettled(f) => At(w, f, SettleStart(cron, w.store, w.fires[f], false))
    case Throws(f) => At(w, f, (w.store, Over))
  }

  ghost predicate IsRun(cron: Cron, leaseMs: nat, worlds: seq<World>, steps: seq<Step>) {
    && |worlds| == |steps| + 1 && worlds[0] == START
    && forall n :: 0 <= n < |steps| ==> Follows(cron, leaseMs, worlds[n], steps[n], worlds[n + 1])
  }

  predicate Follows(cron: Cron, leaseMs: nat, w: World, step: Step, t: World) {
    Enabled(w, step) && t == Apply(cron, leaseMs, w, step)
  }

  // ---------------------------------------------------------------- one fire without interruption

  /** The store after a rescheduling, and after the settlement of its failure. */
  function Finished(cron: Cron, fire: Fire, after: (Store, Phase)): Store {
    if !after.1.Rescheduling? then after.0
    else
      var (s, phase) := Reschedule(after.0, after.1);
      if phase.Failing? then
        var (t, again) := SettleStart(cron, s, fire, false);
        if again.Rescheduling? then Reschedule(t, again).0 else t
      else s
  }

  /** The steps of a fire that nothing comes between are the fire. */
  lemma UninterruptedFire(cron: Cron, s: Store, lease: LeasedJob, now: int, ran: bool)
    ensures var fire := Fire(lease, now, Executing);
      Finished(cron, fire, SettleStart(cron, s, fire, ran)) == Fired(cron, s, lease, now, true, ran).0
  {}

  // ---------------------------------------------------------------- what every run keeps

  /** What a fire will put back is its job, and only a recurring job is put back. */
  ghost predicate FireSound(fire: Fire) {
    && (fire.phase.Rescheduling? || fire.phase.Failing? ==> fire.lease.job.recurrence.Some?)
    && (fire.phase.Rescheduling? ==> SameJob(fire.phase.next, fire.lease.job))
  }

  ghost predicate Sound(w: World) {
    w.store.Valid() && forall f :: 0 <= f < |w.fires| ==> FireSound(w.fires[f])
  }

  lemma CompletedJobs(s: Store, id: string, owner: string)
    requires s.Valid()
    ensures Completed(s, id, owner).Valid()
    ensures forall job ::
      job in Completed(s, id, owner).jobs <==> job in s.jobs && !(Holds(s, id, owner) && job.id == id)
  {
    ApplyKeeps(0, s, CompleteJob(id, owner));
    RemovedJobs(s.jobs, id);
  }

  lemma ScheduledJobs(s: Store, job: Job)
    requires s.Valid()
    ensures OrSame(Scheduled(s, job), s).Valid()
    ensures forall other ::
      other in OrSame(Scheduled(s, job), s).jobs <==> other in s.jobs || (other == job && !Stored(s.jobs, job.id))
  {
    ApplyKeeps(0, s, ScheduleJob(job));
  }

  lemma ReplacedJobs(s: Store, job: Job)
    requires s.Valid()
    ensures Replaced(s, job).Valid()
    ensures forall other :: other in Replaced(s, job).jobs ==> other in s.jobs || other == job
    ensures forall other :: other in s.jobs && other.id != job.id ==> other in Replaced(s, job).jobs
    ensures forall other :: other in s.jobs && other.id == job.id ==>
      if other.payload == job.payload || job.id in s.leases then Replaced(s, job) == s
      else job in Replaced(s, job).jobs && other !in Replaced(s, job).jobs
    ensures !Stored(s.jobs, job.id) ==> job in Replaced(s, job).jobs
  {
    if !Stored(s.jobs, job.id) {
      ScheduledJobs(s, job);
      assert (s.jobs + [job])[|s.jobs|] == job;
    } else {
      OverwrittenJobs(s, job, IndexOf(s.jobs, job.id));
    }
  }

  lemma OverwrittenJobs(s: Store, job: Job, i: nat)
    requires s.Valid() && i < |s.jobs| && s.jobs[i].id == job.id
    ensures var jobs := s.jobs[i := job];
      && (job.id !in s.leases ==> Store(jobs, s.leases).Valid())
      && (forall other :: other in jobs <==> other == job || (other in s.jobs && other.id != job.id))
    ensures forall other :: other in s.jobs && other.id == job.id ==> other == s.jobs[i]
  {
    var jobs := s.jobs[i := job];
    assert jobs[i] == job;
    forall other | other in s.jobs && other.id != job.id
      ensures other in jobs
    {
      var k :| 0 <= k < |s.jobs| && s.jobs[k] == other;
      assert jobs[k] == other;
    }
  }

  lemma DueJobs(s: Store, now: int, limit: int)
    ensures forall job :: job in GrantedJobs(s, now, limit) ==> job in s.jobs
  {
    DueStored(s.jobs, s.leases, now, |s.jobs|);
    assert s.jobs[..|s.jobs|] == s.jobs;
    var due := Due(s.jobs, s.leases, now, |s.jobs|);
    assert forall job :: job in Take(due, limit) ==> job in due;
  }

  lemma SettleSound(cron: Cron, w: World, f: nat, succeeded: bool)
    requires Sound(w) && f < |w.fires|
    ensures Sound(At(w, f, SettleStart(cron, w.store, w.fires[f], succeeded)))
  {
    var lease := w.fires[f].lease;
    CompletedJobs(w.store, lease.job.id, lease.owner);
    ApplyKeeps(0, w.store, ReleaseJob(lease.job.id, lease.owner));
  }

  lemma StepSound(cron: Cron, leaseMs: nat, w: World, step: Step)
    requires Sound(w) && Enabled(w, step)
    ensures Sound(Apply(cron, leaseMs, w, step))
  {
    match step
    case ScheduleNew(job) => ScheduledJobs(w.store, job);
    case Replace(job) => ReplacedJobs(w.store, job);
    case Tick(now, owner, limit) => LeasedKeeps(w.store, leaseMs, now, owner, limit);
    case Blocked(f) => CompletedJobs(w.store, w.fires[f].lease.job.id, w.fires[f].lease.owner);
    case Executed(f, succeeded) => SettleSound(cron, w, f, succeeded);
    case Rescheduled(f) =>
      assert FireSound(w.fires[f]);
      ScheduledJobs(w.store, w.fires[f].phase.next);
    case FailureSettled(f) => SettleSound(cron, w, f, false);
    case _ =>
  }

  lemma {:induction false} RunSound(cron: Cron, leaseMs: nat, worlds: seq<World>, steps: seq<Step>, n: nat)
    requires IsRun(cron, leaseMs, worlds, steps) && n < |worlds|
    ensures Sound(worlds[n])
  {
    if n > 0 {
      RunSound(cron, leaseMs, worlds, steps, n - 1);
      assert Follows(cron, leaseMs, worlds[n - 1], steps[n - 1], worlds[n]);
      StepSound(cron, leaseMs, worlds[n - 1], steps[n - 1]);
    }
  }

  // ---------------------------------------------------------------- where the jobs come from

  /** The jobs that the first n steps have brought in. */
  function Brought(steps: seq<Step>, n: nat): set<Job>
    requires n <= |steps|
  {
    if n == 0 then {} else Brought(steps, n - 1) + BroughtBy(steps[n - 1])
  }

  function BroughtBy(step: Step): set<Job> {
    if step.ScheduleNew? || step.Replace? then {step.job} else {}
  }

  predicate WithinAttempts(job: Job) {
    job.recurrence.Some? ==> job.Attempt() <= job.recurrence.value.maximumRetryAttempts
  }

  /** One of those jobs as it was brought in, or as a fire has rescheduled it: with an attempt
      count within the maximum. */
  ghost predicate From(job: Job, brought: set<Job>) {
    exists original :: original in brought && SameJob(job, original) && (job == original || WithinAttempts(job))
  }

  ghost predicate AllFrom(w: World, brought: set<Job>) {
    && (forall job :: job in w.store.jobs ==> From(job, brought))
    && forall f :: 0 <= f < |w.fires| ==>
         && From(w.fires[f].lease.job, brought)
         && (w.fires[f].phase.Rescheduling? ==> From(w.fires[f].phase.next, brought))
  }

  lemma FromMore(job: Job, brought: set<Job>, more: set<Job>)
    requires From(job, brought)
    ensures From(job, brought + more)
  {
    var original :| original in brought && SameJob(job, original) && (job == original || WithinAttempts(job));
    assert original in brought + more;
  }

  lemma AllFromMore(w: World, brought: set<Job>, more: set<Job>)
    requires AllFrom(w, brought)
    ensures AllFrom(w, brought + more)
  {
    forall job | From(job, brought)
      ensures From(job, brought + more)
    {
      FromMore(job, brought, more);
    }
  }

  lemma NextFrom(cron: Cron, job: Job, now: int, succeeded: bool, brought: set<Job>)
    requires From(job, brought) && job.recurrence.Some?
    ensures From(RecurringJob(cron, job, now, succeeded).value, brought)
  {
    var original :| original in brought && SameJob(job, original) && (job == original || WithinAttempts(job));
    assert SameJob(RecurringJob(cron, job, now, succeeded).value, original);
  }

  lemma SettleFrom(cron: Cron, w: World, f: nat, succeeded: bool, brought: set<Job>)
    requires Sound(w) && AllFrom(w, brought) && f < |w.fires|
    ensures AllFrom(At(w, f, SettleStart(cron, w.store, w.fires[f], succeeded)), brought)
  {
    var lease := w.fires[f].lease;
    CompletedJobs(w.store, lease.job.id, lease.owner);
    if lease.job.recurrence.Some? {
      NextFrom(cron, lease.job, w.fires[f].now, succeeded, brought);
    }
  }

  lemma TickFrom(cron: Cron, leaseMs: nat, w: World, step: Step, brought: set<Job>)
    requires AllFrom(w, brought) && step.Tick?
    ensures AllFrom(Apply(cron, leaseMs, w, step), brought)
  {
    var t, granted := Apply(cron, leaseMs, w, step), GrantedJobs(w.store, step.now, step.limit);
    DueJobs(w.store, step.now, step.limit);
    forall f | |w.fires| <= f < |t.fires|
      ensures From(t.fires[f].lease.job, brought)
    {
      assert t.fires[f].lease.job == granted[f - |w.fires|] && granted[f - |w.fires|] in granted;
    }
  }

  lemma StepFrom(cron: Cron, leaseMs: nat, w: World, step: Step, brought: set<Job>)
    requires Sound(w) && AllFrom(w, brought) && Enabled(w, step)
    ensures AllFrom(Apply(cron, leaseMs, w, step), brought + BroughtBy(step))
  {
    AllFromMore(w, brought, BroughtBy(step));
    var all := brought + BroughtBy(step);
    match step
    case ScheduleNew(job) =>
      ScheduledJobs(w.store, job);
      assert From(job, all);
    case Replace(job) =>
      ReplacedJobs(w.store, job);
      assert From(job, all);
    case Tick(_, _, _) => TickFrom(cron, leaseMs, w, step, all);
    case Blocked(f) => CompletedJobs(w.store, w.fires[f].lease.job.id, w.fires[f].lease.owner);
    case Executed(f, succeeded) => SettleFrom(cron, w, f, succeeded, all);
    case Rescheduled(f) => ScheduledJobs(w.store, w.fires[f].phase.next);
    case FailureSettled(f) => SettleFrom(cron, w, f, false, all);
    case _ =>
  }

  lemma {:induction false} RunFrom(cron: Cron, leaseMs: nat, worlds: seq<World>, steps: seq<Step>, n: nat)
    requires IsRun(cron, leaseMs, worlds, steps) && n < |worlds|
    ensures AllFrom(worlds[n], Brought(steps, n))
  {
    if n > 0 {
      RunFrom(cron, leaseMs, worlds, steps, n - 1);
      RunSound(cron, leaseMs, worlds, steps, n - 1);
      assert Follows(cron, leaseMs, worlds[n - 1], steps[n - 1], worlds[n]);
      StepFrom(cron, leaseMs, worlds[n - 1], steps[n - 1], Brought(steps, n - 1));
    }
  }

  /** Over every run of interleaved fires: each id is stored once; a stored job is one that was
      brought in, the same but for its next run; and unless no fire has rescheduled it yet, its
      attempt count is within the maximum. */
  lemma StoredJobs(cron: Cron, leaseMs: nat, worlds: seq<World>, steps: seq<Step>, n: nat, job: Job)
    requires IsRun(cron, leaseMs, worlds, steps) && n < |worlds| && job in worlds[n].store.jobs
    ensures From(job, Brought(steps, n))
    ensures (forall original :: original in Brought(steps, n) ==> WithinAttempts(original)) ==> WithinAttempts(job)
    ensures forall other :: other in worlds[n].store.jobs && other.id == job.id ==> other == job
  {
    RunFrom(cron, leaseMs, worlds, steps, n);
    RunSound(cron, leaseMs, worlds, steps, n);
  }

  // ---------------------------------------------------------------- no fire before its time

  ghost predicate FiresDue(w: World) {
    forall f :: 0 <= f < |w.fires| ==> w.fires[f].lease.job.runAt <= w.fires[f].now
  }

  lemma StepDue(cron: Cron, leaseMs: nat, w: World, step: Step)
    requires FiresDue(w) && Enabled(w, step)
    ensures FiresDue(Apply(cron, leaseMs, w, step))
  {
    if step.Tick? {
      var t, granted := Apply(cron, leaseMs, w, step), GrantedJobs(w.store, step.now, step.limit);
      DueStored(w.store.jobs, w.store.leases, step.now, |w.store.jobs|);
      forall f | |w.fires| <= f < |t.fires|
        ensures t.fires[f].lease.job.runAt <= t.fires[f].now
      {
        assert t.fires[f].lease.job == granted[f - |w.fires|];
        assert granted[f - |w.fires|] in Due(w.store.jobs, w.store.leases, step.now, |w.store.jobs|);
      }
    }
  }

  /** Over every run no job is fired before the time it is to run at, and a job is fired only
      from a lease that runs for the lease period from the tick on. */
  lemma {:induction false} FiredWhenDue(cron: Cron, leaseMs: nat, worlds: seq<World>, steps: seq<Step>, n: nat)
    requires IsRun(cron, leaseMs, worlds, steps) && n < |worlds|
    ensures FiresDue(worlds[n])
    ensures forall f :: 0 <= f < |worlds[n].fires| ==>
      worlds[n].fires[f].lease.leaseUntil == worlds[n].fires[f].now + leaseMs
  {
    if n > 0 {
      FiredWhenDue(cron, leaseMs, worlds, steps, n - 1);
      assert Follows(cron, leaseMs, worlds[n - 1], steps[n - 1], worlds[n]);
      StepDue(cron, leaseMs, worlds[n - 1], steps[n - 1]);
    }
  }
}
