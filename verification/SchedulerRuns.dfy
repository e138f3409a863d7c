/** What holds over whole runs of the job store. */
module SchedulerRuns {
  import opened Wrappers
  import opened Recurrence
  import opened Scheduler

  datatype Event =
    | ScheduleJob(job: Job)
    | LeaseJobs(now: int, owner: string, limit: int)
    | CompleteJob(id: string, owner: string)
    | ReleaseJob(id: string, owner: string)

  function Apply(leaseMs: nat, s: Store, event: Event): Store {
    match event
    case ScheduleJob(job) => if Scheduled(s, job).Ok? then Scheduled(s, job).value else s
    case LeaseJobs(now, owner, limit) => Leased(s, leaseMs, now, owner, limit)
    case CompleteJob(id, owner) => Completed(s, id, owner)
    case ReleaseJob(id, owner) => Released(s, id, owner)
  }

  /** The store after the first n events. */
  function At(leaseMs: nat, start: Store, events: seq<Event>, n: nat): Store
    requires n <= |events|
  {
    if n == 0 then start else Apply(leaseMs, At(leaseMs, start, events, n - 1), events[n - 1])
  }

  // ---------------------------------------------------------------- the store stays consistent

  lemma {:induction false} RemovedJobs(jobs: seq<Job>, id: string)
    requires forall i, j :: 0 <= i < j < |jobs| ==> jobs[i].id != jobs[j].id
    ensures forall i, j :: 0 <= i < j < |Removed(jobs, id)| ==> Removed(jobs, id)[i].id != Removed(jobs, id)[j].id
    ensures forall job :: job in Removed(jobs, id) <==> job in jobs && job.id != id
  {
    if jobs != [] {
      assert jobs == [jobs[0]] + jobs[1..];
      RemovedJobs(jobs[1..], id);
    }
  }

  lemma LeasedKeeps(s: Store, leaseMs: nat, now: int, owner: string, limit: int)
    requires s.Valid()
    ensures Leased(s, leaseMs, now, owner, limit).Valid()
  {
    var t := Leased(s, leaseMs, now, owner, limit);
    var leased := Leases(GrantedJobs(s, now, limit), owner, now + leaseMs);
    DueStored(s.jobs, s.leases, now, |s.jobs|);
    forall id | id in t.leases
      ensures t.leases[id].job in t.jobs && t.leases[id].job.id == id
    {
      LeasesOf(s.leases, leased, id);
      if exists l :: l in leased && l.job.id == id {
        var i :| 0 <= i < |leased| && leased[i] == t.leases[id];
        assert leased[i].job in Due(s.jobs, s.leases, now, |s.jobs|);
        assert s.jobs[..|s.jobs|] == s.jobs;
      }
    }
  }

  lemma ApplyKeeps(leaseMs: nat, s: Store, event: Event)
    requires s.Valid()
    ensures Apply(leaseMs, s, event).Valid()
  {
    match event
    case ScheduleJob(job) =>
    case LeaseJobs(now, owner, limit) => LeasedKeeps(s, leaseMs, now, owner, limit);
    case CompleteJob(id, owner) => RemovedJobs(s.jobs, id);
    case ReleaseJob(id, owner) =>
  }

  /** In every run ids stay distinct and every lease is for a stored job. */
  lemma {:induction false} StoreStaysValid(leaseMs: nat, start: Store, events: seq<Event>, n: nat)
    requires start.Valid() && n <= |events|
    ensures At(leaseMs, start, events, n).Valid()
  {
    if n > 0 {
      StoreStaysValid(leaseMs, start, events, n - 1);
      ApplyKeeps(leaseMs, At(leaseMs, start, events, n - 1), events[n - 1]);
    }
  }

  // ---------------------------------------------------------------- lease exclusion

  /** The event grants the job. */
  predicate Grants(s: Store, event: Event, id: string) {
    event.LeaseJobs? && Stored(GrantedJobs(s, event.now, event.limit), id)
  }

  /** The event ends the lease of the job: its owner completes or releases it. */
  predicate Ends(s: Store, event: Event, id: string) {
    (event.CompleteJob? || event.ReleaseJob?) && event.id == id && Holds(s, id, event.owner)
  }

  /** A call by anyone else changes nothing. */
  lemma NonOwnerChangesNothing(leaseMs: nat, s: Store, event: Event)
    requires event.CompleteJob? || event.ReleaseJob?
    requires !Holds(s, event.id, event.owner)
    ensures Apply(leaseMs, s, event) == s
  {}

  ghost predicate TimeMovesForward(events: seq<Event>) {
    forall i, j :: 0 <= i < j < |events| && events[i].LeaseJobs? && events[j].LeaseJobs? ==>
      events[i].now <= events[j].now
  }

  ghost predicate HeldUntil(s: Store, id: string, time: int) {
    id in s.leases && time <= s.leases[id].leaseUntil
  }

  lemma GrantHolds(leaseMs: nat, s: Store, event: Event, id: string)
    requires s.Valid() && Grants(s, event, id)
    ensures HeldUntil(Apply(leaseMs, s, event), id, event.now + leaseMs)
    ensures id in s.leases ==> s.leases[id].leaseUntil <= event.now
  {
    var granted := GrantedJobs(s, event.now, event.limit);
    var leased := Leases(granted, event.owner, event.now + leaseMs);
    var i :| 0 <= i < |granted| && granted[i].id == id;
    assert leased[i] in leased && leased[i].job.id == id;
    LeasesOf(s.leases, leased, id);
    DueStored(s.jobs, s.leases, event.now, |s.jobs|);
    assert granted[i] in granted;
    assert Grantable(granted[i], s.leases, event.now);
  }

  lemma HoldSurvives(leaseMs: nat, s: Store, event: Event, id: string, time: int)
    requires s.Valid() && HeldUntil(s, id, time) && !Ends(s, event, id)
    requires event.LeaseJobs? ==> time <= event.now + leaseMs
    ensures HeldUntil(Apply(leaseMs, s, event), id, time)
  {
    if Grants(s, event, id) {
      GrantHolds(leaseMs, s, event, id);
    } else if event.LeaseJobs? {
      var granted := GrantedJobs(s, event.now, event.limit);
      var leased := Leases(granted, event.owner, event.now + leaseMs);
      forall l | l in leased ensures l.job.id != id {
        var k :| 0 <= k < |leased| && leased[k] == l;
        assert granted[k].id == l.job.id;
      }
      LeasesOf(s.leases, leased, id);
    }
  }

  ghost predicate EndsAt(leaseMs: nat, start: Store, events: seq<Event>, id: string, k: nat)
    requires k < |events|
  {
    Ends(At(leaseMs, start, events, k), events[k], id)
  }

  ghost predicate NotEnded(leaseMs: nat, start: Store, events: seq<Event>, id: string, i: nat, j: nat)
    requires j <= |events|
  {
    forall k {:trigger EndsAt(leaseMs, start, events, id, k)} :: i < k < j ==> !EndsAt(leaseMs, start, events, id, k)
  }

  lemma {:induction false} HeldSince(leaseMs: nat, start: Store, events: seq<Event>, id: string, i: nat, j: nat)
    requires start.Valid() && TimeMovesForward(events) && i < j <= |events|
    requires Grants(At(leaseMs, start, events, i), events[i], id)
    requires NotEnded(leaseMs, start, events, id, i, j)
    ensures HeldUntil(At(leaseMs, start, events, j), id, events[i].now + leaseMs)
  {
    if j == i + 1 {
      StoreStaysValid(leaseMs, start, events, i);
      GrantHolds(leaseMs, At(leaseMs, start, events, i), events[i], id);
    } else {
      HeldSince(leaseMs, start, events, id, i, j - 1);
      assert !EndsAt(leaseMs, start, events, id, j - 1);
      StoreStaysValid(leaseMs, start, events, j - 1);
      HoldSurvives(leaseMs, At(leaseMs, start, events, j - 1), events[j - 1], id, events[i].now + leaseMs);
    }
  }

  /** Lease exclusion: two grants of one job, with its lease not ended in between, are at
      least a lease period apart. */
  lemma LeaseExclusion(leaseMs: nat, start: Store, events: seq<Event>, id: string, i: nat, j: nat)
    requires start.Valid() && TimeMovesForward(events) && i < j < |events|
    requires Grants(At(leaseMs, start, events, i), events[i], id)
    requires Grants(At(leaseMs, start, events, j), events[j], id)
    requires NotEnded(leaseMs, start, events, id, i, j)
    ensures events[i].now + leaseMs <= events[j].now
  {
    HeldSince(leaseMs, start, events, id, i, j);
    StoreStaysValid(leaseMs, start, events, j);
    GrantHolds(leaseMs, At(leaseMs, start, events, j), events[j], id);
  }

  // ---------------------------------------------------------------- settling a fired job

  /** Stored exactly once, as this job, and leased to nobody. */
  ghost predicate StoredOnce(s: Store, job: Job) {
    && s.Valid() && job in s.jobs && job.id !in s.leases
    && forall other :: other in s.jobs && other.id == job.id ==> other == job
  }

  lemma NotStored(jobs: seq<Job>, id: string)
    requires forall job :: job in jobs ==> job.id != id
    ensures !Stored(jobs, id)
  {}

  lemma SettledRecurring(cron: Cron, s: Store, job: Job, owner: string, now: int, succeeded: bool)
    requires s.Valid() && Holds(s, job.id, owner) && s.leases[job.id].job == job && job.recurrence.Some?
    ensures Settled(cron, s, job, owner, now, succeeded).Ok?
    ensures
      StoredOnce(Settled(cron, s, job, owner, now, succeeded).value, RecurringJob(cron, job, now, succeeded).value)
    ensures forall other: Job :: other.id != job.id ==>
      (other in Settled(cron, s, job, owner, now, succeeded).value.jobs <==> other in s.jobs)
  {
    var t, next := Completed(s, job.id, owner), RecurringJob(cron, job, now, succeeded).value;
    RemovedJobs(s.jobs, job.id);
    NotStored(t.jobs, next.id);
    ApplyKeeps(0, s, CompleteJob(job.id, owner));
    ApplyKeeps(0, t, ScheduleJob(next));
    assert (t.jobs + [next])[|t.jobs|] == next;
  }

  /** A fire settled while its lease is held keeps a recurring, authorised job: stored once,
      unleased, the same job but for its next run, whether the run succeeded or failed. */
  lemma FireKeepsRecurring(cron: Cron, s: Store, lease: LeasedJob, now: int, ran: bool)
    requires s.Valid() && Holds(s, lease.job.id, lease.owner) && s.leases[lease.job.id].job == lease.job
    requires lease.job.recurrence.Some?
    ensures var (t, result) := Fired(cron, s, lease, now, true, ran);
      var next := RecurringJob(cron, lease.job, now, ran).value;
      && result == Ok(if ran then CompletedRun else FailedRun)
      && StoredOnce(t, next) && SameJob(next, lease.job)
      && forall other: Job :: other.id != lease.job.id ==> (other in t.jobs <==> other in s.jobs)
  {
    SettledRecurring(cron, s, lease.job, lease.owner, now, ran);
  }

  /** A fire that is not allowed removes its job and its lease if it holds the lease, and runs
      nothing; all other jobs and leases stay. */
  lemma FireRefused(cron: Cron, s: Store, lease: LeasedJob, now: int, ran: bool)
    requires s.Valid() && Holds(s, lease.job.id, lease.owner)
    ensures var (t, result) := Fired(cron, s, lease, now, false, ran);
      && result == Ok(BlockedNoAuthority) && lease.job.id !in t.leases
      && (forall job :: job in t.jobs <==> job in s.jobs && job.id != lease.job.id)
      && forall id :: id != lease.job.id ==>
           (id in t.leases <==> id in s.leases) && (id in s.leases ==> t.leases[id] == s.leases[id])
  {
    RemovedJobs(s.jobs, lease.job.id);
  }

  /** A one-shot job whose lease is held is removed if and only if its run succeeded; after
      a failure it is back, unleased. */
  lemma FireOneShot(cron: Cron, s: Store, lease: LeasedJob, now: int, ran: bool)
    requires s.Valid() && Holds(s, lease.job.id, lease.owner) && s.leases[lease.job.id].job == lease.job
    requires lease.job.recurrence.None?
    ensures var (t, result) := Fired(cron, s, lease, now, true, ran);
      && result == Ok(if ran then CompletedRun else FailedRun)
      && t.Valid() && (Stored(t.jobs, lease.job.id) <==> !ran) && lease.job.id !in t.leases
      && (!ran ==> t.jobs == s.jobs)
  {
    RemovedJobs(s.jobs, lease.job.id);
    NotStored(Removed(s.jobs, lease.job.id), lease.job.id);
    var i :| 0 <= i < |s.jobs| && s.jobs[i] == lease.job;
    ApplyKeeps(0, s, CompleteJob(lease.job.id, lease.owner));
  }

  /** A fire whose lease was lost changes nothing, exactly if it is not authorised, its job
      does not recur, or its job is still stored. Otherwise it puts the removed job back. */
  lemma FireWithoutLease(cron: Cron, s: Store, lease: LeasedJob, now: int, allowed: bool, ran: bool)
    requires !Holds(s, lease.job.id, lease.owner)
    ensures var (t, result) := Fired(cron, s, lease, now, allowed, ran);
      var idle := !allowed || lease.job.recurrence.None? || Stored(s.jobs, lease.job.id);
      && (t == s <==> idle)
      && (!idle ==> t.jobs == s.jobs + [RecurringJob(cron, lease.job, now, ran).value] && t.leases == s.leases)
      && (result.Err? <==> allowed && lease.job.recurrence.Some? && Stored(s.jobs, lease.job.id))
  {
    assert forall next :: |s.jobs + [next]| == |s.jobs| + 1;
  }

  /** Between the completion and the rescheduling of a recurring job other calls may come
      in. Unless one of them schedules the id itself, it stays free for the rescheduling. */
  lemma {:induction false} FreeUntilScheduled(leaseMs: nat, start: Store, events: seq<Event>, id: string, n: nat)
    requires start.Valid() && !Stored(start.jobs, id) && n <= |events|
    requires forall e :: e in events && e.ScheduleJob? ==> e.job.id != id
    ensures !Stored(At(leaseMs, start, events, n).jobs, id) && id !in At(leaseMs, start, events, n).leases
  {
    StoreStaysValid(leaseMs, start, events, n);
    if n > 0 {
      var s, event := At(leaseMs, start, events, n - 1), events[n - 1];
      FreeUntilScheduled(leaseMs, start, events, id, n - 1);
      StoreStaysValid(leaseMs, start, events, n - 1);
      forall job | job in Apply(leaseMs, s, event).jobs ensures job.id != id {
        if event.CompleteJob? {
          RemovedJobs(s.jobs, event.id);
        }
        assert event in events;
        assert job in s.jobs || (event.ScheduleJob? && job == event.job);
        if job in s.jobs {
          var i :| 0 <= i < |s.jobs| && s.jobs[i] == job;
        }
      }
      NotStored(Apply(leaseMs, s, event).jobs, id);
    }
  }
}
