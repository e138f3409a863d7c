/** The leased job store and the settlement of a fired job. */
module Scheduler {
  import opened Wrappers
  import opened Recurrence

  datatype LeasedJob = LeasedJob(job: Job, owner: string, leaseUntil: int)

  /** Jobs in the order they were scheduled, and the lease of each leased job by id. */
  datatype Store = Store(jobs: seq<Job>, leases: map<string, LeasedJob>) {

    /** Ids are distinct, and every lease is for the stored job of its id. */
    ghost predicate Valid() {
      && (forall i, j :: 0 <= i < j < |jobs| ==> jobs[i].id != jobs[j].id)
      && forall id :: id in leases ==> leases[id].job in jobs && leases[id].job.id == id
    }
  }

  // ---------------------------------------------------------------- the operations as functions

  predicate Stored(jobs: seq<Job>, id: string) {
    exists i :: 0 <= i < |jobs| && jobs[i].id == id
  }

  function Removed(jobs: seq<Job>, id: string): seq<Job> {
    if jobs == [] then [] else if jobs[0].id == id then jobs[1..] else [jobs[0]] + Removed(jobs[1..], id)
  }

  function Scheduled(s: Store, job: Job): Result<Store, string> {
    if Stored(s.jobs, job.id) then Err("Duplicate scheduled job " + job.id) else Ok(s.(jobs := s.jobs + [job]))
  }

  /** Due, and not leased to anyone at this moment. */
  predicate Grantable(job: Job, leases: map<string, LeasedJob>, now: int) {
    job.runAt <= now && (job.id in leases ==> leases[job.id].leaseUntil <= now)
  }

  /** The grantable jobs among the first n, in order. */
  function Due(jobs: seq<Job>, leases: map<string, LeasedJob>, now: int, n: nat): seq<Job>
    requires n <= |jobs|
  {
    if n == 0 then []
    else Due(jobs, leases, now, n - 1) + if Grantable(jobs[n - 1], leases, now) then [jobs[n - 1]] else []
  }

  function Take<T>(s: seq<T>, limit: int): seq<T> {
    if limit <= 0 then [] else if limit >= |s| then s else s[..limit]
  }

  function GrantedUpTo(s: Store, now: int, limit: int, n: nat): seq<Job>
    requires n <= |s.jobs|
  {
    Take(Due(s.jobs, s.leases, now, n), limit)
  }

  function GrantedJobs(s: Store, now: int, limit: int): seq<Job> {
    GrantedUpTo(s, now, limit, |s.jobs|)
  }

  function Leases(jobs: seq<Job>, owner: string, until: int): (leased: seq<LeasedJob>)
    ensures |leased| == |jobs|
    ensures forall i :: 0 <= i < |jobs| ==> leased[i] == LeasedJob(jobs[i], owner, until)
  {
    seq(|jobs|, i requires 0 <= i < |jobs| => LeasedJob(jobs[i], owner, until))
  }

  function WithLeases(leases: map<string, LeasedJob>, leased: seq<LeasedJob>): map<string, LeasedJob> {
    if leased == [] then leases
    else
      var last := leased[|leased| - 1];
      WithLeases(leases, leased[..|leased| - 1])[last.job.id := last]
  }

  function Leased(s: Store, leaseMs: nat, now: int, owner: string, limit: int): Store {
    s.(leases := WithLeases(s.leases, Leases(GrantedJobs(s, now, limit), owner, now + leaseMs)))
  }

  predicate Holds(s: Store, id: string, owner: string) {
    id in s.leases && s.leases[id].owner == owner
  }

  function Completed(s: Store, id: string, owner: string): Store {
    if Holds(s, id, owner) then Store(Removed(s.jobs, id), s.leases - {id}) else s
  }

  function Released(s: Store, id: string, owner: string): Store {
    if Holds(s, id, owner) then s.(leases := s.leases - {id}) else s
  }

  /** A failed one-shot job gives its lease back and stays; every other job is completed
      and, if it recurs, scheduled again. */
  function Settled(cron: Cron, s: Store, job: Job, owner: string, now: int, succeeded: bool): Result<Store, string> {
    var next := RecurringJob(cron, job, now, succeeded);
    if !succeeded && next.None? then Ok(Released(s, job.id, owner))
    else if next.None? then Ok(Completed(s, job.id, owner))
    else Scheduled(Completed(s, job.id, owner), next.value)
  }

  datatype RunResult = BlockedNoAuthority | CompletedRun | FailedRun

  lemma {:induction false} DueStored(jobs: seq<Job>, leases: map<string, LeasedJob>, now: int, n: nat)
    requires n <= |jobs|
    ensures forall job :: job in Due(jobs, leases, now, n) <==> job in jobs[..n] && Grantable(job, leases, now)
  {
    if n > 0 {
      DueStored(jobs, leases, now, n - 1);
      assert jobs[..n] == jobs[..n - 1] + [jobs[n - 1]];
    }
  }

  lemma {:induction false} DuePrefix(jobs: seq<Job>, leases: map<string, LeasedJob>, now: int, i: nat, n: nat)
    requires i <= n <= |jobs|
    ensures Due(jobs, leases, now, i) <= Due(jobs, leases, now, n)
    decreases n
  {
    if i < n {
      DuePrefix(jobs, leases, now, i, n - 1);
    }
  }

  /** First come, first served: a job is granted if and only if it is grantable and fewer
      than limit grantable jobs were scheduled before it. */
  lemma GrantedAreFirst(s: Store, now: int, limit: int, i: nat)
    requires s.Valid() && i < |s.jobs|
    ensures s.jobs[i] in GrantedJobs(s, now, limit)
      <==> Grantable(s.jobs[i], s.leases, now) && |Due(s.jobs, s.leases, now, i)| < limit
  {
    var all, before := Due(s.jobs, s.leases, now, |s.jobs|), Due(s.jobs, s.leases, now, i);
    var job := s.jobs[i];
    DueStored(s.jobs, s.leases, now, |s.jobs|);
    DueStored(s.jobs, s.leases, now, i);
    DuePrefix(s.jobs, s.leases, now, i, |s.jobs|);
    DuePrefix(s.jobs, s.leases, now, i + 1, |s.jobs|);
    if Grantable(job, s.leases, now) {
      assert all[|before|] == job;
      if |before| < limit {
        assert Take(all, limit)[|before|] == job;
      } else {
        assert Take(all, limit) == Take(before, limit);
        forall granted | granted in Take(before, limit) ensures granted != job {
          assert granted in before && granted in s.jobs[..i];
        }
      }
    } else {
      assert job !in all;
    }
  }

  lemma {:induction false} LeasesOf(leases: map<string, LeasedJob>, leased: seq<LeasedJob>, id: string)
    ensures (forall l :: l in leased ==> l.job.id != id) ==>
      && (id in WithLeases(leases, leased) <==> id in leases)
      && (id in leases ==> WithLeases(leases, leased)[id] == leases[id])
    ensures (exists l :: l in leased && l.job.id == id) ==>
      && id in WithLeases(leases, leased)
      && WithLeases(leases, leased)[id] in leased && WithLeases(leases, leased)[id].job.id == id
    decreases |leased|
  {
    if leased != [] {
      var init, last := leased[..|leased| - 1], leased[|leased| - 1];
      assert leased == init + [last];
      LeasesOf(leases, init, id);
    }
  }

  /** One turn of the loop: the next job is granted when there is room, it is due, and the
      leases as they are by now do not hold it. */
  lemma GrantStep(s: Store, now: int, limit: int, i: nat, owner: string, until: int)
    requires s.Valid() && i < |s.jobs|
    ensures var granted, job := GrantedUpTo(s, now, limit, i), s.jobs[i];
      var leased := Leases(granted, owner, until);
      var leases := WithLeases(s.leases, leased);
      var room := |granted| < limit && Grantable(job, leases, now);
      && GrantedUpTo(s, now, limit, i + 1) == (if room then granted + [job] else granted)
      && Leases(granted + [job], owner, until) == leased + [LeasedJob(job, owner, until)]
      && WithLeases(s.leases, leased + [LeasedJob(job, owner, until)]) == leases[job.id := LeasedJob(job, owner, until)]
  {
    var granted, job := GrantedUpTo(s, now, limit, i), s.jobs[i];
    var leased := Leases(granted, owner, until);
    DueStored(s.jobs, s.leases, now, i);
    forall l | l in leased ensures l.job.id != job.id {
      assert l.job in granted;
      assert l.job in s.jobs[..i];
    }
    LeasesOf(s.leases, leased, job.id);
    assert (leased + [LeasedJob(job, owner, until)])[..|leased|] == leased;
  }

  /** What the loop has after the first n jobs. */
  predicate LeasedUpTo(s: Store, now: int, limit: int, n: nat, owner: string, until: int, leased: seq<LeasedJob>,
                       leases: map<string, LeasedJob>)
    requires n <= |s.jobs|
  {
    leased == Leases(GrantedUpTo(s, now, limit, n), owner, until) && leases == WithLeases(s.leases, leased)
  }

  lemma LeaseStep(s: Store, now: int, limit: int, i: nat, owner: string, until: int, leased: seq<LeasedJob>,
                  leases: map<string, LeasedJob>)
    requires s.Valid() && i < |s.jobs| && LeasedUpTo(s, now, limit, i, owner, until, leased, leases)
    ensures var job, lease := s.jobs[i], LeasedJob(s.jobs[i], owner, until);
      if |leased| < limit && Grantable(job, leases, now)
      then LeasedUpTo(s, now, limit, i + 1, owner, until, leased + [lease], leases[job.id := lease])
      else LeasedUpTo(s, now, limit, i + 1, owner, until, leased, leases)
  {
    GrantStep(s, now, limit, i, owner, until);
  }

  // ---------------------------------------------------------------- which jobs are leased

  /** The job is due, and nobody holds a lease of it that has not run out. */
  predicate MayLease(s: Store, now: int, i: nat)
    requires i < |s.jobs|
  {
    s.jobs[i].runAt <= now && !(s.jobs[i].id in s.leases && s.leases[s.jobs[i].id].leaseUntil > now)
  }

  ghost function Before(s: Store, now: int, n: nat): (before: set<nat>)
    requires n <= |s.jobs|
    ensures forall k :: k in before <==> 0 <= k < n && MayLease(s, now, k)
  {
    set k: nat | k < n && MayLease(s, now, k)
  }

  lemma {:induction false} DueCount(s: Store, now: int, n: nat)
    requires n <= |s.jobs|
    ensures |Due(s.jobs, s.leases, now, n)| == |Before(s, now, n)|
  {
    if n == 0 {
      assert Before(s, now, 0) == {};
    } else {
      DueCount(s, now, n - 1);
      assert Before(s, now, n) == Before(s, now, n - 1) + if MayLease(s, now, n - 1) then {n - 1} else {};
    }
  }

  /** First come, first served: exactly those jobs are leased that may be, and that fewer than
      limit jobs that may be come before. */
  ghost predicate LeasesFirst(s: Store, now: int, owner: string, limit: int, until: int, leased: seq<LeasedJob>) {
    && (forall i :: 0 <= i < |s.jobs| ==>
          (LeasedJob(s.jobs[i], owner, until) in leased <==> MayLease(s, now, i) && |Before(s, now, i)| < limit))
    && forall lease :: lease in leased ==> exists i :: 0 <= i < |s.jobs| && lease == LeasedJob(s.jobs[i], owner, until)
  }

  lemma LeasesAreFirst(s: Store, now: int, owner: string, limit: int, until: int, leased: seq<LeasedJob>)
    requires s.Valid() && leased == Leases(GrantedJobs(s, now, limit), owner, until)
    ensures LeasesFirst(s, now, owner, limit, until, leased)
  {
    var granted := GrantedJobs(s, now, limit);
    forall i | 0 <= i < |s.jobs|
      ensures LeasedJob(s.jobs[i], owner, until) in leased <==> MayLease(s, now, i) && |Before(s, now, i)| < limit
    {
      GrantedAreFirst(s, now, limit, i);
      DueCount(s, now, i);
      LeaseOfGranted(granted, owner, until, s.jobs[i]);
    }
    DueStored(s.jobs, s.leases, now, |s.jobs|);
    assert s.jobs[..|s.jobs|] == s.jobs;
    forall lease | lease in leased
      ensures exists i :: 0 <= i < |s.jobs| && lease == LeasedJob(s.jobs[i], owner, until)
    {
      LeaseOfGranted(granted, owner, until, lease.job);
      assert lease.job in Due(s.jobs, s.leases, now, |s.jobs|);
    }
  }

  lemma LeaseOfGranted(granted: seq<Job>, owner: string, until: int, job: Job)
    ensures LeasedJob(job, owner, until) in Leases(granted, owner, until) <==> job in granted
    ensures forall lease :: lease in Leases(granted, owner, until) ==> lease == LeasedJob(lease.job, owner, until)
  {
    if job in granted {
      var i :| 0 <= i < |granted| && granted[i] == job;
      assert Leases(granted, owner, until)[i] == LeasedJob(job, owner, until);
    }
  }

  /** The leases afterwards: those that were granted, and for all other ids as before. */
  ghost predicate LeasesAdded(before: map<string, LeasedJob>, leased: seq<LeasedJob>, after: map<string, LeasedJob>) {
    && (forall lease :: lease in leased ==> lease.job.id in after && after[lease.job.id] in leased)
    && forall id :: (forall lease :: lease in leased ==> lease.job.id != id) ==>
         (id in after <==> id in before) && (id in before ==> after[id] == before[id])
  }

  lemma WithLeasesAdds(leases: map<string, LeasedJob>, leased: seq<LeasedJob>)
    ensures LeasesAdded(leases, leased, WithLeases(leases, leased))
  {
    forall lease | lease in leased
      ensures lease.job.id in WithLeases(leases, leased) && WithLeases(leases, leased)[lease.job.id] in leased
    {
      LeasesOf(leases, leased, lease.job.id);
    }
    forall id | forall lease :: lease in leased ==> lease.job.id != id
      ensures id in WithLeases(leases, leased) <==> id in leases
      ensures id in leases ==> WithLeases(leases, leased)[id] == leases[id]
    {
      LeasesOf(leases, leased, id);
    }
  }

  // ---------------------------------------------------------------- the store

  class InMemoryScheduledJobStore {
    const leaseMilliseconds: nat
    var jobs: seq<Job>
    var leases: map<string, LeasedJob>

    ghost function State(): Store
      reads this
    {
      Store(jobs, leases)
    }

    constructor (leaseMilliseconds: nat := 60_000)
      ensures State() == Store([], map[]) && this.leaseMilliseconds == leaseMilliseconds
    {
      this.leaseMilliseconds := leaseMilliseconds;
      jobs, leases := [], map[];
    }

    method Schedule(job: Job) returns (error: Option<string>)
      modifies this
      ensures match Scheduled(old(State()), job)
        case Ok(s) => error == None && State() == s
        case Err(e) => error == Some(e) && State() == old(State())
    {
      if Stored(jobs, job.id) {
        return Some("Duplicate scheduled job " + job.id);
      }
      jobs := jobs + [job];
      error := None;
    }

    /** Grants the first due unleased jobs, up to the limit, for one lease period. */
    method LeaseDue(now: int, owner: string, limit: int) returns (leased: seq<LeasedJob>)
      requires State().Valid()
      modifies this
      ensures State() == Leased(old(State()), leaseMilliseconds, now, owner, limit)
      ensures leased == Leases(GrantedJobs(old(State()), now, limit), owner, now + leaseMilliseconds)
      ensures LeasesFirst(old(State()), now, owner, limit, now + leaseMilliseconds, leased)
      ensures jobs == old(jobs) && LeasesAdded(old(leases), leased, leases)
    {
      leased := [];
      ghost var s := State();
      ghost var until := now + leaseMilliseconds;
      for i := 0 to |jobs|
        invariant jobs == s.jobs
        invariant LeasedUpTo(s, now, limit, i, owner, until, leased, leases)
      {
        var job := jobs[i];
        LeaseStep(s, now, limit, i, owner, until, leased, leases);
        if |leased| >= limit || job.runAt > now {
          continue;
        }
        if job.id in leases && leases[job.id].leaseUntil > now {
          continue;
        }
        var lease := LeasedJob(job, owner, now + leaseMilliseconds);
        leases := leases[job.id := lease];
        leased := leased + [lease];
      }
      assert State() == Leased(s, leaseMilliseconds, now, owner, limit);
      assert leased == Leases(GrantedJobs(s, now, limit), owner, until);
      LeasesAreFirst(s, now, owner, limit, until, leased);
      WithLeasesAdds(s.leases, leased);
    }

    method Complete(id: string, owner: string)
      modifies this
      ensures State() == Completed(old(State()), id, owner)
    {
      if id !in leases || leases[id].owner != owner {
        return;
      }
      leases := leases - {id};
      jobs := Removed(jobs, id);
    }

    method Release(id: string, owner: string)
      modifies this
      ensures State() == Released(old(State()), id, owner)
    {
      if id in leases && leases[id].owner == owner {
        leases := leases - {id};
      }
    }
  }

  method SettleScheduledJob(store: InMemoryScheduledJobStore, cron: Cron, job: Job, owner: string, now: int,
                            succeeded: bool)
    returns (error: Option<string>)
    modifies store
    ensures match Settled(cron, old(store.State()), job, owner, now, succeeded)
      case Ok(s) => error == None && store.State() == s
      case Err(e) => error == Some(e) && store.State() == Completed(old(store.State()), job.id, owner)
  {
    var next := RecurringJob(cron, job, now, succeeded);
    if !succeeded && next.None? {
      store.Release(job.id, owner);
      return None;
    }
    store.Complete(job.id, owner);
    error := None;
    if next.Some? {
      error := store.Schedule(next.value);
    }
  }

  /** The store after a fired job is settled, and the outcome: a settlement that throws
      after a successful run is settled again as a failure. */
  function Fired(cron: Cron, s: Store, lease: LeasedJob, now: int, allowed: bool, ran: bool)
    : (Store, Result<RunResult, string>)
  {
    var id, owner := lease.job.id, lease.owner;
    if !allowed then (Completed(s, id, owner), Ok(BlockedNoAuthority))
    else
      var first := Settled(cron, s, lease.job, owner, now, true);
      if ran && first.Ok? then (first.value, Ok(CompletedRun))
      else
        var t := if ran then Completed(s, id, owner) else s;
        var second := Settled(cron, t, lease.job, owner, now, false);
        if second.Ok? then (second.value, Ok(FailedRun)) else (Completed(t, id, owner), Err(second.error))
  }

  method Fire(store: InMemoryScheduledJobStore, cron: Cron, lease: LeasedJob, now: int, allowed: bool, ran: bool)
    returns (result: Result<RunResult, string>)
    modifies store
    ensures (store.State(), result) == Fired(cron, old(store.State()), lease, now, allowed, ran)
  {
    if !allowed {
      store.Complete(lease.job.id, lease.owner);
      return Ok(BlockedNoAuthority);
    }
    var error: Option<string>;
    if ran {
      error := SettleScheduledJob(store, cron, lease.job, lease.owner, now, true);
      if error == None {
        return Ok(CompletedRun);
      }
    }
    error := SettleScheduledJob(store, cron, lease.job, lease.owner, now, false);
    result := if error == None then Ok(FailedRun) else Err(error.value);
  }
}
