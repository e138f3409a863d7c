/** When a recurring job runs next: a cron slot, or a retry with capped exponential backoff. */
module Recurrence {
  import opened Wrappers

  /** Times and durations in milliseconds. */
  datatype Recurrence = Recurrence(
    cron: string, timeZone: Option<string>, failureBackoff: nat, maximumBackoff: nat, maximumRetryAttempts: nat)

  datatype Job = Job(
    id: string, principal: string, agent: string, requestedCapabilities: seq<string>,
    runAt: int, payload: string, recurrence: Option<Recurrence>, retryAttempt: Option<nat>)
  {
    function Attempt(): nat {
      if retryAttempt.Some? then retryAttempt.value else 0
    }
  }

  /** The next slot of a cron expression, in a time zone, after a moment. */
  type Cron = (string, Option<string>, int) -> int

  function Pow2(n: nat): nat {
    if n == 0 then 1 else 2 * Pow2(n - 1)
  }

  function Delay(r: Recurrence, attempt: nat): nat {
    var backoff := r.failureBackoff * Pow2(attempt);
    if backoff <= r.maximumBackoff then backoff else r.maximumBackoff
  }

  predicate Retries(job: Job, succeeded: bool)
    requires job.recurrence.Some?
  {
    !succeeded && job.Attempt() < job.recurrence.value.maximumRetryAttempts
  }

  function RecurringJob(cron: Cron, job: Job, now: int, succeeded: bool): Option<Job> {
    if job.recurrence.None? then None
    else
      var r := job.recurrence.value;
      var retry := Retries(job, succeeded);
      var runAt := if retry then now + Delay(r, job.Attempt()) else cron(r.cron, r.timeZone, now);
      Some(job.(runAt := runAt, retryAttempt := Some(if retry then job.Attempt() + 1 else 0)))
  }

  /** The delay starts with the backoff of the job and doubles with each attempt, up to the
      cap. */
  lemma DelayDoubles(r: Recurrence, attempt: nat)
    ensures Delay(r, 0) == if r.failureBackoff <= r.maximumBackoff then r.failureBackoff else r.maximumBackoff
    ensures Delay(r, attempt + 1)
         == if 2 * Delay(r, attempt) <= r.maximumBackoff then 2 * Delay(r, attempt) else r.maximumBackoff
  {
    var p := Pow2(attempt);
    assert Pow2(attempt + 1) == 2 * p;
    assert r.failureBackoff * (2 * p) == 2 * (r.failureBackoff * p);
  }

  /** The next run: after a failure with attempts left, a retry after the delay, with one attempt
      more; else the next slot of the cron expression, with the count at 0. A job without
      recurrence has none. */
  lemma NextRun(cron: Cron, job: Job, now: int, succeeded: bool)
    ensures RecurringJob(cron, job, now, succeeded).Some? <==> job.recurrence.Some?
    ensures job.recurrence.Some? ==>
      var r, next := job.recurrence.value, RecurringJob(cron, job, now, succeeded).value;
      var attempt := if job.retryAttempt.Some? then job.retryAttempt.value else 0;
      if !succeeded && attempt < r.maximumRetryAttempts
      then next == job.(runAt := now + Delay(r, attempt), retryAttempt := Some(attempt + 1))
      else next == job.(runAt := cron(r.cron, r.timeZone, now), retryAttempt := Some(0))
  {}

  /** One settled run of the job: when, and with what outcome. */
  datatype Outcome = Outcome(now: int, succeeded: bool)

  /** The job after the first n of its runs have been settled. */
  function After(cron: Cron, job: Job, outcomes: seq<Outcome>, n: nat): Job
    requires n <= |outcomes|
  {
    if n == 0 then job
    else
      var before := After(cron, job, outcomes, n - 1);
      var next := RecurringJob(cron, before, outcomes[n - 1].now, outcomes[n - 1].succeeded);
      if next.Some? then next.value else before
  }

  /** A run changes when the job runs and its attempt count, and nothing else. */
  predicate SameJob(a: Job, b: Job) {
    a == b.(runAt := a.runAt, retryAttempt := a.retryAttempt)
  }

  /** In every run that starts within it, the attempt count stays within the maximum. */
  lemma {:induction false} RetryBounded(cron: Cron, job: Job, outcomes: seq<Outcome>, n: nat)
    requires job.recurrence.Some? && job.Attempt() <= job.recurrence.value.maximumRetryAttempts
    requires n <= |outcomes|
    ensures SameJob(After(cron, job, outcomes, n), job)
    ensures After(cron, job, outcomes, n).Attempt() <= job.recurrence.value.maximumRetryAttempts
  {
    if n > 0 {
      RetryBounded(cron, job, outcomes, n - 1);
    }
  }

  lemma {:induction false} DelayGrows(r: Recurrence, a: nat, b: nat)
    requires a <= b
    ensures Pow2(a) <= Pow2(b)
    ensures Delay(r, a) <= Delay(r, b) <= r.maximumBackoff
    decreases b - a
  {
    if a < b {
      DelayGrows(r, a, b - 1);
      assert r.failureBackoff * Pow2(a) <= r.failureBackoff * Pow2(b);
    }
  }

  /** The k-th run failed and was retried. */
  ghost predicate RetriedAt(cron: Cron, job: Job, outcomes: seq<Outcome>, k: nat)
    requires k < |outcomes|
  {
    && After(cron, job, outcomes, k).recurrence.Some?
    && Retries(After(cron, job, outcomes, k), outcomes[k].succeeded)
  }

  /** The runs from first to first + n were all retried. */
  ghost predicate RetrySeries(cron: Cron, job: Job, outcomes: seq<Outcome>, first: nat, n: nat)
    requires first + n <= |outcomes|
  {
    forall k {:trigger RetriedAt(cron, job, outcomes, k)} :: first <= k < first + n ==>
      RetriedAt(cron, job, outcomes, k)
  }

  /** In a series of retries the attempts count up, so there are at most
      maximumRetryAttempts of them in a row. */
  lemma {:induction false} RetrySeriesBounded(cron: Cron, job: Job, outcomes: seq<Outcome>, first: nat, n: nat)
    requires job.recurrence.Some? && job.Attempt() <= job.recurrence.value.maximumRetryAttempts
    requires first + n <= |outcomes| && RetrySeries(cron, job, outcomes, first, n)
    ensures After(cron, job, outcomes, first + n).Attempt() == After(cron, job, outcomes, first).Attempt() + n
    ensures n <= job.recurrence.value.maximumRetryAttempts
  {
    RetryBounded(cron, job, outcomes, first + n);
    if n > 0 {
      var k := first + n - 1;
      RetrySeriesBounded(cron, job, outcomes, first, n - 1);
      RetryBounded(cron, job, outcomes, k);
      assert RetriedAt(cron, job, outcomes, k);
    }
  }

  lemma OneRetry(cron: Cron, job: Job, outcomes: seq<Outcome>, k: nat)
    requires k < |outcomes| && RetriedAt(cron, job, outcomes, k)
    ensures After(cron, job, outcomes, k + 1).runAt == outcomes[k].now
      + Delay(After(cron, job, outcomes, k).recurrence.value, After(cron, job, outcomes, k).Attempt())
  {}

  /** In a series of retries each run is due after its delay, and the delays never shrink
      and never pass the cap. */
  lemma RetryDelays(cron: Cron, job: Job, outcomes: seq<Outcome>, first: nat, n: nat, j: nat, i: nat)
    requires job.recurrence.Some? && job.Attempt() <= job.recurrence.value.maximumRetryAttempts
    requires first + n <= |outcomes| && RetrySeries(cron, job, outcomes, first, n) && j <= i < n
    ensures After(cron, job, outcomes, first + i + 1).runAt
         == outcomes[first + i].now + Delay(job.recurrence.value, After(cron, job, outcomes, first).Attempt() + i)
    ensures Delay(job.recurrence.value, After(cron, job, outcomes, first).Attempt() + j)
         <= Delay(job.recurrence.value, After(cron, job, outcomes, first).Attempt() + i)
         <= job.recurrence.value.maximumBackoff
  {
    var start := After(cron, job, outcomes, first).Attempt();
    RetrySeriesBounded(cron, job, outcomes, first, i);
    RetryBounded(cron, job, outcomes, first + i);
    assert RetriedAt(cron, job, outcomes, first + i);
    OneRetry(cron, job, outcomes, first + i);
    DelayGrows(job.recurrence.value, start + j, start + i);
  }

  /** Among any maximumRetryAttempts + 1 consecutive runs one is followed by a cron slot,
      with the attempt count back at 0. */
  lemma CronSlotReached(cron: Cron, job: Job, outcomes: seq<Outcome>, first: nat) returns (k: nat)
    requires job.recurrence.Some? && job.Attempt() <= job.recurrence.value.maximumRetryAttempts
    requires first + job.recurrence.value.maximumRetryAttempts < |outcomes|
    ensures first <= k <= first + job.recurrence.value.maximumRetryAttempts
    ensures After(cron, job, outcomes, k + 1).Attempt() == 0
    ensures After(cron, job, outcomes, k + 1).runAt
         == cron(job.recurrence.value.cron, job.recurrence.value.timeZone, outcomes[k].now)
  {
    var n := job.recurrence.value.maximumRetryAttempts + 1;
    if RetrySeries(cron, job, outcomes, first, n) {
      RetrySeriesBounded(cron, job, outcomes, first, n);
      assert false;
    }
    k :| first <= k < first + n && !RetriedAt(cron, job, outcomes, k);
    RetryBounded(cron, job, outcomes, k);
  }
}
