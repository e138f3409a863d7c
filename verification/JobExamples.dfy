/** Runs in which the job controller loses sight of what it runs: a cancel that times out, and
    children that were ended by a signal. */
module JobExamples {
  import opened SerialGates
  import opened JobController
  import opened JobCalls
  import opened JobRuns
  import opened JobLosses
  import opened JobRemoval

  // ---------------------------------------------------------------- states that runs reach

  ghost predicate Reachable(maximumJobs: int, w: World) {
    exists worlds, steps :: IsRun(maximumJobs, worlds, steps) && worlds[|steps|] == w
  }

  lemma StartReached(maximumJobs: int)
    ensures Reachable(maximumJobs, START)
  {
    var worlds, steps: seq<Step> := [START], [];
    assert IsRun(maximumJobs, worlds, steps) && worlds[|steps|] == START;
  }

  lemma NextReached(maximumJobs: int, w: World, step: Step, t: World)
    requires Reachable(maximumJobs, w) && Enabled(w, step) && t == Apply(w, maximumJobs, step)
    ensures Reachable(maximumJobs, t)
  {
    var worlds, steps :| IsRun(maximumJobs, worlds, steps) && worlds[|steps|] == w;
    RunExtends(maximumJobs, worlds, steps, step);
    assert (worlds + [t])[|steps + [step]|] == t;
  }

  lemma RunExtends(maximumJobs: int, worlds: seq<World>, steps: seq<Step>, step: Step)
    requires IsRun(maximumJobs, worlds, steps) && Enabled(worlds[|steps|], step)
    ensures IsRun(maximumJobs, worlds + [Apply(worlds[|steps|], maximumJobs, step)], steps + [step])
  {
    var t := Apply(worlds[|steps|], maximumJobs, step);
    var longer, more := worlds + [t], steps + [step];
    forall n | 0 <= n < |more|
      ensures Enabled(longer[n], more[n]) && longer[n + 1] == Apply(longer[n], maximumJobs, more[n])
    {
      if n < |steps| {
        assert Enabled(worlds[n], steps[n]) && worlds[n + 1] == Apply(worlds[n], maximumJobs, steps[n]);
      }
    }
  }

  function OneJob(job: Job): Registry {
    Registry([job], map["r" := 0], map["t" := 0])
  }

  const NOTHING := Registry([], map[], map[])
  const CHILD := Job("r", "t", false, false, false, false, false)
  const SLICED := CHILD.(stopped := true, paused := true)
  const WAITING := Gate(1, [Waiting(0)])
  const RUNNING := Gate(1, [Running])
  const OVER := Gate(1, [Finished])

  const QUEUED := World(NOTHING, Sync(WAITING, [], [StartQueued("r", 0)]))
  const SPAWNING := World(NOTHING, Sync(RUNNING, [], [Spawning("r", 0)]))
  const SPAWNED := World(Registry([CHILD], map[], map[]), Sync(RUNNING, [NEW_GATE], [Spawned(0, 0)]))
  const REGISTERED := World(OneJob(CHILD), Sync(OVER, [NEW_GATE], [Entering(0)]))
  const ENTERED := World(OneJob(CHILD), Sync(OVER, [WAITING], [Queued(0, 0, StartOp)]))
  const RACING := World(OneJob(CHILD), Sync(OVER, [RUNNING], [Inside(0, 0, Racing)]))
  const PAUSED := World(OneJob(SLICED), Sync(OVER, [OVER], [Done]))

  lemma StartsRun(maximumJobs: int)
    requires maximumJobs > 0
    ensures Reachable(maximumJobs, SPAWNED)
  {
    StartReached(maximumJobs);
    NextReached(maximumJobs, START, NewStart("r"), QUEUED);
    assert NOTHING.Active() == {};
    NextReached(maximumJobs, QUEUED, StartBegins(0, true), SPAWNING);
    NextReached(maximumJobs, SPAWNING, SpawnReturns(0, "t"), SPAWNED);
  }

  lemma OneGate()
    ensures NEW_GATE.Arrived() == WAITING && WAITING.Begun(0) == RUNNING && RUNNING.Ended(0) == OVER
    ensures OVER.Arrived() == CANCEL_GATE && CANCEL_GATE.Begun(1) == Gate(2, [Finished, Running])
  {
    assert [] + [Waiting(0)] == [Waiting(0)] && [Finished] + [Waiting(1)] == [Finished, Waiting(1)];
  }

  lemma OneEntry(job: Job)
    requires job.runId == "r" && job.token == "t"
    ensures Cleanup(OneJob(job), 0) == Registry([job], map[], map[])
    ensures Register(Registry([job], map[], map[]), 0) == OneJob(job)
  {}

  lemma RunEnters(maximumJobs: int)
    requires maximumJobs > 0
    ensures Reachable(maximumJobs, ENTERED)
  {
    StartsRun(maximumJobs);
    OneGate();
    NextReached(maximumJobs, SPAWNED, Registers(0), REGISTERED);
    NextReached(maximumJobs, REGISTERED, Enters(0), ENTERED);
  }

  lemma RunRaces(maximumJobs: int)
    requires maximumJobs > 0
    ensures Reachable(maximumJobs, RACING)
  {
    RunEnters(maximumJobs);
    OneGate();
    NextReached(maximumJobs, ENTERED, GateOpens(0, true, true), RACING);
  }

  lemma RunPauses(maximumJobs: int)
    requires maximumJobs > 0
    ensures Reachable(maximumJobs, PAUSED)
  {
    RunRaces(maximumJobs);
    OneGate();
    NextReached(maximumJobs, RACING, RaceOver(0, true, true), PAUSED);
  }

  const VANISHED_PAUSED := PAUSED.(reg := OneJob(SLICED.(exited := true)))

  /** The slice of a run ends, and its child is then ended by a signal: the paused job cannot
      be removed any more. */
  lemma PausedJobStuck(maximumJobs: int)
    requires maximumJobs > 0
    ensures Reachable(maximumJobs, VANISHED_PAUSED)
    ensures Vanished(VANISHED_PAUSED.reg, 0) && !Removable(VANISHED_PAUSED, 0)
  {
    RunPauses(maximumJobs);
    NextReached(maximumJobs, PAUSED, ChildExits(0, false), VANISHED_PAUSED);
  }

  const VANISHED := CHILD.(exited := true)
  const VANISHED_RACING := RACING.(reg := OneJob(VANISHED))
  const VANISHED_FAILED := World(OneJob(VANISHED), Sync(OVER, [OVER], [Done]))
  const VANISHED_EXPIRED := VANISHED_FAILED.(reg := OneJob(VANISHED.(expired := true)))

  /** A child is ended by a signal as its slice ends, so that stopping it fails and the start
      call with it. Up to its deadline the job, which is not paused, can still be removed by a
      resume; afterwards it cannot. */
  lemma ExpiredJobStuck(maximumJobs: int)
    requires maximumJobs > 0
    ensures Reachable(maximumJobs, VANISHED_FAILED) && Reachable(maximumJobs, VANISHED_EXPIRED)
    ensures Vanished(VANISHED_FAILED.reg, 0) && Removable(VANISHED_FAILED, 0)
    ensures Vanished(VANISHED_EXPIRED.reg, 0) && !Removable(VANISHED_EXPIRED, 0)
  {
    RunRaces(maximumJobs);
    OneGate();
    NextReached(maximumJobs, RACING, ChildExits(0, false), VANISHED_RACING);
    NextReached(maximumJobs, VANISHED_RACING, RaceOver(0, true, false), VANISHED_FAILED);
    NextReached(maximumJobs, VANISHED_FAILED, DeadlinePasses(0), VANISHED_EXPIRED);
  }

  const CANCEL_GATE := Gate(2, [Finished, Waiting(1)])
  const CANCEL_QUEUED := World(OneJob(SLICED), Sync(OVER, [CANCEL_GATE], [Done, Queued(0, 1, CancelOp)]))
  const CANCELLING :=
    World(OneJob(SLICED), Sync(OVER, [Gate(2, [Finished, Running])], [Done, Inside(0, 1, Cancelling)]))
  const UNTRACKED :=
    World(Registry([SLICED], map[], map[]), Sync(OVER, [Gate(2, [Finished, Running])], [Done, Inside(0, 1, Removing)]))

  lemma CancelWaits(maximumJobs: int)
    requires maximumJobs > 0
    ensures Reachable(maximumJobs, CANCELLING)
  {
    RunPauses(maximumJobs);
    OneGate();
    NextReached(maximumJobs, PAUSED, NewCancel("r"), CANCEL_QUEUED);
    NextReached(maximumJobs, CANCEL_QUEUED, GateOpens(1, true, true), CANCELLING);
  }

  /** A run whose cancel times out before the killed child has exited: the child is alive and
      the controller knows nothing of it, for good. */
  lemma UntrackedReached(maximumJobs: int)
    requires maximumJobs > 0
    ensures Reachable(maximumJobs, UNTRACKED) && !UNTRACKED.reg.jobs[0].exited && Lost(UNTRACKED, 0)
  {
    CancelWaits(maximumJobs);
    OneEntry(SLICED);
    NextReached(maximumJobs, CANCELLING, CancelWaitOver(1), UNTRACKED);
  }
}
