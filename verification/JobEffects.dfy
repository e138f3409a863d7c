/** What the steps of the job controller do to a job, over every run and in terms of the jobs and
    indexes alone: when it is stopped and continued, when it enters and leaves the indexes, when a
    run is admitted, and what a call that opens a gate goes on to wait for. */
module JobEffects {
  import opened JobController
  import opened JobCalls
  import opened JobRuns

  /** The step opens the gate of the job for a call of this operation. */
  predicate Opens(w: World, step: Step, j: nat, operation: Operation) {
    && step.GateOpens? && step.call < |w.sync.calls| && w.sync.calls[step.call].Queued?
    && w.sync.calls[step.call].job == j && w.sync.calls[step.call].operation == operation
  }

  /** The slice of a call that waits for the job's child ends. */
  predicate SliceEnds(w: World, step: Step, j: nat) {
    && step.RaceOver? && step.slice && step.call < |w.sync.calls| && w.sync.calls[step.call].Inside?
    && w.sync.calls[step.call].job == j
  }

  // ---------------------------------------------------------------- stopped and continued

  /** In every reachable state: a job comes under SIGSTOP exactly when a pause of it opens its gate
      or its slice ends, it has no exit code and the signal is sent; it is continued exactly when
      a resume of it opens its gate, it has no exit code and the signal is sent; and it is marked
      paused exactly while it is stopped. */
  lemma StoppedExactly(maximumJobs: int, worlds: seq<World>, steps: seq<Step>, n: nat, j: nat)
    requires IsRun(maximumJobs, worlds, steps) && n < |steps| && j < |worlds[n].reg.jobs|
    ensures j < |worlds[n + 1].reg.jobs|
    ensures var w, step, before, after := worlds[n], steps[n], worlds[n].reg.jobs[j], worlds[n + 1].reg.jobs[j];
      && (!before.stopped && after.stopped <==>
          && !before.stopped && !before.coded
          && ((Opens(w, step, j, PauseOp) || SliceEnds(w, step, j)) && step.sent))
      && (before.stopped && !after.stopped <==>
          before.stopped && !before.coded && Opens(w, step, j, ResumeOp) && step.sent)
      && after.paused == after.stopped
  {
    RunKeeps(maximumJobs, worlds, steps, n);
    RunKeeps(maximumJobs, worlds, steps, n + 1);
    StopStep(worlds[n], maximumJobs, steps[n], j);
  }

  lemma StopStep(w: World, maximumJobs: int, step: Step, j: nat)
    requires Sane(w, maximumJobs) && Enabled(w, step) && j < |w.reg.jobs|
    ensures j < |Apply(w, maximumJobs, step).reg.jobs|
    ensures var before, after := w.reg.jobs[j], Apply(w, maximumJobs, step).reg.jobs[j];
      && (!before.stopped && after.stopped <==>
          && !before.stopped && !before.coded
          && ((Opens(w, step, j, PauseOp) || SliceEnds(w, step, j)) && step.sent))
      && (before.stopped && !after.stopped <==>
          before.stopped && !before.coded && Opens(w, step, j, ResumeOp) && step.sent)
  {
    if step.GateOpens? {
      StopOpened(w, step.call, step.sent, step.killed, j);
    }
  }

  lemma StopOpened(w: World, c: nat, sent: bool, killed: bool, j: nat)
    requires w.reg.Valid() && Enabled(w, GateOpens(c, sent, killed)) && j < |w.reg.jobs|
    ensures j < |Opened(w, c, sent, killed).reg.jobs|
    ensures var before, after := w.reg.jobs[j], Opened(w, c, sent, killed).reg.jobs[j];
      var own, operation := w.sync.calls[c].job == j && sent && !before.coded, w.sync.calls[c].operation;
      && (!before.stopped && after.stopped <==> !before.stopped && own && operation.PauseOp?)
      && (before.stopped && !after.stopped <==> before.stopped && own && operation.ResumeOp?)
  {}

  // ---------------------------------------------------------------- in and out of the indexes

  /** The token of the job leads to it. */
  predicate TokenLeads(s: Registry, j: nat) {
    j < |s.jobs| && s.jobs[j].token in s.byToken && s.byToken[s.jobs[j].token] == j
  }

  predicate RunLeads(s: Registry, j: nat) {
    j < |s.jobs| && s.jobs[j].runId in s.byRunId && s.byRunId[s.jobs[j].runId] == j
  }

  /** The job is cleaned up: its killed child has exited, a cancel has waited long enough, its
      result was read, or a call finds at its gate that the child has exited with a code and it
      is a cancel or the deadline has passed. */
  predicate CleansUp(w: World, step: Step, j: nat) {
    || ((step.KilledChildExited? || step.CancelWaitOver? || step.ResultRead?)
        && step.call < |w.sync.calls| && w.sync.calls[step.call].Inside? && w.sync.calls[step.call].job == j)
    || (j < |w.reg.jobs| && w.reg.jobs[j].coded
        && (Opens(w, step, j, CancelOp)
            || (w.reg.jobs[j].expired && (Opens(w, step, j, StartOp) || Opens(w, step, j, ResumeOp)))))
  }

  predicate RegistersJob(w: World, step: Step, j: nat) {
    step.Registers? && step.call < |w.sync.calls| && w.sync.calls[step.call].Spawned?
    && w.sync.calls[step.call].job == j
  }

  /** Another job of the same run is registered in its place. */
  predicate Replaces(w: World, step: Step, j: nat)
    requires j < |w.reg.jobs|
  {
    && step.Registers? && step.call < |w.sync.calls| && w.sync.calls[step.call].Spawned?
    && w.sync.calls[step.call].job != j && w.sync.calls[step.call].job < |w.reg.jobs|
    && w.reg.jobs[w.sync.calls[step.call].job].runId == w.reg.jobs[j].runId
  }

  /** In every reachable state: the token leads to a job after the step exactly if the step
      registers the job, or it did before and the step does not clean the job up; and the same
      of its run, but that a registered job also replaces the one before. */
  lemma IndexedExactly(maximumJobs: int, worlds: seq<World>, steps: seq<Step>, n: nat, j: nat)
    requires IsRun(maximumJobs, worlds, steps) && n < |steps| && j < |worlds[n].reg.jobs|
    ensures var w, step, t := worlds[n], steps[n], worlds[n + 1];
      && (TokenLeads(t.reg, j) <==> RegistersJob(w, step, j) || (TokenLeads(w.reg, j) && !CleansUp(w, step, j)))
      && (RunLeads(t.reg, j) <==>
          RegistersJob(w, step, j) || (RunLeads(w.reg, j) && !CleansUp(w, step, j) && !Replaces(w, step, j)))
  {
    RunKeeps(maximumJobs, worlds, steps, n);
    if steps[n].GateOpens? {
      IndexOpened(worlds[n], steps[n], j);
    } else {
      IndexStep(worlds[n], maximumJobs, steps[n], j);
    }
  }

  /** What the sections do to the indexes. */
  lemma IndexSection(s: Registry, j: nat, k: nat, on: bool)
    requires s.Valid() && j < |s.jobs| && k < |s.jobs|
    ensures TokenLeads(Signal(s, k, on), j) == TokenLeads(s, j) == TokenLeads(ChildExit(s, k, on), j)
    ensures RunLeads(Signal(s, k, on), j) == RunLeads(s, j) == RunLeads(ChildExit(s, k, on), j)
    ensures TokenLeads(Expire(s, k), j) == TokenLeads(s, j) && RunLeads(Expire(s, k), j) == RunLeads(s, j)
  {}

  lemma IndexCleanup(s: Registry, j: nat, k: nat)
    requires s.Valid() && j < |s.jobs| && k < |s.jobs|
    ensures TokenLeads(Cleanup(s, k), j) <==> TokenLeads(s, j) && j != k
    ensures RunLeads(Cleanup(s, k), j) <==> RunLeads(s, j) && j != k
  {}

  lemma IndexRegister(s: Registry, j: nat, k: nat)
    requires s.Valid() && j < |s.jobs| && k < |s.jobs|
    ensures TokenLeads(Register(s, k), j) <==> j == k || TokenLeads(s, j)
    ensures RunLeads(Register(s, k), j) <==> j == k || (RunLeads(s, j) && s.jobs[k].runId != s.jobs[j].runId)
  {}

  ghost predicate IndexedSo(w: World, t: Registry, step: Step, j: nat)
    requires j < |w.reg.jobs|
  {
    && (TokenLeads(t, j) <==> RegistersJob(w, step, j) || (TokenLeads(w.reg, j) && !CleansUp(w, step, j)))
    && (RunLeads(t, j) <==>
        RegistersJob(w, step, j) || (RunLeads(w.reg, j) && !CleansUp(w, step, j) && !Replaces(w, step, j)))
  }

  lemma IndexInside(w: World, maximumJobs: int, step: Step, j: nat)
    requires Sane(w, maximumJobs) && Enabled(w, step) && j < |w.reg.jobs|
    requires step.KilledChildExited? || step.CancelWaitOver? || step.ResultRead?
    ensures IndexedSo(w, Apply(w, maximumJobs, step).reg, step, j)
  {
    IndexCleanup(w.reg, j, w.sync.calls[step.call].job);
  }

  lemma IndexRace(w: World, maximumJobs: int, step: Step, j: nat)
    requires Sane(w, maximumJobs) && Enabled(w, step) && j < |w.reg.jobs| && (step.RaceOver? || step.Removed?)
    ensures IndexedSo(w, Apply(w, maximumJobs, step).reg, step, j)
  {
    IndexSection(w.reg, j, w.sync.calls[step.call].job, true);
  }

  lemma IndexStep(w: World, maximumJobs: int, step: Step, j: nat)
    requires Sane(w, maximumJobs) && Enabled(w, step) && !step.GateOpens? && j < |w.reg.jobs|
    ensures IndexedSo(w, Apply(w, maximumJobs, step).reg, step, j)
  {
    if step.KilledChildExited? || step.CancelWaitOver? || step.ResultRead? {
      IndexInside(w, maximumJobs, step, j);
    } else if step.RaceOver? || step.Removed? {
      IndexRace(w, maximumJobs, step, j);
    } else {
      match step
      case Registers(c) => IndexRegister(w.reg, j, w.sync.calls[c].job);
      case ChildExits(k, coded) => IndexSection(w.reg, j, k, coded);
      case DeadlinePasses(k) => IndexSection(w.reg, j, k, true);
      case _ =>
    }
  }

  /** What the opening of a gate does to the registry. */
  lemma OpenedCleans(w: World, step: Step)
    requires Enabled(w, step) && step.GateOpens?
    ensures var k, t := w.sync.calls[step.call].job, Opened(w, step.call, step.sent, step.killed).reg;
      && (CleansUp(w, step, k) ==> t == Cleanup(w.reg, k))
      && (!CleansUp(w, step, k) ==> t == w.reg || t == Signal(w.reg, k, true) || t == Signal(w.reg, k, false))
      && forall j :: j != k ==> !CleansUp(w, step, j)
  {}

  lemma IndexOpened(w: World, step: Step, j: nat)
    requires w.reg.Valid() && Enabled(w, step) && step.GateOpens? && j < |w.reg.jobs|
    ensures IndexedSo(w, Opened(w, step.call, step.sent, step.killed).reg, step, j)
  {
    var k := w.sync.calls[step.call].job;
    OpenedCleans(w, step);
    IndexCleanup(w.reg, j, k);
    IndexSection(w.reg, j, k, true);
    IndexSection(w.reg, j, k, false);
  }

  // ---------------------------------------------------------------- admission and spawning

  /** The indexed runs whose job has no exit code. */
  function Occupied(s: Registry): set<string> {
    set r | r in s.byRunId && s.byRunId[r] < |s.jobs| && !s.jobs[s.byRunId[r]].coded
  }

  /** In every reachable state: a start goes on to spawn exactly if its request decodes, its run
      has no job without exit code, and fewer than maximumJobs runs have one; and a job is new
      exactly if a spawn returns, with the run of its start and a new token, running and alive. */
  lemma AdmittedExactly(maximumJobs: int, worlds: seq<World>, steps: seq<Step>, n: nat)
    requires IsRun(maximumJobs, worlds, steps) && n < |steps|
    ensures var w, step, t := worlds[n], steps[n], worlds[n + 1];
      && (step.StartBegins? ==>
          && step.call < |w.sync.calls| == |t.sync.calls| && w.sync.calls[step.call].StartQueued?
          && var call, r := t.sync.calls[step.call], w.sync.calls[step.call].runId;
          && (call.Spawning? <==> step.decodes && r !in Occupied(w.reg) && |Occupied(w.reg)| < maximumJobs)
          && (call.Spawning? ==> call.runId == r) && (!call.Spawning? ==> call.Done?))
      && (|t.reg.jobs| > |w.reg.jobs| <==> step.SpawnReturns?)
      && (step.SpawnReturns? ==>
          && step.call < |w.sync.calls| && w.sync.calls[step.call].Spawning?
          && t.reg.jobs == w.reg.jobs
             + [Job(w.sync.calls[step.call].runId, step.token, false, false, false, false, false)])
  {
    var w, step := worlds[n], steps[n];
    assert Occupied(w.reg) == w.reg.Active();
    if step.StartBegins? {
      BeginsExactly(w, maximumJobs, step.call, step.decodes);
    }
    NewJobExactly(w, maximumJobs, step);
  }

  lemma BeginsExactly(w: World, maximumJobs: int, c: nat, decodes: bool)
    requires Enabled(w, StartBegins(c, decodes)) && Occupied(w.reg) == w.reg.Active()
    ensures var t, r := Apply(w, maximumJobs, StartBegins(c, decodes)), w.sync.calls[c].runId;
      && |t.sync.calls| == |w.sync.calls| && var call := t.sync.calls[c];
      && (call.Spawning? <==> decodes && r !in Occupied(w.reg) && |Occupied(w.reg)| < maximumJobs)
      && (call.Spawning? ==> call.runId == r) && (!call.Spawning? ==> call.Done?)
  {
    var r := w.sync.calls[c].runId;
    assert w.reg.Live(r) <==> r in w.reg.Active();
  }

  lemma NewJobExactly(w: World, maximumJobs: int, step: Step)
    requires Enabled(w, step)
    ensures var t := Apply(w, maximumJobs, step);
      && (|t.reg.jobs| > |w.reg.jobs| <==> step.SpawnReturns?)
      && (step.SpawnReturns? ==>
          && t.reg.jobs == w.reg.jobs
             + [Job(w.sync.calls[step.call].runId, step.token, false, false, false, false, false)])
  {}

  // ---------------------------------------------------------------- looking up and waiting

  /** pause and cancel queue at the job that the run leads to, resume at the job that the token
      leads to; without one nothing is queued. */
  lemma LooksUpExactly(maximumJobs: int, w: World, step: Step)
    requires Enabled(w, step) && (step.NewPause? || step.NewResume? || step.NewCancel?)
    ensures var t, c := Apply(w, maximumJobs, step), |w.sync.calls|;
      && |t.sync.calls| == c + 1 && t.reg == w.reg
      && match step
         case NewPause(r) =>
           if r in w.reg.byRunId then IsQueued(t.sync.calls[c], w.reg.byRunId[r], PauseOp) else t.sync.calls[c].Done?
         case NewCancel(r) =>
           if r in w.reg.byRunId then IsQueued(t.sync.calls[c], w.reg.byRunId[r], CancelOp) else t.sync.calls[c].Done?
         case NewResume(k) =>
           if k in w.reg.byToken then IsQueued(t.sync.calls[c], w.reg.byToken[k], ResumeOp) else t.sync.calls[c].Done?
  {}

  predicate IsQueued(call: Call, j: nat, operation: Operation) {
    call.Queued? && call.job == j && call.operation == operation
  }

  /** A call that waits for the child and the result, that is: a start, or a resume that could
      continue the job. */
  predicate Continues(w: World, step: Step, j: nat) {
    && j < |w.reg.jobs|
    && (Opens(w, step, j, StartOp)
        || (Opens(w, step, j, ResumeOp) && (w.reg.jobs[j].coded || !w.reg.jobs[j].paused || step.sent)))
  }

  /** What a call goes on to wait for when its gate opens: the child or the slice, if it continues
      the job and the deadline has not passed; the child killed for its deadline, or for a
      cancel, if it has no exit code and could be killed; the removal of the directory, if it has
      one; else it is over. */
  lemma WaitsExactly(maximumJobs: int, w: World, step: Step, j: nat)
    requires w.reg.Valid() && Enabled(w, step) && step.GateOpens? && w.sync.calls[step.call].job == j
    ensures var t, job := Apply(w, maximumJobs, step), w.reg.jobs[j];
      && step.call < |t.sync.calls| && var call := t.sync.calls[step.call];
      && (call == Inside(j, w.sync.calls[step.call].ticket, Racing) <==> Continues(w, step, j) && !job.expired)
      && (call == Inside(j, w.sync.calls[step.call].ticket, Killing)
          <==> Continues(w, step, j) && job.expired && !job.coded && step.killed)
      && (call == Inside(j, w.sync.calls[step.call].ticket, Cancelling)
          <==> Opens(w, step, j, CancelOp) && !job.coded && step.killed)
      && (call == Inside(j, w.sync.calls[step.call].ticket, Removing) <==> CleansUp(w, step, j))
      && (call.Inside? || call.Done?)
  {}

  /** When the race is over: the call reads the result unless the slice has ended for a job
      without exit code; then it is over. */
  lemma RaceExactly(maximumJobs: int, w: World, step: Step, j: nat)
    requires Enabled(w, step) && step.RaceOver? && w.sync.calls[step.call].job == j
    ensures var t := Apply(w, maximumJobs, step);
      && step.call < |t.sync.calls| && var call := t.sync.calls[step.call];
      && (call == Inside(j, w.sync.calls[step.call].ticket, Reading) <==> !step.slice || w.reg.jobs[j].coded)
      && (call.Done? <==> step.slice && !w.reg.jobs[j].coded)
  {}
}
