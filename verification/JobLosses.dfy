/** Who leaves the indexes of the job controller, over every run: exactly when a live child is
    no longer tracked, and how a run can be blocked for good. */
module JobLosses {
  import opened Wrappers
  import opened JobController
  import opened JobCalls
  import opened JobRuns

  /** The job is in both indexes. */
  predicate Indexed(s: Registry, j: nat)
    requires j < |s.jobs|
  {
    s.jobs[j].runId in s.byRunId && s.byRunId[s.jobs[j].runId] == j && s.Tracked(j)
  }

  /** The job is in neither index. */
  ghost predicate Gone(s: Registry, j: nat)
    requires j < |s.jobs|
  {
    !s.Tracked(j) && forall r :: r in s.byRunId ==> s.byRunId[r] != j
  }

  /** A cancel that gave up waiting for the killed child, or whose child has exited. */
  predicate CancelEnds(w: World, step: Step, j: nat) {
    && step.CancelWaitOver? && step.call < |w.sync.calls|
    && w.sync.calls[step.call].Inside? && w.sync.calls[step.call].job == j
  }

  // ---------------------------------------------------------------- a live job stays

  lemma SectionLeaves(s: Registry, j: nat, k: nat, on: bool)
    requires s.Valid() && j < |s.jobs| && k < |s.jobs| && Indexed(s, j)
    ensures Indexed(Signal(s, k, on), j) && Indexed(ChildExit(s, k, on), j) && Indexed(Expire(s, k), j)
    ensures k != j ==> Indexed(Cleanup(s, k), j)
    ensures s.jobs[k].runId != s.jobs[j].runId ==> Indexed(Register(s, k), j)
  {}

  /** What the opening of a gate can do to the registry. */
  lemma OpenedRegistry(w: World, c: nat, sent: bool, killed: bool)
    requires c < |w.sync.calls| && w.sync.calls[c].Queued? && Known(w, w.sync.calls[c])
    ensures var t, k := Opened(w, c, sent, killed).reg, w.sync.calls[c].job;
      t == w.reg || t == Signal(w.reg, k, true) || t == Signal(w.reg, k, false)
      || (w.reg.jobs[k].coded && t == Cleanup(w.reg, k))
  {}

  lemma OpenedLeaves(w: World, step: Step, j: nat)
    requires w.reg.Valid() && Enabled(w, step) && step.GateOpens?
    requires j < |w.reg.jobs| && !w.reg.jobs[j].exited && Indexed(w.reg, j)
    ensures var t := Opened(w, step.call, step.sent, step.killed).reg;
      j < |t.jobs| && Indexed(t, j)
  {
    var k := w.sync.calls[step.call].job;
    OpenedRegistry(w, step.call, step.sent, step.killed);
    SectionLeaves(w.reg, j, k, true);
    SectionLeaves(w.reg, j, k, false);
  }

  lemma SpawnLeaves(s: Registry, j: nat, runId: string, token: string)
    requires j < |s.jobs| && Indexed(s, j)
    ensures Indexed(Spawn(s, runId, token), j)
  {}

  /** A live job that is in both indexes stays in both, whatever happens, until a cancel of
      that very job stops waiting for it: no cleanup of another job evicts it, and no start
      of the same run replaces it. */
  lemma LiveJobStays(w: World, maximumJobs: int, step: Step, j: nat)
    requires Sane(w, maximumJobs) && Enabled(w, step)
    requires j < |w.reg.jobs| && !w.reg.jobs[j].exited && Indexed(w.reg, j) && !CancelEnds(w, step, j)
    ensures j < |Apply(w, maximumJobs, step).reg.jobs| && Indexed(Apply(w, maximumJobs, step).reg, j)
  {
    match step
    case GateOpens(c, _, _) => OpenedLeaves(w, step, j);
    case Registers(c) =>
      assert CallFine(w.reg, maximumJobs, w.sync.calls[c]) && w.reg.Live(w.reg.jobs[j].runId);
      SectionLeaves(w.reg, j, w.sync.calls[c].job, true);
    case SpawnReturns(c, token) => SpawnLeaves(w.reg, j, w.sync.calls[c].runId, token);
    case ChildExits(k, coded) => SectionLeaves(w.reg, j, k, coded);
    case DeadlinePasses(k) => SectionLeaves(w.reg, j, k, true);
    case KilledChildExited(c) => SectionLeaves(w.reg, j, w.sync.calls[c].job, true);
    case CancelWaitOver(c) => SectionLeaves(w.reg, j, w.sync.calls[c].job, true);
    case RaceOver(c, _, _) => SectionLeaves(w.reg, j, w.sync.calls[c].job, true);
    case ResultRead(c) =>
      assert CallFine(w.reg, maximumJobs, w.sync.calls[c]);
      SectionLeaves(w.reg, j, w.sync.calls[c].job, true);
    case _ =>
  }

  // ---------------------------------------------------------------- a job before its registration

  /** The job was spawned and its start call has yet to register it. */
  ghost predicate AboutToRegister(w: World, j: nat) {
    exists c :: 0 <= c < |w.sync.calls| && IsSpawned(w.sync.calls[c], j)
  }

  predicate IsSpawned(call: Call, j: nat) {
    call.Spawned? && call.job == j
  }

  /** Nobody has come to the job's gate, and nobody is about to. */
  ghost predicate Unvisited(s: Sync, j: nat) {
    && j < |s.gates| && s.gates[j].uses == []
    && forall d :: 0 <= d < |s.calls| && s.calls[d].Entering? ==> s.calls[d].job != j
  }

  /** Until a job is registered nobody knows it. */
  ghost predicate Untouched(w: World, j: nat) {
    j < |w.reg.jobs| && Gone(w.reg, j) && Unvisited(w.sync, j)
  }

  predicate Registering(w: World, step: Step, j: nat) {
    step.Registers? && step.call < |w.sync.calls| && IsSpawned(w.sync.calls[step.call], j)
  }

  lemma GoneSection(s: Registry, j: nat, k: nat, on: bool)
    requires s.Valid() && j < |s.jobs| && k < |s.jobs| && Gone(s, j)
    ensures Gone(Signal(s, k, on), j) && Gone(ChildExit(s, k, on), j) && Gone(Cleanup(s, k), j)
    ensures Gone(Expire(s, k), j)
    ensures k != j ==> Gone(Register(s, k), j)
  {}

  lemma GoneSpawn(s: Registry, j: nat, runId: string, token: string)
    requires s.Valid() && j < |s.jobs| && Gone(s, j)
    ensures Gone(Spawn(s, runId, token), j)
  {}

  lemma GoneStays(w: World, maximumJobs: int, step: Step, j: nat)
    requires Sane(w, maximumJobs) && Enabled(w, step) && j < |w.reg.jobs| && Gone(w.reg, j)
    requires !Registering(w, step, j)
    ensures j < |Apply(w, maximumJobs, step).reg.jobs| && Gone(Apply(w, maximumJobs, step).reg, j)
  {
    match step
    case GateOpens(c, sent, killed) =>
      OpenedRegistry(w, c, sent, killed);
      GoneSection(w.reg, j, w.sync.calls[c].job, true);
      GoneSection(w.reg, j, w.sync.calls[c].job, false);
    case Registers(c) => GoneSection(w.reg, j, w.sync.calls[c].job, true);
    case SpawnReturns(c, token) => GoneSpawn(w.reg, j, w.sync.calls[c].runId, token);
    case ChildExits(k, coded) => GoneSection(w.reg, j, k, coded);
    case DeadlinePasses(k) => GoneSection(w.reg, j, k, true);
    case KilledChildExited(c) => GoneSection(w.reg, j, w.sync.calls[c].job, true);
    case CancelWaitOver(c) => GoneSection(w.reg, j, w.sync.calls[c].job, true);
    case RaceOver(c, _, _) => GoneSection(w.reg, j, w.sync.calls[c].job, true);
    case ResultRead(c) => GoneSection(w.reg, j, w.sync.calls[c].job, true);
    case _ =>
  }

  /** The step touches one call and at most one gate, and the call does not come to a new
      one. */
  ghost predicate TouchesOnly(s: Sync, t: Sync, c: nat, k: nat) {
    && |t.gates| >= |s.gates| && (forall i :: 0 <= i < |s.gates| && i != k ==> t.gates[i] == s.gates[i])
    && c < |t.calls| && |t.calls| <= |s.calls| + 1
    && (forall d :: 0 <= d < |t.calls| && d != c ==> d < |s.calls| && t.calls[d] == s.calls[d])
    && !t.calls[c].Entering? && !t.calls[c].Spawned?
  }

  lemma TouchesOther(s: Sync, t: Sync, c: nat, k: nat, j: nat)
    requires TouchesOnly(s, t, c, k) && Unvisited(s, j) && k != j
    ensures Unvisited(t, j)
  {}

  lemma GateCallTouches(w: World, maximumJobs: int, step: Step)
    requires Enabled(w, step) && step.OfCall()
    requires w.sync.calls[step.call].Queued? || w.sync.calls[step.call].Inside?
    ensures TouchesOnly(w.sync, Apply(w, maximumJobs, step).sync, step.call, w.sync.calls[step.call].job)
  {}

  lemma LookedUpVisits(w: World, found: Option<nat>, operation: Operation, j: nat)
    requires (found.Some? ==> found.value < |w.sync.gates| && found.value != j) && Unvisited(w.sync, j)
    ensures Unvisited(LookedUp(w, found, operation).sync, j)
  {}

  /** A call at the gate of a job is the mark of a visit. */
  lemma CallElsewhere(s: Sync, c: nat, j: nat)
    requires s.Valid() && c < |s.calls| && (s.calls[c].Queued? || s.calls[c].Inside?) && Unvisited(s, j)
    ensures s.calls[c].job != j
  {
    assert s.CallOk(s.calls[c]);
  }

  lemma VisitedByCall(w: World, maximumJobs: int, step: Step, j: nat)
    requires Sane(w, maximumJobs) && Enabled(w, step) && Unvisited(w.sync, j) && step.OfCall()
    requires w.sync.calls[step.call].Queued? || w.sync.calls[step.call].Inside?
    ensures Unvisited(Apply(w, maximumJobs, step).sync, j)
  {
    var c := step.call;
    CallElsewhere(w.sync, c, j);
    GateCallTouches(w, maximumJobs, step);
    TouchesOther(w.sync, Apply(w, maximumJobs, step).sync, c, w.sync.calls[c].job, j);
  }

  lemma VisitedByStart(w: World, maximumJobs: int, step: Step, j: nat)
    requires Sane(w, maximumJobs) && Enabled(w, step) && Unvisited(w.sync, j) && step.OfCall()
    requires !w.sync.calls[step.call].Queued? && !w.sync.calls[step.call].Inside? && !Registering(w, step, j)
    ensures Unvisited(Apply(w, maximumJobs, step).sync, j)
  {}

  lemma VisitedByNew(w: World, maximumJobs: int, step: Step, j: nat)
    requires Sane(w, maximumJobs) && Enabled(w, step) && Untouched(w, j) && !step.OfCall()
    ensures Unvisited(Apply(w, maximumJobs, step).sync, j)
  {
    match step
    case NewPause(r) => LookedUpVisits(w, Find(w.reg.byRunId, r), PauseOp, j);
    case NewResume(t) => LookedUpVisits(w, Find(w.reg.byToken, t), ResumeOp, j);
    case NewCancel(r) => LookedUpVisits(w, Find(w.reg.byRunId, r), CancelOp, j);
    case _ =>
  }

  lemma UntouchedStays(w: World, maximumJobs: int, step: Step, j: nat)
    requires Sane(w, maximumJobs) && Enabled(w, step) && Untouched(w, j) && !Registering(w, step, j)
    ensures Untouched(Apply(w, maximumJobs, step), j)
  {
    GoneStays(w, maximumJobs, step, j);
    if !step.OfCall() {
      VisitedByNew(w, maximumJobs, step, j);
    } else if w.sync.calls[step.call].Queued? || w.sync.calls[step.call].Inside? {
      VisitedByCall(w, maximumJobs, step, j);
    } else {
      VisitedByStart(w, maximumJobs, step, j);
    }
  }

  lemma SpawnUntouched(w: World, maximumJobs: int, step: Step)
    requires Sane(w, maximumJobs) && Enabled(w, step) && step.SpawnReturns?
    ensures Untouched(Apply(w, maximumJobs, step), |w.reg.jobs|)
  {}

  /** Where the Spawned calls of the next state come from: they were there, or the job is
      new. */
  ghost predicate SpawnedFrom(w: World, t: Sync, step: Step) {
    forall c :: 0 <= c < |t.calls| && t.calls[c].Spawned? ==>
      Carried(w, step, c, t.calls[c]) || (step.SpawnReturns? && t.calls[c].job == |w.reg.jobs|)
  }

  predicate Carried(w: World, step: Step, c: nat, call: Call)
    requires call.Spawned?
  {
    c < |w.sync.calls| && call == w.sync.calls[c] && !Registering(w, step, call.job)
  }

  lemma SpawnedOfTouch(w: World, t: Sync, step: Step, c: nat, k: nat)
    requires TouchesOnly(w.sync, t, c, k) && !step.Registers?
    ensures SpawnedFrom(w, t, step)
  {}

  lemma SpawnedRegistered(w: World, maximumJobs: int, step: Step)
    requires Sane(w, maximumJobs) && Enabled(w, step) && step.Registers?
    ensures SpawnedFrom(w, Apply(w, maximumJobs, step).sync, step)
  {
    var t := Apply(w, maximumJobs, step).sync;
    forall c | 0 <= c < |t.calls|
      ensures !t.calls[c].Spawned?
    {
      if c != step.call {
        OneStarting(w.sync, step.call, c);
      }
    }
  }

  lemma SpawnedOfStart(w: World, maximumJobs: int, step: Step)
    requires Enabled(w, step)
    requires step.SpawnReturns? || step.StartBegins? || step.SpawnFails? || step.Enters?
    ensures SpawnedFrom(w, Apply(w, maximumJobs, step).sync, step)
  {
    var t, s := Apply(w, maximumJobs, step).sync, w.sync;
    assert |t.calls| == |s.calls| && forall d :: 0 <= d < |s.calls| && d != step.call ==> t.calls[d] == s.calls[d];
  }

  lemma SpawnedOfNew(w: World, maximumJobs: int, step: Step)
    requires Enabled(w, step) && !step.OfCall()
    ensures SpawnedFrom(w, Apply(w, maximumJobs, step).sync, step)
  {
    var t, s := Apply(w, maximumJobs, step).sync, w.sync;
    assert t.calls == s.calls || (|t.calls| == |s.calls| + 1 && !t.calls[|s.calls|].Spawned?);
    assert forall d :: 0 <= d < |s.calls| ==> t.calls[d] == s.calls[d];
  }

  lemma SpawnedCalls(w: World, maximumJobs: int, step: Step)
    requires Sane(w, maximumJobs) && Enabled(w, step)
    ensures SpawnedFrom(w, Apply(w, maximumJobs, step).sync, step)
  {
    if !step.OfCall() {
      SpawnedOfNew(w, maximumJobs, step);
    } else if step.Registers? {
      SpawnedRegistered(w, maximumJobs, step);
    } else if w.sync.calls[step.call].Queued? || w.sync.calls[step.call].Inside? {
      GateCallTouches(w, maximumJobs, step);
      SpawnedOfTouch(w, Apply(w, maximumJobs, step).sync, step, step.call, w.sync.calls[step.call].job);
    } else {
      SpawnedOfStart(w, maximumJobs, step);
    }
  }

  /** Every job that is about to be registered is untouched. */
  ghost predicate SpawnedFresh(w: World) {
    forall c :: 0 <= c < |w.sync.calls| && w.sync.calls[c].Spawned? ==> Untouched(w, w.sync.calls[c].job)
  }

  lemma FreshCall(w: World, maximumJobs: int, step: Step, c: nat, call: Call)
    requires Sane(w, maximumJobs) && Enabled(w, step) && SpawnedFresh(w) && call.Spawned?
    requires Carried(w, step, c, call) || (step.SpawnReturns? && call.job == |w.reg.jobs|)
    ensures Untouched(Apply(w, maximumJobs, step), call.job)
  {
    if Carried(w, step, c, call) {
      UntouchedStays(w, maximumJobs, step, call.job);
    } else {
      SpawnUntouched(w, maximumJobs, step);
    }
  }

  lemma SpawnedStayFresh(w: World, maximumJobs: int, step: Step)
    requires Sane(w, maximumJobs) && Enabled(w, step) && SpawnedFresh(w)
    ensures SpawnedFresh(Apply(w, maximumJobs, step))
  {
    var t := Apply(w, maximumJobs, step);
    SpawnedCalls(w, maximumJobs, step);
    forall c | 0 <= c < |t.sync.calls| && t.sync.calls[c].Spawned?
      ensures Untouched(t, t.sync.calls[c].job)
    {
      FreshCall(w, maximumJobs, step, c, t.sync.calls[c]);
    }
  }

  lemma {:induction false} RunFresh(maximumJobs: int, worlds: seq<World>, steps: seq<Step>, n: nat)
    requires IsRun(maximumJobs, worlds, steps) && n < |worlds|
    ensures Sane(worlds[n], maximumJobs) && SpawnedFresh(worlds[n])
  {
    RunKeeps(maximumJobs, worlds, steps, n);
    if n > 0 {
      RunFresh(maximumJobs, worlds, steps, n - 1);
      SpawnedStayFresh(worlds[n - 1], maximumJobs, steps[n - 1]);
    }
  }

  // ---------------------------------------------------------------- a lost job stays lost

  /** In no index, and nobody will put it there. */
  ghost predicate Lost(w: World, j: nat) {
    j < |w.reg.jobs| && Gone(w.reg, j) && !AboutToRegister(w, j)
  }

  lemma CancelLoses(w: World, maximumJobs: int, step: Step, j: nat)
    requires Sane(w, maximumJobs) && SpawnedFresh(w) && Enabled(w, step) && CancelEnds(w, step, j)
    ensures Lost(Apply(w, maximumJobs, step), j)
  {
    var t := Apply(w, maximumJobs, step);
    CleanupKeeps(w.reg, j);
    forall c | 0 <= c < |t.sync.calls|
      ensures !IsSpawned(t.sync.calls[c], j)
    {
      if c != step.call && IsSpawned(w.sync.calls[c], j) {
        CallElsewhere(w.sync, step.call, j);
        assert false;
      }
    }
  }

  lemma LostStays(w: World, maximumJobs: int, step: Step, j: nat)
    requires Sane(w, maximumJobs) && Enabled(w, step) && Lost(w, j)
    ensures Lost(Apply(w, maximumJobs, step), j)
  {
    assert !Registering(w, step, j);
    GoneStays(w, maximumJobs, step, j);
    SpawnedCalls(w, maximumJobs, step);
    NotRegistered(w, Apply(w, maximumJobs, step), step, j);
  }

  lemma NotRegistered(w: World, t: World, step: Step, j: nat)
    requires SpawnedFrom(w, t.sync, step) && !AboutToRegister(w, j) && j < |w.reg.jobs|
    ensures !AboutToRegister(t, j)
  {
    forall c | 0 <= c < |t.sync.calls|
      ensures !IsSpawned(t.sync.calls[c], j)
    {
      var call := t.sync.calls[c];
      assert call.Spawned? && Carried(w, step, c, call) ==> IsSpawned(w.sync.calls[c], call.job);
    }
  }

  // ---------------------------------------------------------------- every run

  ghost predicate Abandoned(worlds: seq<World>, steps: seq<Step>, n: nat, j: nat)
    requires n <= |steps| && n < |worlds|
  {
    exists m :: 0 <= m < n && CancelEnds(worlds[m], steps[m], j)
  }

  lemma AbandonedNext(worlds: seq<World>, steps: seq<Step>, n: nat, j: nat)
    requires n < |steps| && n + 1 < |worlds|
    ensures Abandoned(worlds, steps, n + 1, j) <==> Abandoned(worlds, steps, n, j) || CancelEnds(worlds[n], steps[n], j)
  {}

  lemma NewJobIsSpawned(w: World, maximumJobs: int, step: Step, j: nat)
    requires Enabled(w, step) && |w.reg.jobs| <= j < |Apply(w, maximumJobs, step).reg.jobs|
    ensures AboutToRegister(Apply(w, maximumJobs, step), j)
  {
    assert IsSpawned(Apply(w, maximumJobs, step).sync.calls[step.call], j);
  }

  lemma SpawnedCallStays(w: World, maximumJobs: int, step: Step, c: nat)
    requires Enabled(w, step) && c < |w.sync.calls| && w.sync.calls[c].Spawned? && step != Registers(c)
    ensures var t := Apply(w, maximumJobs, step).sync; c < |t.calls| && t.calls[c] == w.sync.calls[c]
  {
    if step.OfCall() {
      assert step.call != c;
    }
  }

  lemma AccountedStep(w: World, maximumJobs: int, step: Step, j: nat)
    requires Sane(w, maximumJobs) && Enabled(w, step) && j < |w.reg.jobs| && !w.reg.jobs[j].exited
    requires !CancelEnds(w, step, j) && (Indexed(w.reg, j) || AboutToRegister(w, j))
    ensures var t := Apply(w, maximumJobs, step);
      j < |t.reg.jobs| && (Indexed(t.reg, j) || AboutToRegister(t, j))
  {
    if Indexed(w.reg, j) {
      LiveJobStays(w, maximumJobs, step, j);
    } else {
      var c :| 0 <= c < |w.sync.calls| && IsSpawned(w.sync.calls[c], j);
      ExitIsForGood(w, maximumJobs, step, j);
      if step == Registers(c) {
        RegisterKeeps(w.reg, j);
      } else {
        SpawnedCallStays(w, maximumJobs, step, c);
      }
    }
  }

  lemma ExitIsForGood(w: World, maximumJobs: int, step: Step, j: nat)
    requires Enabled(w, step) && j < |w.reg.jobs|
    ensures j < |Apply(w, maximumJobs, step).reg.jobs|
    ensures w.reg.jobs[j].exited ==> Apply(w, maximumJobs, step).reg.jobs[j].exited
  {
    if step.GateOpens? {
      OpenedRegistry(w, step.call, step.sent, step.killed);
    }
  }

  lemma {:induction false} LostOnwards(worlds: seq<World>, n: nat, m: nat, j: nat)
    requires n <= m < |worlds| && Lost(worlds[n], j)
    requires forall i :: n <= i < m && Lost(worlds[i], j) ==> Lost(worlds[i + 1], j)
    ensures Lost(worlds[m], j)
    decreases m
  {
    if n < m {
      LostOnwards(worlds, n, m - 1, j);
      assert Lost(worlds[m - 1], j);
    }
  }

  /** In every reachable state, a job that a cancel stopped waiting for is in no index and
      nobody will put it there. */
  lemma AbandonedLost(maximumJobs: int, worlds: seq<World>, steps: seq<Step>, n: nat, j: nat)
    requires IsRun(maximumJobs, worlds, steps) && n < |worlds| && Abandoned(worlds, steps, n, j)
    ensures Lost(worlds[n], j)
  {
    var k :| 0 <= k < n && CancelEnds(worlds[k], steps[k], j);
    LostNext(maximumJobs, worlds, steps, k, j);
    forall i | k + 1 <= i < n && Lost(worlds[i], j)
      ensures Lost(worlds[i + 1], j)
    {
      LostNext(maximumJobs, worlds, steps, i, j);
    }
    LostOnwards(worlds, k + 1, n, j);
  }

  lemma LostNext(maximumJobs: int, worlds: seq<World>, steps: seq<Step>, n: nat, j: nat)
    requires IsRun(maximumJobs, worlds, steps) && n < |steps|
    requires Lost(worlds[n], j) || CancelEnds(worlds[n], steps[n], j)
    ensures Lost(worlds[n + 1], j)
  {
    RunFresh(maximumJobs, worlds, steps, n);
    if Lost(worlds[n], j) {
      LostStays(worlds[n], maximumJobs, steps[n], j);
    } else {
      CancelLoses(worlds[n], maximumJobs, steps[n], j);
    }
  }

  /** A live child is known to the controller exactly as long as no cancel of its job has
      stopped waiting for it: until then it is in both indexes or its start call is about to
      put it there, and from then on it is in neither, for good. */
  lemma {:induction false} LiveChildAccounted(maximumJobs: int, worlds: seq<World>, steps: seq<Step>, n: nat, j: nat)
    requires IsRun(maximumJobs, worlds, steps) && n < |worlds|
    requires j < |worlds[n].reg.jobs| && !worlds[n].reg.jobs[j].exited
    ensures Indexed(worlds[n].reg, j) || AboutToRegister(worlds[n], j) <==> !Abandoned(worlds, steps, n, j)
    ensures Abandoned(worlds, steps, n, j) <==> Lost(worlds[n], j)
  {
    if Abandoned(worlds, steps, n, j) {
      AbandonedLost(maximumJobs, worlds, steps, n, j);
    } else if n > 0 {
      var w, step := worlds[n - 1], steps[n - 1];
      RunKeeps(maximumJobs, worlds, steps, n - 1);
      AbandonedNext(worlds, steps, n - 1, j);
      if j >= |w.reg.jobs| {
        NewJobIsSpawned(w, maximumJobs, step, j);
      } else {
        ExitIsForGood(w, maximumJobs, step, j);
        LiveChildAccounted(maximumJobs, worlds, steps, n - 1, j);
        AccountedStep(w, maximumJobs, step, j);
      }
    }
  }

  /** The bound is on tracked jobs only: when the cancel timeout ends the wait for a child
      that is still alive, the job leaves both indexes and the child lives on. */
  lemma CancelTimeoutUntracks(w: World, maximumJobs: int, c: nat)
    requires Sane(w, maximumJobs) && Enabled(w, CancelWaitOver(c)) && !w.reg.jobs[w.sync.calls[c].job].exited
    ensures var t, j := Apply(w, maximumJobs, CancelWaitOver(c)).reg, w.sync.calls[c].job;
      j < |t.jobs| && !t.jobs[j].exited && Gone(t, j)
  {
    CleanupKeeps(w.reg, w.sync.calls[c].job);
  }
}
