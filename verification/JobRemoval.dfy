/** Jobs whose child was ended by a signal and so has no exit code: when such a job can still be
    removed although its process group takes no signal any more, exactly, in every reachable
    state. */
module JobRemoval {
  import opened Wrappers
  import opened SerialGates
  import opened JobController
  import opened JobCalls
  import opened JobRuns
  import opened JobLosses

  // ---------------------------------------------------------------- every place has its call

  ghost predicate HasOwner(s: Sync, j: nat, t: nat) {
    exists c :: 0 <= c < |s.calls| && s.calls[c].GatePlace() == Some((j, t))
  }

  predicate Open(s: Sync, j: nat, t: nat) {
    j < |s.gates| && t < |s.gates[j].uses| && s.gates[j].uses[t] != Finished
  }

  /** Every use of a gate that is not over belongs to a call. */
  ghost predicate Owned(s: Sync) {
    forall j: nat, t: nat :: Open(s, j, t) ==> HasOwner(s, j, t)
  }

  /** The step moves one call: what is open afterwards is the call's new place, or was open
      and not its old place. */
  ghost predicate MovesOne(s: Sync, t: Sync, c: nat) {
    && c < |t.calls| && |s.calls| <= |t.calls|
    && (forall d :: 0 <= d < |s.calls| && d != c ==> t.calls[d] == s.calls[d])
    && forall j: nat, u: nat :: Open(t, j, u) ==>
         || t.calls[c].GatePlace() == Some((j, u))
         || (Open(s, j, u) && (c < |s.calls| ==> s.calls[c].GatePlace() != Some((j, u))))
  }

  lemma OwnedMoves(s: Sync, t: Sync, c: nat)
    requires Owned(s) && MovesOne(s, t, c)
    ensures Owned(t)
  {
    forall j: nat, u: nat | Open(t, j, u)
      ensures HasOwner(t, j, u)
    {
      if t.calls[c].GatePlace() != Some((j, u)) {
        var d :| 0 <= d < |s.calls| && s.calls[d].GatePlace() == Some((j, u));
        assert t.calls[d].GatePlace() == Some((j, u));
      }
    }
  }

  lemma NewMovesOne(w: World, maximumJobs: int, step: Step)
    requires Enabled(w, step) && !step.OfCall() && !step.ChildExits? && !step.DeadlinePasses?
    ensures MovesOne(w.sync, Apply(w, maximumJobs, step).sync, |w.sync.calls|)
  {}

  /** What the opening of a gate can do to the calls and gates. */
  lemma OpenedSync(w: World, c: nat, sent: bool, killed: bool)
    requires c < |w.sync.calls| && w.sync.calls[c].Queued? && Known(w, w.sync.calls[c])
    ensures var t := Opened(w, c, sent, killed).sync;
      t == Passed(w.sync, c) || exists wait :: t == BeginUse(w.sync, c, wait)
  {}

  lemma BegunMovesOne(s: Sync, c: nat, wait: Wait)
    requires c < |s.calls| && s.calls[c].Queued?
    requires s.calls[c].job < |s.gates| && s.calls[c].ticket < |s.gates[s.calls[c].job].uses|
    ensures MovesOne(s, BeginUse(s, c, wait), c) && MovesOne(s, Passed(s, c), c)
  {}

  lemma GateMovesOne(w: World, maximumJobs: int, step: Step)
    requires Enabled(w, step) && step.OfCall()
    requires w.sync.calls[step.call].Queued? || w.sync.calls[step.call].Inside?
    ensures MovesOne(w.sync, Apply(w, maximumJobs, step).sync, step.call)
  {
    if step.GateOpens? {
      OpenedSync(w, step.call, step.sent, step.killed);
      BegunMovesOne(w.sync, step.call, Racing);
      forall wait | Opened(w, step.call, step.sent, step.killed).sync == BeginUse(w.sync, step.call, wait)
        ensures MovesOne(w.sync, BeginUse(w.sync, step.call, wait), step.call)
      {
        BegunMovesOne(w.sync, step.call, wait);
      }
    }
  }

  lemma StartMovesOne(w: World, maximumJobs: int, step: Step)
    requires Enabled(w, step) && step.OfCall()
    requires !w.sync.calls[step.call].Queued? && !w.sync.calls[step.call].Inside?
    ensures MovesOne(w.sync, Apply(w, maximumJobs, step).sync, step.call)
  {}

  lemma OwnedKeeps(w: World, maximumJobs: int, step: Step)
    requires Owned(w.sync) && Enabled(w, step)
    ensures Owned(Apply(w, maximumJobs, step).sync)
  {
    if step.OfCall() {
      if w.sync.calls[step.call].Queued? || w.sync.calls[step.call].Inside? {
        GateMovesOne(w, maximumJobs, step);
      } else {
        StartMovesOne(w, maximumJobs, step);
      }
      OwnedMoves(w.sync, Apply(w, maximumJobs, step).sync, step.call);
    } else if !step.ChildExits? && !step.DeadlinePasses? {
      NewMovesOne(w, maximumJobs, step);
      OwnedMoves(w.sync, Apply(w, maximumJobs, step).sync, |w.sync.calls|);
    }
  }

  // ---------------------------------------------------------------- removed before the directory goes

  predicate IsInside(call: Call, j: nat) {
    call.Inside? && call.job == j
  }

  /** A call that waits for the removal of a job's directory has removed the job. */
  ghost predicate RemovedFirst(w: World) {
    forall c :: 0 <= c < |w.sync.calls| && w.sync.calls[c].Inside? && w.sync.calls[c].wait.Removing? ==>
      w.sync.calls[c].job < |w.reg.jobs| && Gone(w.reg, w.sync.calls[c].job)
  }

  lemma RemovingBegins(w: World, maximumJobs: int, step: Step)
    requires Enabled(w, step) && step.OfCall()
    requires step.call < |Apply(w, maximumJobs, step).sync.calls|
    requires var call := Apply(w, maximumJobs, step).sync.calls[step.call]; call.Inside? && call.wait.Removing?
    ensures var k := Apply(w, maximumJobs, step).sync.calls[step.call].job;
      k < |w.reg.jobs| && Apply(w, maximumJobs, step).reg == Cleanup(w.reg, k)
  {
    if step.GateOpens? {
      OpenedRemoving(w, step.call, step.sent, step.killed);
    }
  }

  lemma OpenedRemoving(w: World, c: nat, sent: bool, killed: bool)
    requires c < |w.sync.calls| && w.sync.calls[c].Queued? && Known(w, w.sync.calls[c])
    requires var call := Opened(w, c, sent, killed).sync.calls[c]; call.Inside? && call.wait.Removing?
    ensures var t, k := Opened(w, c, sent, killed), w.sync.calls[c].job;
      t.sync.calls[c].job == k && t.reg == Cleanup(w.reg, k)
  {}

  lemma RemovedFirstKeeps(w: World, maximumJobs: int, step: Step)
    requires Sane(w, maximumJobs) && SpawnedFresh(w) && RemovedFirst(w) && Enabled(w, step)
    ensures RemovedFirst(Apply(w, maximumJobs, step))
  {
    var t := Apply(w, maximumJobs, step);
    forall c | 0 <= c < |t.sync.calls| && t.sync.calls[c].Inside? && t.sync.calls[c].wait.Removing?
      ensures t.sync.calls[c].job < |t.reg.jobs| && Gone(t.reg, t.sync.calls[c].job)
    {
      RemovedCall(w, maximumJobs, step, c, t.sync.calls[c].job);
    }
  }

  lemma RemovedCall(w: World, maximumJobs: int, step: Step, c: nat, k: nat)
    requires Sane(w, maximumJobs) && SpawnedFresh(w) && RemovedFirst(w) && Enabled(w, step)
    requires c < |Apply(w, maximumJobs, step).sync.calls|
    requires var call := Apply(w, maximumJobs, step).sync.calls[c]; IsInside(call, k) && call.wait.Removing?
    ensures var t := Apply(w, maximumJobs, step); k < |t.reg.jobs| && Gone(t.reg, k)
  {
    if step.OfCall() && step.call == c {
      RemovingBegins(w, maximumJobs, step);
      CleanupKeeps(w.reg, k);
    } else {
      InsideBefore(w, maximumJobs, step, c);
      if Registering(w, step, k) {
        CallElsewhere(w.sync, c, k);
        assert false;
      }
      GoneStays(w, maximumJobs, step, k);
    }
  }

  /** Only a step of the call itself lets a call in. */
  lemma InsideBefore(w: World, maximumJobs: int, step: Step, c: nat)
    requires Enabled(w, step) && c < |Apply(w, maximumJobs, step).sync.calls|
    requires Apply(w, maximumJobs, step).sync.calls[c].Inside? && !(step.OfCall() && step.call == c)
    ensures c < |w.sync.calls| && w.sync.calls[c] == Apply(w, maximumJobs, step).sync.calls[c]
  {}

  /** What holds in every reachable state. */
  ghost predicate Inv(w: World, maximumJobs: int) {
    Sane(w, maximumJobs) && SpawnedFresh(w) && Owned(w.sync) && RemovedFirst(w)
  }

  lemma InvKeeps(w: World, maximumJobs: int, step: Step)
    requires Inv(w, maximumJobs) && Enabled(w, step)
    ensures Inv(Apply(w, maximumJobs, step), maximumJobs)
  {
    StepKeeps(w, maximumJobs, step);
    SpawnedStayFresh(w, maximumJobs, step);
    OwnedKeeps(w, maximumJobs, step);
    RemovedFirstKeeps(w, maximumJobs, step);
  }

  lemma {:induction false} RunInv(maximumJobs: int, worlds: seq<World>, steps: seq<Step>, n: nat)
    requires IsRun(maximumJobs, worlds, steps) && n < |worlds|
    ensures Inv(worlds[n], maximumJobs)
  {
    if n == 0 {
      StartSane(maximumJobs);
    } else {
      RunInv(maximumJobs, worlds, steps, n - 1);
      InvKeeps(worlds[n - 1], maximumJobs, steps[n - 1]);
    }
  }

  // ---------------------------------------------------------------- jobs that no step removes

  /** The child is gone without an exit code, so the job counts as active. */
  ghost predicate Vanished(s: Registry, j: nat) {
    j < |s.jobs| && Indexed(s, j) && s.jobs[j].exited && !s.jobs[j].coded
  }

  ghost predicate Entered(s: Sync, j: nat) {
    exists c :: 0 <= c < |s.calls| && IsInside(s.calls[c], j)
  }

  predicate IsStarting(call: Call, j: nat) {
    (call.Entering? && call.job == j) || (call.Queued? && call.job == j && call.operation.StartOp?)
  }

  /** The start call of the job is entering its gate or waits there. */
  ghost predicate StartWaits(s: Sync, j: nat) {
    exists c :: 0 <= c < |s.calls| && IsStarting(s.calls[c], j)
  }

  /** Some call waits for the child, or one can still come to wait for it. */
  ghost predicate Removable(w: World, j: nat)
    requires j < |w.reg.jobs|
  {
    || Entered(w.sync, j)
    || (!w.reg.jobs[j].expired && (!w.reg.jobs[j].paused || StartWaits(w.sync, j)))
  }

  /** A process group that is gone takes no signal. */
  predicate SignalFree(w: World, step: Step, j: nat) {
    && (AtGate(w, step, j) ==> !step.sent && !step.killed)
    && (AtRace(w, step, j) ==> !step.sent)
  }

  predicate AtGate(w: World, step: Step, j: nat) {
    && step.GateOpens? && step.call < |w.sync.calls| && w.sync.calls[step.call].Queued?
    && w.sync.calls[step.call].job == j
  }

  predicate AtRace(w: World, step: Step, j: nat) {
    step.RaceOver? && step.call < |w.sync.calls| && IsInside(w.sync.calls[step.call], j)
  }

  lemma VanishedSection(s: Registry, j: nat, k: nat, on: bool)
    requires s.Valid() && Vanished(s, j) && k < |s.jobs| && k != j
    ensures Vanished(Signal(s, k, on), j) && Vanished(ChildExit(s, k, on), j) && Vanished(Cleanup(s, k), j)
    ensures s.jobs[k].runId != s.jobs[j].runId ==> Vanished(Register(s, k), j)
  {
    SectionLeaves(s, j, k, on);
  }

  /** At the gate of a job that is not removable nothing comes of any operation. */
  lemma GateRefuses(w: World, c: nat, j: nat)
    requires Enabled(w, GateOpens(c, false, false)) && w.sync.calls[c].job == j
    requires Vanished(w.reg, j) && !Removable(w, j)
    ensures Opened(w, c, false, false) == w.(sync := Passed(w.sync, c))
  {
    assert w.sync.calls[c].operation.StartOp? ==> IsStarting(w.sync.calls[c], j);
  }

  lemma StuckOpened(w: World, step: Step, j: nat)
    requires w.reg.Valid() && Enabled(w, step) && step.GateOpens? && SignalFree(w, step, j)
    requires Vanished(w.reg, j) && !Removable(w, j)
    ensures Vanished(Apply(w, 0, step).reg, j) && Apply(w, 0, step).reg.jobs[j] == w.reg.jobs[j]
  {
    var k := w.sync.calls[step.call].job;
    if k == j {
      GateRefuses(w, step.call, j);
    } else {
      OpenedRegistry(w, step.call, step.sent, step.killed);
      VanishedSection(w.reg, j, k, true);
      VanishedSection(w.reg, j, k, false);
    }
  }

  /** The job as the step leaves it. */
  lemma StuckJob(w: World, maximumJobs: int, step: Step, j: nat)
    requires Inv(w, maximumJobs) && Enabled(w, step) && SignalFree(w, step, j)
    requires Vanished(w.reg, j) && !Removable(w, j)
    ensures var t := Apply(w, maximumJobs, step).reg;
      && Vanished(t, j) && t.jobs[j].paused == w.reg.jobs[j].paused
      && (w.reg.jobs[j].expired ==> t.jobs[j].expired)
  {
    assert step.OfCall() ==> !IsInside(w.sync.calls[step.call], j);
    match step
    case GateOpens(_, _, _) => StuckOpened(w, step, j);
    case Registers(c) =>
      assert CallFine(w.reg, maximumJobs, w.sync.calls[c]) && w.reg.Live(w.reg.jobs[j].runId);
      VanishedSection(w.reg, j, w.sync.calls[c].job, true);
    case SpawnReturns(c, token) => SpawnLeaves(w.reg, j, w.sync.calls[c].runId, token);
    case ChildExits(k, coded) => VanishedSection(w.reg, j, k, coded);
    case DeadlinePasses(k) => SectionLeaves(w.reg, j, k, true);
    case KilledChildExited(c) => VanishedSection(w.reg, j, w.sync.calls[c].job, true);
    case CancelWaitOver(c) => VanishedSection(w.reg, j, w.sync.calls[c].job, true);
    case RaceOver(c, _, _) => VanishedSection(w.reg, j, w.sync.calls[c].job, true);
    case ResultRead(c) => VanishedSection(w.reg, j, w.sync.calls[c].job, true);
    case _ =>
  }

  /** Calls that are not at the job stay away from the inside of its gate. */
  ghost predicate NoneEnters(s: Sync, t: Sync, j: nat) {
    && (Entered(t, j) ==> Entered(s, j))
    && (StartWaits(t, j) ==> StartWaits(s, j))
  }

  lemma CallsFrom(s: Sync, t: Sync, j: nat)
    requires forall d :: 0 <= d < |t.calls| ==>
      (d < |s.calls| && t.calls[d] == s.calls[d]) || (!IsInside(t.calls[d], j) && !IsStarting(t.calls[d], j))
    ensures NoneEnters(s, t, j)
  {}

  lemma StuckGateCalls(w: World, maximumJobs: int, step: Step, j: nat)
    requires Enabled(w, step) && step.OfCall() && SignalFree(w, step, j) && Vanished(w.reg, j) && !Removable(w, j)
    requires w.sync.calls[step.call].Queued? || w.sync.calls[step.call].Inside?
    ensures NoneEnters(w.sync, Apply(w, maximumJobs, step).sync, j)
  {
    assert !IsInside(w.sync.calls[step.call], j);
    if AtGate(w, step, j) {
      GateRefuses(w, step.call, j);
    }
    CallsFrom(w.sync, Apply(w, maximumJobs, step).sync, j);
  }

  lemma StuckStartCalls(w: World, maximumJobs: int, step: Step, j: nat)
    requires Inv(w, maximumJobs) && Enabled(w, step) && step.OfCall() && Vanished(w.reg, j)
    requires !w.sync.calls[step.call].Queued? && !w.sync.calls[step.call].Inside?
    ensures NoneEnters(w.sync, Apply(w, maximumJobs, step).sync, j)
  {
    assert w.sync.calls[step.call].Spawned? ==> Untouched(w, w.sync.calls[step.call].job);
    if step.Enters? && w.sync.calls[step.call].job == j {
      assert IsStarting(w.sync.calls[step.call], j);
      EntersAgain(w, maximumJobs, step, j);
    } else {
      CallsFrom(w.sync, Apply(w, maximumJobs, step).sync, j);
    }
  }

  lemma EntersAgain(w: World, maximumJobs: int, step: Step, j: nat)
    requires Enabled(w, step) && step.Enters? && w.sync.calls[step.call].job == j
    ensures NoneEnters(w.sync, Apply(w, maximumJobs, step).sync, j)
  {
    var t := Apply(w, maximumJobs, step).sync;
    assert IsStarting(w.sync.calls[step.call], j);
    assert forall d :: 0 <= d < |t.calls| && IsInside(t.calls[d], j) ==>
      d < |w.sync.calls| && t.calls[d] == w.sync.calls[d];
  }

  lemma StuckNewCalls(w: World, maximumJobs: int, step: Step, j: nat)
    requires Enabled(w, step) && !step.OfCall()
    ensures NoneEnters(w.sync, Apply(w, maximumJobs, step).sync, j)
  {
    CallsFrom(w.sync, Apply(w, maximumJobs, step).sync, j);
  }

  lemma StuckStays(w: World, maximumJobs: int, step: Step, j: nat)
    requires Inv(w, maximumJobs) && Enabled(w, step) && SignalFree(w, step, j)
    requires Vanished(w.reg, j) && !Removable(w, j)
    ensures var t := Apply(w, maximumJobs, step); Vanished(t.reg, j) && !Removable(t, j)
  {
    StuckJob(w, maximumJobs, step, j);
    if !step.OfCall() {
      StuckNewCalls(w, maximumJobs, step, j);
    } else if w.sync.calls[step.call].Queued? || w.sync.calls[step.call].Inside? {
      StuckGateCalls(w, maximumJobs, step, j);
    } else {
      StuckStartCalls(w, maximumJobs, step, j);
    }
  }

  // ---------------------------------------------------------------- what can follow

  /** Steps that can follow w and send no signal to the job. */
  ghost predicate Follows(maximumJobs: int, w: World, worlds: seq<World>, steps: seq<Step>, j: nat) {
    && |worlds| == |steps| + 1 && worlds[0] == w
    && forall n :: 0 <= n < |steps| ==>
         && Enabled(worlds[n], steps[n]) && SignalFree(worlds[n], steps[n], j)
         && worlds[n + 1] == Apply(worlds[n], maximumJobs, steps[n])
  }

  predicate IsIndexed(s: Registry, j: nat) {
    j < |s.jobs| && Indexed(s, j)
  }

  /** Some continuation without a signal takes the job out of the indexes. */
  ghost predicate CanGo(maximumJobs: int, w: World, j: nat) {
    exists worlds: seq<World>, steps: seq<Step> ::
      Follows(maximumJobs, w, worlds, steps, j) && !IsIndexed(worlds[|steps|].reg, j)
  }

  lemma {:induction false} StuckFollows(maximumJobs: int, w: World, worlds: seq<World>, steps: seq<Step>, j: nat,
                                        n: nat)
    requires Inv(w, maximumJobs) && Vanished(w.reg, j) && !Removable(w, j)
    requires Follows(maximumJobs, w, worlds, steps, j) && n < |worlds|
    ensures Inv(worlds[n], maximumJobs) && Vanished(worlds[n].reg, j) && !Removable(worlds[n], j)
  {
    if n > 0 {
      StuckFollows(maximumJobs, w, worlds, steps, j, n - 1);
      InvKeeps(worlds[n - 1], maximumJobs, steps[n - 1]);
      StuckStays(worlds[n - 1], maximumJobs, steps[n - 1], j);
    }
  }

  lemma GoneNow(maximumJobs: int, w: World, j: nat)
    requires !IsIndexed(w.reg, j)
    ensures CanGo(maximumJobs, w, j)
  {
    var worlds, steps: seq<Step> := [w], [];
    assert Follows(maximumJobs, w, worlds, steps, j) && !IsIndexed(worlds[|steps|].reg, j);
  }

  lemma GoesAfter(maximumJobs: int, w: World, step: Step, j: nat)
    requires Enabled(w, step) && SignalFree(w, step, j) && CanGo(maximumJobs, Apply(w, maximumJobs, step), j)
    ensures CanGo(maximumJobs, w, j)
  {
    var t := Apply(w, maximumJobs, step);
    var worlds: seq<World>, steps: seq<Step> :|
      Follows(maximumJobs, t, worlds, steps, j) && !IsIndexed(worlds[|steps|].reg, j);
    FollowsEarlier(maximumJobs, w, step, worlds, steps, j);
    assert ([w] + worlds)[|[step] + steps|] == worlds[|steps|];
  }

  lemma FollowsEarlier(maximumJobs: int, w: World, step: Step, worlds: seq<World>, steps: seq<Step>, j: nat)
    requires Enabled(w, step) && SignalFree(w, step, j)
    requires Follows(maximumJobs, Apply(w, maximumJobs, step), worlds, steps, j)
    ensures Follows(maximumJobs, w, [w] + worlds, [step] + steps, j)
  {
    var longer, more := [w] + worlds, [step] + steps;
    forall n | 0 <= n < |more|
      ensures Enabled(longer[n], more[n]) && SignalFree(longer[n], more[n], j)
      ensures longer[n + 1] == Apply(longer[n], maximumJobs, more[n])
    {
      if n > 0 {
        assert longer[n] == worlds[n - 1] && more[n] == steps[n - 1] && longer[n + 1] == worlds[n];
      }
    }
  }

  // ---------------------------------------------------------------- how the job goes

  lemma CleanupGoes(maximumJobs: int, w: World, step: Step, c: nat, j: nat)
    requires Inv(w, maximumJobs) && c < |w.sync.calls| && IsInside(w.sync.calls[c], j) && Vanished(w.reg, j)
    requires Enabled(w, step) && step in {KilledChildExited(c), CancelWaitOver(c), ResultRead(c)}
    ensures CanGo(maximumJobs, w, j)
  {
    CleanupKeeps(w.reg, j);
    GoneNow(maximumJobs, Apply(w, maximumJobs, step), j);
    GoesAfter(maximumJobs, w, step, j);
  }

  lemma InsideKnown(w: World, maximumJobs: int, c: nat, j: nat)
    requires Inv(w, maximumJobs) && c < |w.sync.calls| && IsInside(w.sync.calls[c], j) && Vanished(w.reg, j)
    ensures Known(w, w.sync.calls[c]) && !w.sync.calls[c].wait.Removing?
  {
    assert w.sync.CallOk(w.sync.calls[c]) && CallFine(w.reg, maximumJobs, w.sync.calls[c]);
  }

  lemma RaceGoes(maximumJobs: int, w: World, c: nat, j: nat)
    requires Inv(w, maximumJobs) && c < |w.sync.calls| && w.sync.calls[c].Inside? && w.sync.calls[c].job == j
    requires Vanished(w.reg, j) && w.sync.calls[c].wait.Racing?
    ensures CanGo(maximumJobs, w, j)
  {
    InsideKnown(w, maximumJobs, c, j);
    var step := RaceOver(c, false, false);
    var t := Apply(w, maximumJobs, step);
    InvKeeps(w, maximumJobs, step);
    InsideKnown(t, maximumJobs, c, j);
    CleanupGoes(maximumJobs, t, ResultRead(c), c, j);
    GoesAfter(maximumJobs, w, step, j);
  }

  /** Whatever a call inside the gate waits for comes without a signal, and then it removes the
      job. */
  lemma InsideGoes(maximumJobs: int, w: World, c: nat, j: nat)
    requires Inv(w, maximumJobs) && c < |w.sync.calls| && IsInside(w.sync.calls[c], j) && Vanished(w.reg, j)
    ensures CanGo(maximumJobs, w, j)
  {
    InsideKnown(w, maximumJobs, c, j);
    match w.sync.calls[c].wait
    case Killing => CleanupGoes(maximumJobs, w, KilledChildExited(c), c, j);
    case Racing => RaceGoes(maximumJobs, w, c, j);
    case Reading => CleanupGoes(maximumJobs, w, ResultRead(c), c, j);
    case Cancelling => CleanupGoes(maximumJobs, w, CancelWaitOver(c), c, j);
    case Removing =>
  }

  /** A call that will wait for the child once its gate opens. */
  predicate WillWait(w: World, call: Call, j: nat)
    requires j < |w.reg.jobs|
  {
    && call.Queued? && call.job == j && !w.reg.jobs[j].expired
    && (call.operation.StartOp? || (call.operation.ResumeOp? && !w.reg.jobs[j].paused))
  }

  lemma WaitsAtGate(maximumJobs: int, w: World, d: nat, j: nat)
    requires Inv(w, maximumJobs) && Vanished(w.reg, j) && d < |w.sync.calls| && WillWait(w, w.sync.calls[d], j)
    requires Enabled(w, GateOpens(d, false, false))
    ensures CanGo(maximumJobs, w, j)
  {
    var t := Apply(w, maximumJobs, GateOpens(d, false, false));
    InvKeeps(w, maximumJobs, GateOpens(d, false, false));
    InsideGoes(maximumJobs, t, d, j);
    GoesAfter(maximumJobs, w, GateOpens(d, false, false), j);
  }

  /** A call that comes before passes, unless it waits for the child itself. */
  lemma PassesGate(w: World, d: nat, j: nat)
    requires Vanished(w.reg, j) && !w.reg.jobs[j].expired && d < |w.sync.calls|
    requires Enabled(w, GateOpens(d, false, false)) && w.sync.calls[d].job == j && !WillWait(w, w.sync.calls[d], j)
    ensures Apply(w, 0, GateOpens(d, false, false)) == w.(sync := Passed(w.sync, d))
  {}

  lemma OpenOwner(s: Sync, j: nat, u: nat) returns (d: nat)
    requires s.Valid() && Owned(s) && Open(s, j, u)
    ensures d < |s.calls| && s.calls[d].GatePlace() == Some((j, u))
    ensures s.gates[j].uses[u].Waiting? ==> s.calls[d].Queued?
    ensures s.gates[j].uses[u].Running? ==> s.calls[d].Inside?
  {
    assert HasOwner(s, j, u);
    d :| 0 <= d < |s.calls| && s.calls[d].GatePlace() == Some((j, u));
    assert s.CallOk(s.calls[d]);
  }

  /** The calls before it leave the gate one by one, and then it waits for the child. */
  lemma {:induction false} QueueGoes(maximumJobs: int, w: World, c: nat, j: nat, u: nat)
    requires Inv(w, maximumJobs) && Vanished(w.reg, j) && c < |w.sync.calls| && WillWait(w, w.sync.calls[c], j)
    requires j < |w.sync.gates| && u <= w.sync.calls[c].ticket < |w.sync.gates[j].uses|
    requires forall t :: 0 <= t < u ==> w.sync.gates[j].uses[t] == Finished
    ensures CanGo(maximumJobs, w, j)
    decreases w.sync.calls[c].ticket - u
  {
    assert w.sync.CallOk(w.sync.calls[c]);
    if w.sync.gates[j].uses[u] == Finished {
      QueueGoes(maximumJobs, w, c, j, u + 1);
    } else {
      var d := OpenOwner(w.sync, j, u);
      if w.sync.gates[j].uses[u].Running? {
        InsideGoes(maximumJobs, w, d, j);
      } else {
        FirstGoes(maximumJobs, w, c, j, u, d);
      }
    }
  }

  lemma FirstGoes(maximumJobs: int, w: World, c: nat, j: nat, u: nat, d: nat)
    requires Inv(w, maximumJobs) && Vanished(w.reg, j) && c < |w.sync.calls| && WillWait(w, w.sync.calls[c], j)
    requires j < |w.sync.gates| && u <= w.sync.calls[c].ticket < |w.sync.gates[j].uses|
    requires forall t :: 0 <= t < u ==> w.sync.gates[j].uses[t] == Finished
    requires w.sync.gates[j].uses[u].Waiting?
    requires d < |w.sync.calls| && w.sync.calls[d].Queued? && w.sync.calls[d].GatePlace() == Some((j, u))
    ensures CanGo(maximumJobs, w, j)
    decreases w.sync.calls[c].ticket - u, 0
  {
    assert Enabled(w, GateOpens(d, false, false));
    if WillWait(w, w.sync.calls[d], j) {
      WaitsAtGate(maximumJobs, w, d, j);
    } else {
      var t := Apply(w, maximumJobs, GateOpens(d, false, false));
      PassesGate(w, d, j);
      InvKeeps(w, maximumJobs, GateOpens(d, false, false));
      assert w.sync.PlaceFree(d, w.sync.calls[d]);
      QueueGoes(maximumJobs, t, c, j, u + 1);
      GoesAfter(maximumJobs, w, GateOpens(d, false, false), j);
    }
  }

  lemma TicketKnown(w: World, maximumJobs: int, c: nat, j: nat)
    requires Inv(w, maximumJobs) && c < |w.sync.calls| && w.sync.calls[c].Queued? && w.sync.calls[c].job == j
    ensures j < |w.sync.gates| && w.sync.calls[c].ticket < |w.sync.gates[j].uses|
  {
    assert w.sync.CallOk(w.sync.calls[c]);
  }

  lemma ResumeGoes(maximumJobs: int, w: World, j: nat)
    requires Inv(w, maximumJobs) && Vanished(w.reg, j) && !w.reg.jobs[j].expired && !w.reg.jobs[j].paused
    ensures CanGo(maximumJobs, w, j)
  {
    var step, c := NewResume(w.reg.jobs[j].token), |w.sync.calls|;
    var t := Apply(w, maximumJobs, step);
    InvKeeps(w, maximumJobs, step);
    assert t.sync.calls[c] == Queued(j, |w.sync.gates[j].uses|, ResumeOp) && t.reg == w.reg;
    TicketKnown(t, maximumJobs, c, j);
    QueueGoes(maximumJobs, t, c, j, 0);
    GoesAfter(maximumJobs, w, step, j);
  }

  lemma StartGoes(maximumJobs: int, w: World, c: nat, j: nat)
    requires Inv(w, maximumJobs) && Vanished(w.reg, j) && !w.reg.jobs[j].expired
    requires c < |w.sync.calls| && IsStarting(w.sync.calls[c], j)
    ensures CanGo(maximumJobs, w, j)
  {
    if w.sync.calls[c].Queued? {
      TicketKnown(w, maximumJobs, c, j);
      QueueGoes(maximumJobs, w, c, j, 0);
    } else {
      var t := Apply(w, maximumJobs, Enters(c));
      InvKeeps(w, maximumJobs, Enters(c));
      TicketKnown(t, maximumJobs, c, j);
      QueueGoes(maximumJobs, t, c, j, 0);
      GoesAfter(maximumJobs, w, Enters(c), j);
    }
  }

  /** In every reachable state, of an indexed job whose child was ended by a signal: some
      continuation takes it out of the indexes without a signal being sent to its group, if and
      only if a call is inside its gate, or the deadline has not passed and the job is not
      paused or its start call is entering its gate or waits there. */
  lemma RemovableExactly(maximumJobs: int, worlds: seq<World>, steps: seq<Step>, n: nat, j: nat)
    requires IsRun(maximumJobs, worlds, steps) && n < |worlds| && Vanished(worlds[n].reg, j)
    ensures CanGo(maximumJobs, worlds[n], j) <==> Removable(worlds[n], j)
  {
    var w := worlds[n];
    RunInv(maximumJobs, worlds, steps, n);
    if Removable(w, j) {
      RemovableGoes(maximumJobs, w, j);
    } else {
      StuckNeverGoes(maximumJobs, w, j);
    }
  }

  lemma RemovableGoes(maximumJobs: int, w: World, j: nat)
    requires Inv(w, maximumJobs) && Vanished(w.reg, j) && Removable(w, j)
    ensures CanGo(maximumJobs, w, j)
  {
    if Entered(w.sync, j) {
      var c :| 0 <= c < |w.sync.calls| && IsInside(w.sync.calls[c], j);
      InsideGoes(maximumJobs, w, c, j);
    } else if w.reg.jobs[j].paused {
      var c :| 0 <= c < |w.sync.calls| && IsStarting(w.sync.calls[c], j);
      StartGoes(maximumJobs, w, c, j);
    } else {
      ResumeGoes(maximumJobs, w, j);
    }
  }

  lemma StuckNeverGoes(maximumJobs: int, w: World, j: nat)
    requires Inv(w, maximumJobs) && Vanished(w.reg, j) && !Removable(w, j)
    ensures !CanGo(maximumJobs, w, j)
  {
    forall worlds: seq<World>, steps: seq<Step> | Follows(maximumJobs, w, worlds, steps, j)
      ensures IsIndexed(worlds[|steps|].reg, j)
    {
      StuckFollows(maximumJobs, w, worlds, steps, j, |steps|);
    }
  }

  lemma VanishedBlocks(s: Registry, maximumJobs: int, j: nat)
    requires Vanished(s, j)
    ensures s.jobs[j].runId in s.Active() && Admit(s, maximumJobs, s.jobs[j].runId) == ActiveWorker
  {}

  /** While such a job is not removable it blocks its run: it counts against maximumJobs and no
      start of the run is admitted, however calls come and go. */
  lemma BlockedForGood(maximumJobs: int, worlds: seq<World>, steps: seq<Step>, n: nat, m: nat, j: nat)
    requires IsRun(maximumJobs, worlds, steps) && n <= m < |worlds|
    requires Vanished(worlds[n].reg, j) && !Removable(worlds[n], j)
    requires forall i :: n <= i < m ==> SignalFree(worlds[i], steps[i], j)
    ensures var s := worlds[m].reg;
      && Vanished(s, j) && s.jobs[j].runId in s.Active()
      && Admit(s, maximumJobs, s.jobs[j].runId) == ActiveWorker
  {
    var later, more := worlds[n..m + 1], steps[n..m];
    RunInv(maximumJobs, worlds, steps, n);
    assert forall i :: 0 <= i < |more| ==> later[i] == worlds[n + i] && more[i] == steps[n + i];
    StuckFollows(maximumJobs, worlds[n], later, more, j, m - n);
    VanishedBlocks(worlds[m].reg, maximumJobs, j);
  }
}
