/** Every interleaving of calls on the job controller: what each step keeps, and what
    therefore holds in every reachable state. */
module JobRuns {
  import opened Wrappers
  import opened SerialGates
  import opened JobController
  import opened JobCalls

  datatype World = World(reg: Registry, sync: Sync)

  const START := World(Registry([], map[], map[]), Sync(NEW_GATE, [], []))

  /** One step is the code between two awaits of one call, or an event outside the
      controller. sent and killed say whether a signal could be sent, slice which side of
      a race came first, coded whether the child ended with an exit code. */
  datatype Step =
    | NewStart(runId: string)
    | NewPause(runId: string)
    | NewResume(token: string)
    | NewCancel(runId: string)
    | StartBegins(call: nat, decodes: bool)
    | SpawnFails(call: nat)
    | SpawnReturns(call: nat, token: string)
    | Registers(call: nat)
    | Enters(call: nat)
    | GateOpens(call: nat, sent: bool, killed: bool)
    | KilledChildExited(call: nat)
    | CancelWaitOver(call: nat)
    | RaceOver(call: nat, slice: bool, sent: bool)
    | ResultRead(call: nat)
    | Removed(call: nat)
    | ChildExits(job: nat, coded: bool)
    | DeadlinePasses(job: nat)
  {
    predicate OfCall() {
      !NewStart? && !NewPause? && !NewResume? && !NewCancel? && !ChildExits? && !DeadlinePasses?
    }
  }

  // ---------------------------------------------------------------- when a step can happen

  /** Places at gates and job numbers exist; this holds of every call of a valid world. */
  predicate Known(w: World, call: Call) {
    match call
    case StartQueued(_, t) => t < |w.sync.startGate.uses|
    case Spawning(_, t) => t < |w.sync.startGate.uses|
    case Spawned(j, t) => t < |w.sync.startGate.uses| && j < |w.reg.jobs|
    case Entering(j) => j < |w.reg.jobs| && j < |w.sync.gates|
    case Queued(j, t, _) => j < |w.reg.jobs| && j < |w.sync.gates| && t < |w.sync.gates[j].uses|
    case Inside(j, t, _) => j < |w.reg.jobs| && j < |w.sync.gates| && t < |w.sync.gates[j].uses|
    case Done => true
  }

  predicate Enabled(w: World, step: Step) {
    match step
    case NewStart(_) => true
    case NewPause(r) => r in w.reg.byRunId ==> w.reg.byRunId[r] < |w.sync.gates|
    case NewResume(t) => t in w.reg.byToken ==> w.reg.byToken[t] < |w.sync.gates|
    case NewCancel(r) => r in w.reg.byRunId ==> w.reg.byRunId[r] < |w.sync.gates|
    case ChildExits(j, _) => j < |w.reg.jobs| && !w.reg.jobs[j].exited
    case DeadlinePasses(j) => j < |w.reg.jobs|
    case _ => step.call < |w.sync.calls| && Known(w, w.sync.calls[step.call]) && Ready(w, step)
  }

  /** What the call must be waiting for, and what must have happened. */
  predicate Ready(w: World, step: Step)
    requires step.OfCall() && step.call < |w.sync.calls| && Known(w, w.sync.calls[step.call])
  {
    var call := w.sync.calls[step.call];
    match step
    case StartBegins(_, _) => call.StartQueued? && w.sync.startGate.CanBegin(call.ticket)
    case SpawnFails(_) => call.Spawning?
    case SpawnReturns(_, token) => call.Spawning? && forall j :: 0 <= j < |w.reg.jobs| ==> w.reg.jobs[j].token != token
    case Registers(_) => call.Spawned?
    case Enters(_) => call.Entering?
    case GateOpens(_, _, _) => call.Queued? && w.sync.gates[call.job].CanBegin(call.ticket)
    case KilledChildExited(_) => call.Inside? && call.wait.Killing? && w.reg.jobs[call.job].exited
    case CancelWaitOver(_) => call.Inside? && call.wait.Cancelling?
    case RaceOver(_, slice, _) => call.Inside? && call.wait.Racing? && (slice || w.reg.jobs[call.job].exited)
    case ResultRead(_) => call.Inside? && call.wait.Reading?
    case Removed(_) => call.Inside? && call.wait.Removing?
  }

  // ---------------------------------------------------------------- what a step does

  function Apply(w: World, maximumJobs: int, step: Step): World
    requires Enabled(w, step)
  {
    match step
    case NewStart(r) => w.(sync := QueueStart(w.sync, r))
    case NewPause(r) => LookedUp(w, Find(w.reg.byRunId, r), PauseOp)
    case NewResume(t) => LookedUp(w, Find(w.reg.byToken, t), ResumeOp)
    case NewCancel(r) => LookedUp(w, Find(w.reg.byRunId, r), CancelOp)
    case ChildExits(j, coded) => w.(reg := ChildExit(w.reg, j, coded))
    case DeadlinePasses(j) => w.(reg := Expire(w.reg, j))
    case StartBegins(c, decodes) => StartSection(w, maximumJobs, c, decodes)
    case SpawnFails(c) => w.(sync := EndStart(w.sync, c, Done))
    case SpawnReturns(c, token) =>
      var call := w.sync.calls[c];
      World(Spawn(w.reg, call.runId, token),
            w.sync.AddGate().SetCall(c, Spawned(|w.reg.jobs|, call.ticket)))
    case Registers(c) =>
      var j := w.sync.calls[c].job;
      World(Register(w.reg, j), EndStart(w.sync, c, Entering(j)))
    case Enters(c) => w.(sync := EnterQueue(w.sync, c))
    case GateOpens(c, sent, killed) => Opened(w, c, sent, killed)
    case KilledChildExited(c) => CleanedUp(w, c)
    case CancelWaitOver(c) => CleanedUp(w, c)
    case RaceOver(c, slice, sent) =>
      var j := w.sync.calls[c].job;
      if slice && !w.reg.jobs[j].coded then World(Sliced(w.reg, j, sent), EndUse(w.sync, c))
      else w.(sync := Waits(w.sync, c, Reading))
    case ResultRead(c) => CleanedUp(w, c)
    case Removed(c) => w.(sync := EndUse(w.sync, c))
  }

  /** pause, resume and cancel look their job up when they are called. */
  function LookedUp(w: World, found: Option<nat>, operation: Operation): World
    requires found.Some? ==> found.value < |w.sync.gates|
  {
    w.(sync := if found.Some? then QueueUse(w.sync, found.value, operation) else w.sync.AddCall(Done))
  }

  function Find(index: map<string, nat>, key: string): Option<nat> {
    if key in index then Some(index[key]) else None
  }

  /** start, from the opening of the start gate to the spawn or the refusal. */
  function StartSection(w: World, maximumJobs: int, c: nat, decodes: bool): World
    requires c < |w.sync.calls| && w.sync.calls[c].StartQueued? && Known(w, w.sync.calls[c])
  {
    var begun := BeginStart(w.sync, c);
    w.(sync := if decodes && Admit(w.reg, maximumJobs, w.sync.calls[c].runId).Admitted? then begun
               else EndStart(begun, c, Done))
  }

  function Waits(s: Sync, c: nat, wait: Wait): Sync
    requires c < |s.calls| && s.calls[c].Inside?
  {
    s.SetCall(c, Inside(s.calls[c].job, s.calls[c].ticket, wait))
  }

  /** The call passes its gate without waiting inside it. */
  function Passed(s: Sync, c: nat): Sync
    requires c < |s.calls| && s.calls[c].Queued?
    requires s.calls[c].job < |s.gates| && s.calls[c].ticket < |s.gates[s.calls[c].job].uses|
  {
    EndUse(BeginUse(s, c, Removing), c)
  }

  function CleanedUp(w: World, c: nat): World
    requires c < |w.sync.calls| && w.sync.calls[c].Inside? && w.sync.calls[c].job < |w.reg.jobs|
  {
    World(Cleanup(w.reg, w.sync.calls[c].job), Waits(w.sync, c, Removing))
  }

  /** awaitOrPause from its start to its first await. */
  function AwaitOrPause(w: World, c: nat, killed: bool): World
    requires c < |w.sync.calls| && w.sync.calls[c].Queued? && Known(w, w.sync.calls[c])
  {
    var j := w.sync.calls[c].job;
    if !w.reg.jobs[j].expired then w.(sync := BeginUse(w.sync, c, Racing))
    else if w.reg.jobs[j].coded then World(Cleanup(w.reg, j), BeginUse(w.sync, c, Removing))
    else if killed then w.(sync := BeginUse(w.sync, c, Killing))
    else w.(sync := Passed(w.sync, c))
  }

  function Opened(w: World, c: nat, sent: bool, killed: bool): World
    requires c < |w.sync.calls| && w.sync.calls[c].Queued? && Known(w, w.sync.calls[c])
  {
    var j := w.sync.calls[c].job;
    var job := w.reg.jobs[j];
    match w.sync.calls[c].operation
    case StartOp => AwaitOrPause(w, c, killed)
    case PauseOp => World(Paused(w.reg, j, sent), Passed(w.sync, c))
    case ResumeOp =>
      if !job.coded && job.paused && !sent then w.(sync := Passed(w.sync, c))
      else AwaitOrPause(w.(reg := Resumed(w.reg, j, sent)), c, killed)
    case CancelOp =>
      if job.coded then World(Cleanup(w.reg, j), BeginUse(w.sync, c, Removing))
      else if killed then w.(sync := BeginUse(w.sync, c, Cancelling))
      else w.(sync := Passed(w.sync, c))
  }

  // ---------------------------------------------------------------- the invariant

  function Limit(maximumJobs: int): nat {
    if maximumJobs > 0 then maximumJobs else 0
  }

  /** There is room for the run that is being started and it is not live; a result is read
      only after its child has exited. */
  ghost predicate CallFine(s: Registry, maximumJobs: int, call: Call) {
    match call
    case Spawning(r, _) => |s.Active()| < maximumJobs && !s.Live(r)
    case Spawned(j, _) => j < |s.jobs| && |s.Active()| < maximumJobs && !s.Live(s.jobs[j].runId)
    case Inside(j, _, wait) => j < |s.jobs| && (wait.Reading? ==> s.jobs[j].exited)
    case _ => true
  }

  ghost predicate Sane(w: World, maximumJobs: int) {
    && w.reg.Valid() && w.sync.Valid() && |w.sync.gates| == |w.reg.jobs|
    && |w.reg.Active()| <= Limit(maximumJobs)
    && forall c :: 0 <= c < |w.sync.calls| ==> CallFine(w.reg, maximumJobs, w.sync.calls[c])
  }

  lemma CallFineKeeps(s: Registry, t: Registry, maximumJobs: int, call: Call)
    requires Quieter(s, t) && CallFine(s, maximumJobs, call)
    ensures CallFine(t, maximumJobs, call)
  {
    QuieterCount(s, t);
  }

  /** A step that makes no run live and moves one call keeps the invariant. */
  lemma MoveKeepsSane(w: World, t: World, maximumJobs: int, c: nat)
    requires Sane(w, maximumJobs) && t.reg.Valid() && t.sync.Valid() && |t.sync.gates| == |t.reg.jobs|
    requires Quieter(w.reg, t.reg) && c < |t.sync.calls| && |t.sync.calls| <= |w.sync.calls| + 1
    requires forall d :: 0 <= d < |t.sync.calls| && d != c ==> d < |w.sync.calls| && t.sync.calls[d] == w.sync.calls[d]
    requires CallFine(t.reg, maximumJobs, t.sync.calls[c])
    ensures Sane(t, maximumJobs)
  {
    QuieterCount(w.reg, t.reg);
    forall d | 0 <= d < |t.sync.calls| ensures CallFine(t.reg, maximumJobs, t.sync.calls[d]) {
      var call := t.sync.calls[d];
      if d != c {
        CallFineKeeps(w.reg, t.reg, maximumJobs, call);
      }
    }
  }

  lemma LookedUpKeeps(w: World, maximumJobs: int, found: Option<nat>, operation: Operation)
    requires Sane(w, maximumJobs) && (found.Some? ==> found.value < |w.sync.gates|)
    ensures Sane(LookedUp(w, found, operation), maximumJobs)
  {
    var t := LookedUp(w, found, operation);
    if found.Some? {
      QueueUseKeeps(w.sync, found.value, operation);
    } else {
      AddCallKeeps(w.sync, t.sync, Done);
    }
    MoveKeepsSane(w, t, maximumJobs, |w.sync.calls|);
  }

  lemma StartSectionKeeps(w: World, maximumJobs: int, c: nat, decodes: bool)
    requires Sane(w, maximumJobs) && Enabled(w, StartBegins(c, decodes))
    ensures Sane(StartSection(w, maximumJobs, c, decodes), maximumJobs)
  {
    var t := StartSection(w, maximumJobs, c, decodes);
    BeginStartKeeps(w.sync, c);
    if !t.sync.calls[c].Spawning? {
      EndStartKeeps(BeginStart(w.sync, c), c, Done);
    }
    MoveKeepsSane(w, t, maximumJobs, c);
  }

  lemma SpawnReturnsKeeps(w: World, maximumJobs: int, c: nat, token: string)
    requires Sane(w, maximumJobs) && Enabled(w, SpawnReturns(c, token))
    ensures Sane(Apply(w, maximumJobs, SpawnReturns(c, token)), maximumJobs)
  {
    var t, call := Apply(w, maximumJobs, SpawnReturns(c, token)), w.sync.calls[c];
    SpawnKeeps(w.reg, call.runId, token);
    QuieterCount(w.reg, t.reg);
    AddGateKeeps(w.sync);
    assert w.sync.CallOk(call) && CallFine(w.reg, maximumJobs, call);
    MoveKeeps(w.sync.AddGate(), c, Spawned(|w.reg.jobs|, call.ticket));
    MoveKeepsSane(w, t, maximumJobs, c);
  }

  lemma RegistersKeeps(w: World, maximumJobs: int, c: nat)
    requires Sane(w, maximumJobs) && Enabled(w, Registers(c))
    ensures Sane(Apply(w, maximumJobs, Registers(c)), maximumJobs)
  {
    var t, call := Apply(w, maximumJobs, Registers(c)), w.sync.calls[c];
    assert w.sync.CallOk(call) && CallFine(w.reg, maximumJobs, call);
    RegisterKeeps(w.reg, call.job);
    EndStartKeeps(w.sync, c, Entering(call.job));
    forall d | 0 <= d < |t.sync.calls| ensures CallFine(t.reg, maximumJobs, t.sync.calls[d]) {
      assert CallFine(w.reg, maximumJobs, w.sync.calls[d]);
      if d != c {
        OneStarting(w.sync, c, d);
      }
    }
  }

  lemma PassedKeeps(s: Sync, c: nat)
    requires s.Valid() && c < |s.calls| && s.calls[c].Queued?
    requires s.calls[c].job < |s.gates| && s.gates[s.calls[c].job].CanBegin(s.calls[c].ticket)
    ensures Passed(s, c).Valid() && Passed(s, c).calls == s.calls[c := Done]
    ensures |Passed(s, c).gates| == |s.gates|
  {
    BeginUseKeeps(s, c, Removing);
    EndUseKeeps(BeginUse(s, c, Removing), c);
  }

  lemma AwaitOrPauseKeeps(w: World, maximumJobs: int, c: nat, killed: bool)
    requires Sane(w, maximumJobs) && Enabled(w, GateOpens(c, true, killed))
    ensures Sane(AwaitOrPause(w, c, killed), maximumJobs)
  {
    var t, j := AwaitOrPause(w, c, killed), w.sync.calls[c].job;
    if !w.reg.jobs[j].expired {
      BeginUseKeeps(w.sync, c, Racing);
    } else if w.reg.jobs[j].coded {
      BeginUseKeeps(w.sync, c, Removing);
      CleanupKeeps(w.reg, j);
    } else if killed {
      BeginUseKeeps(w.sync, c, Killing);
    } else {
      PassedKeeps(w.sync, c);
    }
    MoveKeepsSane(w, t, maximumJobs, c);
  }

  lemma PauseOpenedKeeps(w: World, maximumJobs: int, c: nat, sent: bool)
    requires Sane(w, maximumJobs) && Enabled(w, GateOpens(c, sent, true)) && w.sync.calls[c].operation.PauseOp?
    ensures Sane(Opened(w, c, sent, true), maximumJobs)
  {
    PassedKeeps(w.sync, c);
    SignalKeeps(w.reg, w.sync.calls[c].job, true);
    MoveKeepsSane(w, Opened(w, c, sent, true), maximumJobs, c);
  }

  lemma ResumeOpenedKeeps(w: World, maximumJobs: int, c: nat, sent: bool, killed: bool)
    requires Sane(w, maximumJobs) && Enabled(w, GateOpens(c, sent, killed))
    requires w.sync.calls[c].operation.ResumeOp?
    ensures Sane(Opened(w, c, sent, killed), maximumJobs)
  {
    var j := w.sync.calls[c].job;
    if w.reg.jobs[j].coded || !w.reg.jobs[j].paused || sent {
      ResumedKeeps(w, maximumJobs, c, j, sent);
      AwaitOrPauseKeeps(w.(reg := Resumed(w.reg, j, sent)), maximumJobs, c, killed);
    } else {
      PassedKeeps(w.sync, c);
      MoveKeepsSane(w, Opened(w, c, sent, killed), maximumJobs, c);
    }
  }

  lemma CancelOpenedKeeps(w: World, maximumJobs: int, c: nat, killed: bool)
    requires Sane(w, maximumJobs) && Enabled(w, GateOpens(c, true, killed)) && w.sync.calls[c].operation.CancelOp?
    ensures Sane(Opened(w, c, true, killed), maximumJobs)
  {
    if w.reg.jobs[w.sync.calls[c].job].coded {
      BeginUseKeeps(w.sync, c, Removing);
      CleanupKeeps(w.reg, w.sync.calls[c].job);
    } else if killed {
      BeginUseKeeps(w.sync, c, Cancelling);
    } else {
      PassedKeeps(w.sync, c);
    }
    MoveKeepsSane(w, Opened(w, c, true, killed), maximumJobs, c);
  }

  lemma OpenedKeeps(w: World, maximumJobs: int, c: nat, sent: bool, killed: bool)
    requires Sane(w, maximumJobs) && Enabled(w, GateOpens(c, sent, killed))
    ensures Sane(Opened(w, c, sent, killed), maximumJobs)
  {
    match w.sync.calls[c].operation
    case StartOp => AwaitOrPauseKeeps(w, maximumJobs, c, killed);
    case PauseOp => PauseOpenedKeeps(w, maximumJobs, c, sent);
    case ResumeOp => ResumeOpenedKeeps(w, maximumJobs, c, sent, killed);
    case CancelOp => CancelOpenedKeeps(w, maximumJobs, c, killed);
  }

  lemma ResumedKeeps(w: World, maximumJobs: int, c: nat, j: nat, sent: bool)
    requires Sane(w, maximumJobs) && c < |w.sync.calls| && j < |w.reg.jobs|
    ensures Sane(w.(reg := Resumed(w.reg, j, sent)), maximumJobs)
  {
    SignalKeeps(w.reg, j, false);
    CallFineKeeps(w.reg, Resumed(w.reg, j, sent), maximumJobs, w.sync.calls[c]);
    MoveKeepsSane(w, w.(reg := Resumed(w.reg, j, sent)), maximumJobs, c);
  }

  lemma CleanedUpKeeps(w: World, maximumJobs: int, c: nat)
    requires Sane(w, maximumJobs) && c < |w.sync.calls| && w.sync.calls[c].Inside?
    ensures CallFine(w.reg, maximumJobs, w.sync.calls[c]) && Sane(CleanedUp(w, c), maximumJobs)
  {
    var call := w.sync.calls[c];
    assert w.sync.CallOk(call) && CallFine(w.reg, maximumJobs, call);
    CleanupKeeps(w.reg, call.job);
    MoveKeeps(w.sync, c, Inside(call.job, call.ticket, Removing));
    MoveKeepsSane(w, CleanedUp(w, c), maximumJobs, c);
  }

  lemma RaceOverKeeps(w: World, maximumJobs: int, c: nat, slice: bool, sent: bool)
    requires Sane(w, maximumJobs) && Enabled(w, RaceOver(c, slice, sent))
    ensures Sane(Apply(w, maximumJobs, RaceOver(c, slice, sent)), maximumJobs)
  {
    var t, call := Apply(w, maximumJobs, RaceOver(c, slice, sent)), w.sync.calls[c];
    assert w.sync.CallOk(call);
    EndUseKeeps(w.sync, c);
    SignalKeeps(w.reg, call.job, true);
    MoveKeeps(w.sync, c, Inside(call.job, call.ticket, Reading));
    MoveKeepsSane(w, t, maximumJobs, c);
  }

  lemma ExitKeepsSane(w: World, maximumJobs: int, j: nat, coded: bool)
    requires Sane(w, maximumJobs) && j < |w.reg.jobs| && !w.reg.jobs[j].exited
    ensures Sane(w.(reg := ChildExit(w.reg, j, coded)), maximumJobs)
  {
    ExitKeeps(w.reg, j, coded);
    var t := w.(reg := ChildExit(w.reg, j, coded));
    QuieterCount(w.reg, t.reg);
    forall d | 0 <= d < |t.sync.calls| ensures CallFine(t.reg, maximumJobs, t.sync.calls[d]) {
      CallFineKeeps(w.reg, t.reg, maximumJobs, w.sync.calls[d]);
    }
  }

  lemma ExpireKeepsSane(w: World, maximumJobs: int, j: nat)
    requires Sane(w, maximumJobs) && j < |w.reg.jobs|
    ensures Sane(w.(reg := Expire(w.reg, j)), maximumJobs)
  {
    ExpireKeeps(w.reg, j);
    var t := w.(reg := Expire(w.reg, j));
    QuieterCount(w.reg, t.reg);
    forall d | 0 <= d < |t.sync.calls| ensures CallFine(t.reg, maximumJobs, t.sync.calls[d]) {
      CallFineKeeps(w.reg, t.reg, maximumJobs, w.sync.calls[d]);
    }
  }

  lemma NewCallKeeps(w: World, maximumJobs: int, step: Step)
    requires Sane(w, maximumJobs) && Enabled(w, step) && !step.OfCall()
    ensures Sane(Apply(w, maximumJobs, step), maximumJobs)
  {
    match step
    case NewStart(r) =>
      QueueStartKeeps(w.sync, r);
      MoveKeepsSane(w, Apply(w, maximumJobs, step), maximumJobs, |w.sync.calls|);
    case NewPause(r) => LookedUpKeeps(w, maximumJobs, Find(w.reg.byRunId, r), PauseOp);
    case NewResume(k) => LookedUpKeeps(w, maximumJobs, Find(w.reg.byToken, k), ResumeOp);
    case NewCancel(r) => LookedUpKeeps(w, maximumJobs, Find(w.reg.byRunId, r), CancelOp);
    case ChildExits(j, coded) => ExitKeepsSane(w, maximumJobs, j, coded);
    case DeadlinePasses(j) => ExpireKeepsSane(w, maximumJobs, j);
  }

  /** A call that leaves the start section, enters its job's queue or leaves its gate. */
  lemma PassageKeeps(w: World, maximumJobs: int, step: Step)
    requires Sane(w, maximumJobs) && Enabled(w, step) && (step.SpawnFails? || step.Enters? || step.Removed?)
    ensures Sane(Apply(w, maximumJobs, step), maximumJobs)
  {
    match step {
      case SpawnFails(c) => EndStartKeeps(w.sync, c, Done);
      case Enters(c) => EnterQueueKeeps(w.sync, c);
      case Removed(c) => EndUseKeeps(w.sync, c);
    }
    MoveKeepsSane(w, Apply(w, maximumJobs, step), maximumJobs, step.call);
  }

  lemma StepKeeps(w: World, maximumJobs: int, step: Step)
    requires Sane(w, maximumJobs) && Enabled(w, step)
    ensures Sane(Apply(w, maximumJobs, step), maximumJobs)
  {
    if !step.OfCall() {
      NewCallKeeps(w, maximumJobs, step);
    } else if step.SpawnFails? || step.Enters? || step.Removed? {
      PassageKeeps(w, maximumJobs, step);
    } else {
      match step
      case StartBegins(c, decodes) => StartSectionKeeps(w, maximumJobs, c, decodes);
      case SpawnReturns(c, token) => SpawnReturnsKeeps(w, maximumJobs, c, token);
      case Registers(c) => RegistersKeeps(w, maximumJobs, c);
      case GateOpens(c, sent, killed) => OpenedKeeps(w, maximumJobs, c, sent, killed);
      case KilledChildExited(c) => CleanedUpKeeps(w, maximumJobs, c);
      case CancelWaitOver(c) => CleanedUpKeeps(w, maximumJobs, c);
      case RaceOver(c, slice, sent) => RaceOverKeeps(w, maximumJobs, c, slice, sent);
      case ResultRead(c) => CleanedUpKeeps(w, maximumJobs, c);
    }
  }

  // ---------------------------------------------------------------- every run

  /** A run of the controller: worlds[n] is the state after the first n steps. */
  ghost predicate IsRun(maximumJobs: int, worlds: seq<World>, steps: seq<Step>) {
    && |worlds| == |steps| + 1 && worlds[0] == START
    && forall n :: 0 <= n < |steps| ==>
         Enabled(worlds[n], steps[n]) && worlds[n + 1] == Apply(worlds[n], maximumJobs, steps[n])
  }

  lemma StartSane(maximumJobs: int)
    ensures Sane(START, maximumJobs)
  {}

  lemma {:induction false} RunKeeps(maximumJobs: int, worlds: seq<World>, steps: seq<Step>, n: nat)
    requires IsRun(maximumJobs, worlds, steps) && n < |worlds|
    ensures Sane(worlds[n], maximumJobs)
  {
    StartSane(maximumJobs);
    if n > 0 {
      RunKeeps(maximumJobs, worlds, steps, n - 1);
      StepKeeps(worlds[n - 1], maximumJobs, steps[n - 1]);
    }
  }

  /** In every reachable state: at most maximumJobs indexed runs have a job without exit
      code, every job in the run index is in the token index, and a job is marked paused
      exactly while it is stopped. */
  lemma ControllerSafe(maximumJobs: int, worlds: seq<World>, steps: seq<Step>, n: nat)
    requires IsRun(maximumJobs, worlds, steps) && n < |worlds|
    ensures |worlds[n].reg.Active()| <= Limit(maximumJobs)
    ensures forall r :: r in worlds[n].reg.byRunId ==>
      && worlds[n].reg.byRunId[r] < |worlds[n].reg.jobs|
      && worlds[n].reg.jobs[worlds[n].reg.byRunId[r]].runId == r
      && worlds[n].reg.Tracked(worlds[n].reg.byRunId[r])
    ensures forall j :: 0 <= j < |worlds[n].reg.jobs| ==> worlds[n].reg.jobs[j].paused == worlds[n].reg.jobs[j].stopped
  {
    RunKeeps(maximumJobs, worlds, steps, n);
  }

  /** In every reachable state: of two calls at the gate of one job, one of which is inside,
      the other waits and came later; and at most one call is starting a run. */
  lemma OneOperationAtATime(maximumJobs: int, worlds: seq<World>, steps: seq<Step>, n: nat, c: nat, d: nat)
    requires IsRun(maximumJobs, worlds, steps) && n < |worlds|
    requires c < |worlds[n].sync.calls| && d < |worlds[n].sync.calls| && c != d
    ensures var x, y := worlds[n].sync.calls[c], worlds[n].sync.calls[d];
      && (x.Starting() ==> !y.Starting())
      && (x.Inside? && (y.Inside? || y.Queued?) && x.job == y.job ==> y.Queued? && x.ticket < y.ticket)
  {
    RunKeeps(maximumJobs, worlds, steps, n);
    var s := worlds[n].sync;
    var x, y := s.calls[c], s.calls[d];
    if x.Starting() {
      OneStarting(s, c, d);
    }
    if x.Inside? && (y.Inside? || y.Queued?) && x.job == y.job {
      OneInsideGate(s, c, d);
    }
  }

  /** The conditions on places and numbers exclude nothing: they hold of every call of every
      reachable state, and a new call is always possible. */
  lemma NothingExcluded(maximumJobs: int, worlds: seq<World>, steps: seq<Step>, n: nat)
    requires IsRun(maximumJobs, worlds, steps) && n < |worlds|
    ensures forall c :: 0 <= c < |worlds[n].sync.calls| ==> Known(worlds[n], worlds[n].sync.calls[c])
    ensures forall r :: Enabled(worlds[n], NewPause(r)) && Enabled(worlds[n], NewCancel(r))
    ensures forall t :: Enabled(worlds[n], NewResume(t))
  {
    var w := worlds[n];
    RunKeeps(maximumJobs, worlds, steps, n);
    forall c | 0 <= c < |w.sync.calls| ensures Known(w, w.sync.calls[c]) {
      assert w.sync.CallOk(w.sync.calls[c]) && CallFine(w.reg, maximumJobs, w.sync.calls[c]);
    }
  }
}
