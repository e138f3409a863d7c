/** The calls in flight on the job controller and the gates they queue at. */
module JobCalls {
  import opened Wrappers
  import opened SerialGates

  datatype Operation = StartOp | PauseOp | ResumeOp | CancelOp

  /** What a call inside a job's gate is waiting for. */
  datatype Wait =
    | Killing      // the killed child's exit, after the deadline
    | Racing       // the child's exit or the end of the slice
    | Reading      // the result file
    | Cancelling   // the killed child's exit or the cancel timeout
    | Removing     // the removal of the job's directory

  /** Where a call stands. A ticket is its place in the start gate or in a job's gate. */
  datatype Call =
    | StartQueued(runId: string, ticket: nat)
    | Spawning(runId: string, ticket: nat)
    | Spawned(job: nat, ticket: nat)
    | Entering(job: nat)
    | Queued(job: nat, ticket: nat, operation: Operation)
    | Inside(job: nat, ticket: nat, wait: Wait)
    | Done
  {
    /** Its place in the start gate, if it has one. */
    function StartPlace(): Option<nat> {
      if StartQueued? || Spawning? || Spawned? then Some(ticket) else None
    }

    /** Its place in the gate of a job, if it has one. */
    function GatePlace(): Option<(nat, nat)> {
      if Queued? || Inside? then Some((job, ticket)) else None
    }

    /** Inside the section that the start gate guards. */
    predicate Starting() {
      Spawning? || Spawned?
    }
  }

  datatype Sync = Sync(startGate: Gate, gates: seq<Gate>, calls: seq<Call>) {

    /** A call that waits at a gate has a waiting use there, one that is inside a running one. */
    ghost predicate CallOk(call: Call) {
      match call
      case StartQueued(_, t) => t < |startGate.uses| && startGate.uses[t].Waiting?
      case Spawning(_, t) => startGate.IsRunning(t)
      case Spawned(j, t) => startGate.IsRunning(t) && j < |gates|
      case Entering(j) => j < |gates|
      case Queued(j, t, _) => j < |gates| && t < |gates[j].uses| && gates[j].uses[t].Waiting?
      case Inside(j, t, _) => j < |gates| && gates[j].IsRunning(t)
      case Done => true
    }

    /** No other call has this call's place. */
    ghost predicate PlaceFree(c: nat, call: Call) {
      forall d :: 0 <= d < |calls| && d != c ==>
        && (call.StartPlace().Some? ==> calls[d].StartPlace() != call.StartPlace())
        && (call.GatePlace().Some? ==> calls[d].GatePlace() != call.GatePlace())
    }

    ghost predicate Valid() {
      && startGate.Valid() && (forall j :: 0 <= j < |gates| ==> gates[j].Valid())
      && (forall c :: 0 <= c < |calls| ==> CallOk(calls[c]))
      && forall c :: 0 <= c < |calls| ==> PlaceFree(c, calls[c])
    }

    function AddCall(call: Call): Sync {
      this.(calls := calls + [call])
    }

    function SetCall(c: nat, call: Call): Sync
      requires c < |calls|
    {
      this.(calls := calls[c := call])
    }

    function AddGate(): Sync {
      this.(gates := gates + [NEW_GATE])
    }

    function ArriveAt(j: nat): Sync
      requires j < |gates|
    {
      this.(gates := gates[j := gates[j].Arrived()])
    }
  }

  // ---------------------------------------------------------------- moves between places

  function QueueStart(s: Sync, runId: string): Sync {
    s.(startGate := s.startGate.Arrived()).AddCall(StartQueued(runId, |s.startGate.uses|))
  }

  function QueueUse(s: Sync, j: nat, operation: Operation): Sync
    requires j < |s.gates|
  {
    s.ArriveAt(j).AddCall(Queued(j, |s.gates[j].uses|, operation))
  }

  function EnterQueue(s: Sync, c: nat): Sync
    requires c < |s.calls| && s.calls[c].Entering? && s.calls[c].job < |s.gates|
  {
    var j := s.calls[c].job;
    s.ArriveAt(j).SetCall(c, Queued(j, |s.gates[j].uses|, StartOp))
  }

  function BeginStart(s: Sync, c: nat): Sync
    requires c < |s.calls| && s.calls[c].StartQueued? && s.calls[c].ticket < |s.startGate.uses|
  {
    var call := s.calls[c];
    s.(startGate := s.startGate.Begun(call.ticket)).SetCall(c, Spawning(call.runId, call.ticket))
  }

  function EndStart(s: Sync, c: nat, next: Call): Sync
    requires c < |s.calls| && s.calls[c].Starting() && s.calls[c].ticket < |s.startGate.uses|
  {
    s.(startGate := s.startGate.Ended(s.calls[c].ticket)).SetCall(c, next)
  }

  function BeginUse(s: Sync, c: nat, wait: Wait): Sync
    requires c < |s.calls| && s.calls[c].Queued?
    requires s.calls[c].job < |s.gates| && s.calls[c].ticket < |s.gates[s.calls[c].job].uses|
  {
    var call := s.calls[c];
    s.(gates := s.gates[call.job := s.gates[call.job].Begun(call.ticket)])
     .SetCall(c, Inside(call.job, call.ticket, wait))
  }

  function EndUse(s: Sync, c: nat): Sync
    requires c < |s.calls| && s.calls[c].Inside?
    requires s.calls[c].job < |s.gates| && s.calls[c].ticket < |s.gates[s.calls[c].job].uses|
  {
    var call := s.calls[c];
    s.(gates := s.gates[call.job := s.gates[call.job].Ended(call.ticket)]).SetCall(c, Done)
  }

  /** Replacing one call keeps the places apart when the new one keeps its place, gives it
      up, or takes one that nobody has. */
  lemma SetCallKeeps(s: Sync, t: Sync, c: nat, next: Call)
    requires s.Valid() && c < |s.calls| && t.calls == s.calls[c := next]
    requires t.startGate.Valid() && forall j :: 0 <= j < |t.gates| ==> t.gates[j].Valid()
    requires t.CallOk(next) && s.PlaceFree(c, next)
    requires forall d :: 0 <= d < |s.calls| && d != c ==> t.CallOk(s.calls[d])
    ensures t.Valid()
  {}

  lemma AddCallKeeps(s: Sync, t: Sync, next: Call)
    requires s.Valid() && t.calls == s.calls + [next]
    requires t.startGate.Valid() && forall j :: 0 <= j < |t.gates| ==> t.gates[j].Valid()
    requires t.CallOk(next) && s.PlaceFree(|s.calls|, next)
    requires forall d :: 0 <= d < |s.calls| ==> t.CallOk(s.calls[d])
    ensures t.Valid()
  {}

  lemma QueueStartKeeps(s: Sync, runId: string)
    requires s.Valid()
    ensures QueueStart(s, runId).Valid()
  {
    var t := QueueStart(s, runId);
    ArriveKeeps(s.startGate);
    forall d | 0 <= d < |s.calls| ensures t.CallOk(s.calls[d]) {
      assert s.CallOk(s.calls[d]);
    }
    AddCallKeeps(s, t, StartQueued(runId, |s.startGate.uses|));
  }

  lemma QueueUseKeeps(s: Sync, j: nat, operation: Operation)
    requires s.Valid() && j < |s.gates|
    ensures QueueUse(s, j, operation).Valid()
  {
    var t := QueueUse(s, j, operation);
    ArriveKeeps(s.gates[j]);
    forall d | 0 <= d < |s.calls| ensures t.CallOk(s.calls[d]) {
      assert s.CallOk(s.calls[d]);
    }
    AddCallKeeps(s, t, Queued(j, |s.gates[j].uses|, operation));
  }

  lemma EnterQueueKeeps(s: Sync, c: nat)
    requires s.Valid() && c < |s.calls| && s.calls[c].Entering?
    ensures s.calls[c].job < |s.gates| && EnterQueue(s, c).Valid()
  {
    assert s.CallOk(s.calls[c]);
    var t, j := EnterQueue(s, c), s.calls[c].job;
    ArriveKeeps(s.gates[j]);
    forall d | 0 <= d < |s.calls| ensures t.CallOk(s.calls[d]) {
      assert s.CallOk(s.calls[d]);
    }
    SetCallKeeps(s, t, c, Queued(j, |s.gates[j].uses|, StartOp));
  }

  lemma BeginStartKeeps(s: Sync, c: nat)
    requires s.Valid() && c < |s.calls| && s.calls[c].StartQueued? && s.startGate.CanBegin(s.calls[c].ticket)
    ensures BeginStart(s, c).Valid()
    ensures forall d :: 0 <= d < |s.calls| ==> !s.calls[d].Starting()
  {
    var t, call := BeginStart(s, c), s.calls[c];
    BeginKeeps(s.startGate, call.ticket);
    forall d | 0 <= d < |s.calls| && d != c ensures t.CallOk(s.calls[d]) {
      assert s.CallOk(s.calls[d]) && s.PlaceFree(c, call);
    }
    forall d | 0 <= d < |s.calls| ensures !s.calls[d].Starting() {
      assert s.CallOk(s.calls[d]) && s.CallOk(call);
      if s.calls[d].Starting() {
        OneAtATime(s.startGate, s.calls[d].ticket, call.ticket);
        assert false;
      }
    }
    assert s.PlaceFree(c, call);
    SetCallKeeps(s, t, c, Spawning(call.runId, call.ticket));
  }

  lemma EndStartKeeps(s: Sync, c: nat, next: Call)
    requires s.Valid() && c < |s.calls| && s.calls[c].Starting()
    requires next == Done || (next.Entering? && next.job < |s.gates|)
    ensures s.startGate.IsRunning(s.calls[c].ticket) && EndStart(s, c, next).Valid()
  {
    var call := s.calls[c];
    assert s.CallOk(call);
    var t := EndStart(s, c, next);
    EndKeeps(s.startGate, call.ticket);
    forall d | 0 <= d < |s.calls| && d != c ensures t.CallOk(s.calls[d]) {
      assert s.CallOk(s.calls[d]) && s.PlaceFree(c, call);
    }
    SetCallKeeps(s, t, c, next);
  }

  lemma BeginUseKeeps(s: Sync, c: nat, wait: Wait)
    requires s.Valid() && c < |s.calls| && s.calls[c].Queued?
    requires s.calls[c].job < |s.gates| && s.gates[s.calls[c].job].CanBegin(s.calls[c].ticket)
    ensures BeginUse(s, c, wait).Valid()
  {
    var t, call := BeginUse(s, c, wait), s.calls[c];
    BeginKeeps(s.gates[call.job], call.ticket);
    assert s.PlaceFree(c, call);
    forall d | 0 <= d < |s.calls| && d != c ensures t.CallOk(s.calls[d]) {
      assert s.CallOk(s.calls[d]);
    }
    SetCallKeeps(s, t, c, Inside(call.job, call.ticket, wait));
  }

  lemma MoveKeeps(s: Sync, c: nat, next: Call)
    requires s.Valid() && c < |s.calls| && s.CallOk(next)
    requires next.StartPlace() == s.calls[c].StartPlace() && next.GatePlace() == s.calls[c].GatePlace()
    ensures s.SetCall(c, next).Valid()
  {
    assert s.PlaceFree(c, s.calls[c]);
    forall d | 0 <= d < |s.calls| ensures s.SetCall(c, next).CallOk(s.calls[d]) {
      assert s.CallOk(s.calls[d]);
    }
    SetCallKeeps(s, s.SetCall(c, next), c, next);
  }

  lemma EndUseKeeps(s: Sync, c: nat)
    requires s.Valid() && c < |s.calls| && s.calls[c].Inside?
    ensures s.calls[c].job < |s.gates| && s.gates[s.calls[c].job].IsRunning(s.calls[c].ticket)
    ensures EndUse(s, c).Valid()
  {
    var call := s.calls[c];
    assert s.CallOk(call);
    var t := EndUse(s, c);
    EndKeeps(s.gates[call.job], call.ticket);
    assert s.PlaceFree(c, call);
    forall d | 0 <= d < |s.calls| && d != c ensures t.CallOk(s.calls[d]) {
      assert s.CallOk(s.calls[d]);
    }
    SetCallKeeps(s, t, c, Done);
  }

  lemma AddGateKeeps(s: Sync)
    requires s.Valid()
    ensures s.AddGate().Valid()
  {
    NewGateValid();
    forall c | 0 <= c < |s.calls|
      ensures s.AddGate().CallOk(s.calls[c]) && s.AddGate().PlaceFree(c, s.calls[c])
    {
      assert s.CallOk(s.calls[c]) && s.PlaceFree(c, s.calls[c]);
    }
  }

  // ---------------------------------------------------------------- exclusion

  /** At most one call is inside the gate of a job, and every other call at that gate came
      later. */
  lemma OneInsideGate(s: Sync, c: nat, d: nat)
    requires s.Valid() && c < |s.calls| && d < |s.calls| && c != d
    requires s.calls[c].Inside? && (s.calls[d].Inside? || s.calls[d].Queued?) && s.calls[d].job == s.calls[c].job
    ensures s.calls[d].Queued? && s.calls[c].ticket < s.calls[d].ticket
  {}

  /** At most one call is inside the start gate. */
  lemma OneStarting(s: Sync, c: nat, d: nat)
    requires s.Valid() && c < |s.calls| && d < |s.calls| && c != d
    requires s.calls[c].Starting()
    ensures !s.calls[d].Starting()
  {}
}
