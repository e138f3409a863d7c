/** When messages of a conversation are refused, and when that never ends. */
module TurnRefusal {
  import Agent
  import opened TurnAdmission

  /** The handling keeps its conversation marked as in flight. */
  predicate Holder(h: Handling, conversation: string) {
    h.Holds() && ConversationOf(h.message) == conversation
  }

  ghost predicate Held(s: Runtime, conversation: string) {
    exists h :: 0 <= h < |s.handlings| && Holder(s.handlings[h], conversation)
  }

  ghost predicate MarksHeld(s: Runtime) {
    forall c :: c in s.inflight ==> Held(s, c)
  }

  lemma MarkStays(s: Runtime, t: Runtime, h: nat, c: string)
    requires h < |s.handlings| <= |t.handlings| && Held(s, c)
    requires forall k :: 0 <= k < |s.handlings| && k != h ==> t.handlings[k] == s.handlings[k]
    requires Holder(s.handlings[h], c) ==> Holder(t.handlings[h], c)
    ensures Held(t, c)
  {
    var k :| 0 <= k < |s.handlings| && Holder(s.handlings[k], c);
    assert Holder(t.handlings[k], c);
  }

  lemma MarksKeep(a: Agent.Setting, s: Runtime, step: Step)
    requires MarksHeld(s) && Enabled(a, s, step)
    ensures MarksHeld(Apply(a, s, step))
  {
    var t := Apply(a, s, step);
    forall c | c in t.inflight ensures Held(t, c) {
      if step.Arrives? {
        var k :| 0 <= k < |s.handlings| && Holder(s.handlings[k], c);
        assert Holder(t.handlings[k], c);
      } else if c in s.inflight {
        MarkStays(s, t, step.handling, c);
      } else {
        assert Holder(t.handlings[step.handling], c);
      }
    }
  }

  /** In every reachable state a conversation is marked exactly if a turn of it runs, or has
      ended and its answer is not yet delivered, or a handling of it is stuck. */
  lemma {:induction false} InflightExact(a: Agent.Setting, states: seq<Runtime>, steps: seq<Step>, n: nat, c: string)
    requires IsRun(a, states, steps) && n < |states|
    ensures MarksHeld(states[n])
    ensures c in states[n].inflight <==> Held(states[n], c)
  {
    if n > 0 {
      InflightExact(a, states, steps, n - 1, c);
      MarksKeep(a, states[n - 1], steps[n - 1]);
    }
    RunKeeps(a, states, steps, n);
  }

  /** A message is refused exactly while its conversation is held. */
  lemma RefusedExactly(a: Agent.Setting, states: seq<Runtime>, steps: seq<Step>, n: nat, h: nat)
    requires IsRun(a, states, steps) && n < |steps| && steps[n] == ResponseBegins(h)
    ensures h < |states[n].handlings| && h < |states[n + 1].handlings|
    ensures states[n + 1].handlings[h].Refused? <==> Held(states[n], ConversationOf(states[n].handlings[h].message))
  {
    assert Enabled(a, states[n], steps[n]);
    InflightExact(a, states, steps, n, ConversationOf(states[n].handlings[h].message));
  }

  // ---------------------------------------------------------------- for good

  predicate IsStuck(h: Handling, conversation: string) {
    h.Stuck? && ConversationOf(h.message) == conversation
  }

  ghost predicate StuckIn(s: Runtime, conversation: string) {
    exists h :: 0 <= h < |s.handlings| && IsStuck(s.handlings[h], conversation)
  }

  /** An exception after the mark and before the try block. */
  predicate Strands(s: Runtime, step: Step, conversation: string) {
    && step.SetupFails? && step.marked && step.handling < |s.handlings|
    && ConversationOf(s.handlings[step.handling].message) == conversation
  }

  lemma StuckStep(a: Agent.Setting, s: Runtime, step: Step, c: string)
    requires Enabled(a, s, step)
    ensures StuckIn(Apply(a, s, step), c) <==> StuckIn(s, c) || Strands(s, step, c)
  {
    var t := Apply(a, s, step);
    if StuckIn(s, c) {
      var h :| 0 <= h < |s.handlings| && IsStuck(s.handlings[h], c);
      assert IsStuck(t.handlings[h], c);
    }
    if Strands(s, step, c) {
      assert IsStuck(t.handlings[step.handling], c);
    }
    if StuckIn(t, c) {
      var h :| 0 <= h < |t.handlings| && IsStuck(t.handlings[h], c);
      assert h < |s.handlings|;
      assert IsStuck(s.handlings[h], c) || (step.SetupFails? && step.handling == h);
    }
  }

  ghost predicate Stranded(states: seq<Runtime>, steps: seq<Step>, n: nat, c: string)
    requires n <= |steps| && n < |states|
  {
    exists m :: 0 <= m < n && Strands(states[m], steps[m], c)
  }

  /** A conversation is stuck exactly if such an exception has happened in it. */
  lemma {:induction false} StuckExactly(a: Agent.Setting, states: seq<Runtime>, steps: seq<Step>, n: nat, c: string)
    requires IsRun(a, states, steps) && n < |states|
    ensures StuckIn(states[n], c) <==> Stranded(states, steps, n, c)
  {
    if n > 0 {
      StuckExactly(a, states, steps, n - 1, c);
      StuckStep(a, states[n - 1], steps[n - 1], c);
      if Stranded(states, steps, n - 1, c) {
        var m :| 0 <= m < n - 1 && Strands(states[m], steps[m], c);
        assert Strands(states[m], steps[m], c);
      }
    }
  }

  /** Once stuck, a conversation has no turn any more: from then on every message of it is
      refused. */
  lemma {:induction false} StuckForGood(a: Agent.Setting, states: seq<Runtime>, steps: seq<Step>, n: nat, m: nat,
                                        c: string)
    requires IsRun(a, states, steps) && n <= m < |states| && StuckIn(states[n], c)
    ensures StuckIn(states[m], c) && c in states[m].inflight
    decreases m
  {
    if m > n {
      StuckForGood(a, states, steps, n, m - 1, c);
      StuckStep(a, states[m - 1], steps[m - 1], c);
    }
    var k :| 0 <= k < |states[m].handlings| && IsStuck(states[m].handlings[k], c);
    assert Holder(states[m].handlings[k], c);
    InflightExact(a, states, steps, m, c);
  }

  /** While it is not stuck, a conversation that is refused can become free: its running turn
      fails or has ended, and the answer is delivered. */
  lemma NotStuckCanEnd(a: Agent.Setting, s: Runtime, c: string)
    returns (first: Runtime, last: Runtime, steps: seq<Step>)
    requires Inv(s) && c in s.inflight && MarksHeld(s) && !StuckIn(s, c)
    ensures |steps| == 2 && c !in last.inflight
    ensures first == s || (Enabled(a, s, steps[0]) && first == Apply(a, s, steps[0]))
    ensures Enabled(a, first, steps[1]) && last == Apply(a, first, steps[1])
  {
    var h :| 0 <= h < |s.handlings| && Holder(s.handlings[h], c);
    assert !IsStuck(s.handlings[h], c);
    steps := [TurnFails(h), Delivered(h)];
    first := if s.handlings[h].Running? then Apply(a, s, steps[0]) else s;
    last := Apply(a, first, steps[1]);
  }

  /** A run to a conversation that is refused for good: its first message is stranded, its
      second is refused. */
  lemma SecondMessageRefused(a: Agent.Setting, m: Inbound, later: Inbound)
    returns (states: seq<Runtime>, steps: seq<Step>)
    requires m.id != later.id && ConversationOf(m) == ConversationOf(later)
    ensures IsRun(a, states, steps)
    ensures steps == [Arrives(m), SetupFails(0, true), Arrives(later), ResponseBegins(1)]
    ensures StuckIn(states[2], ConversationOf(m)) && states[4].handlings == [Stuck(m), Refused(later)]
  {
    var c := ConversationOf(m);
    steps := [Arrives(m), SetupFails(0, true), Arrives(later), ResponseBegins(1)];
    var s1 := Runtime({m.id}, {}, map[], [Responding(m)], []);
    var s2 := Runtime({m.id}, {c}, map[], [Stuck(m)], []);
    var s3 := Runtime({m.id, later.id}, {c}, map[], [Stuck(m), Responding(later)], []);
    var s4 := Runtime({m.id, later.id}, {c}, map[], [Stuck(m), Refused(later)], []);
    states := [BOOTED, s1, s2, s3, s4];
    assert s1 == Apply(a, BOOTED, steps[0]) && s2 == Apply(a, s1, steps[1]);
    assert s3 == Apply(a, s2, steps[2]) && s4 == Apply(a, s3, steps[3]);
    assert IsStuck(s2.handlings[0], c);
  }
}
