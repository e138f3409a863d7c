/** What the history of a conversation keeps of everything that was said in it, over every
    interleaving of turns. */
module TurnHistory {
  import Agent
  import opened TurnAdmission

  /** Everything that the turns of a conversation added since the last one that retained
      nothing, uncut and unredacted. */
  function Full(turns: seq<Ended>, conversation: string): seq<Agent.Message> {
    if turns == [] then []
    else
      var before, last := Full(turns[..|turns| - 1], conversation), turns[|turns| - 1];
      if last.conversation != conversation then before
      else if !last.retain then []
      else before + last.exchange.GetOr([])
  }

  // ---------------------------------------------------------------- remembering step by step

  function Kept(n: nat): nat {
    if n <= Agent.MAX_HISTORY_MESSAGES then n else Agent.MAX_HISTORY_MESSAGES
  }

  lemma RememberedAt(messages: seq<Agent.Message>, remembered: seq<Agent.Message>, i: nat)
    requires remembered == Agent.Remembered(messages) && i < Kept(|messages|)
    ensures |remembered| == Kept(|messages|)
    ensures remembered[i] == Agent.Redacted(messages[|messages| - Kept(|messages|) + i])
  {
    Agent.RememberedBounded(messages);
  }

  lemma RememberedSize(messages: seq<Agent.Message>, remembered: seq<Agent.Message>)
    requires remembered == Agent.Remembered(messages)
    ensures |remembered| == Kept(|messages|)
  {
    Agent.RememberedBounded(messages);
  }

  /** Message k of the longer list, seen through what was remembered. */
  lemma SeenThrough(all: seq<Agent.Message>, kept: seq<Agent.Message>, more: seq<Agent.Message>, k: nat)
    requires kept == Agent.Remembered(all) && |all| - Kept(|all|) <= k < |all| + |more|
    ensures |kept| == Kept(|all|)
    ensures Agent.Redacted((kept + more)[k - (|all| - |kept|)]) == Agent.Redacted((all + more)[k])
  {
    RememberedSize(all, kept);
    if k < |all| {
      RememberedAt(all, kept, k - (|all| - |kept|));
    }
  }

  lemma RememberedAppendAt(all: seq<Agent.Message>, kept: seq<Agent.Message>, more: seq<Agent.Message>,
                           a: seq<Agent.Message>, b: seq<Agent.Message>, i: nat)
    requires kept == Agent.Remembered(all) && a == Agent.Remembered(kept + more) && b == Agent.Remembered(all + more)
    requires i < |b|
    ensures |a| == |b| && a[i] == b[i]
  {
    RememberedSize(all, kept);
    RememberedSize(kept + more, a);
    RememberedSize(all + more, b);
    RememberedAt(kept + more, a, i);
    RememberedAt(all + more, b, i);
    SeenThrough(all, kept, more, |all| + |more| - |b| + i);
  }

  /** Remembering what was remembered and something new, is remembering all of it. */
  lemma RememberedAppend(all: seq<Agent.Message>, more: seq<Agent.Message>)
    ensures Agent.Remembered(Agent.Remembered(all) + more) == Agent.Remembered(all + more)
  {
    var kept := Agent.Remembered(all);
    var a, b := Agent.Remembered(kept + more), Agent.Remembered(all + more);
    RememberedSize(all, kept);
    RememberedSize(kept + more, a);
    RememberedSize(all + more, b);
    forall i | 0 <= i < |b|
      ensures a[i] == b[i]
    {
      RememberedAppendAt(all, kept, more, a, b, i);
    }
  }

  lemma {:induction false} SequentialRemembers(turns: seq<Ended>, conversation: string)
    ensures Sequential(turns, conversation) == Agent.Remembered(Full(turns, conversation))
  {
    Agent.RememberedBounded([]);
    if turns != [] {
      var before, last := turns[..|turns| - 1], turns[|turns| - 1];
      SequentialRemembers(before, conversation);
      if last.exchange.Some? {
        RememberedAppend(Full(before, conversation), last.exchange.value);
      } else {
        assert Full(before, conversation) + [] == Full(before, conversation);
      }
    }
  }

  // ---------------------------------------------------------------- every turn adds a dialogue

  ghost predicate ExchangesPaired(turns: seq<Ended>) {
    forall i :: 0 <= i < |turns| && turns[i].exchange.Some? ==> Agent.Dialogue(turns[i].exchange.value)
  }

  lemma ExchangePaired(a: Agent.Setting, script: seq<Agent.Round>, input: string)
    requires Agent.Fits(script) && Agent.EndingOf(a, script, input).Said?
    ensures Agent.Dialogue(Agent.Exchange(a, script, input))
  {
    Agent.EveryTurn(a, script, [], input);
    var exchange := Agent.Exchange(a, script, input);
    assert [] + [Agent.User(input)] == [Agent.User(input)] && exchange[0..] == exchange;
  }

  lemma {:induction false} RunPairs(a: Agent.Setting, states: seq<Runtime>, steps: seq<Step>, n: nat)
    requires IsRun(a, states, steps) && n < |states|
    ensures ExchangesPaired(states[n].ended)
  {
    if n > 0 {
      RunPairs(a, states, steps, n - 1);
      StepPairs(a, states[n - 1], steps[n - 1]);
    }
  }

  lemma StepPairs(a: Agent.Setting, s: Runtime, step: Step)
    requires ExchangesPaired(s.ended) && Enabled(a, s, step)
    ensures ExchangesPaired(Apply(a, s, step).ended)
  {
    if step.TurnSucceeds? {
      ExchangePaired(a, step.script, s.handlings[step.handling].message.text);
    }
  }

  lemma {:induction false} FullDialogue(turns: seq<Ended>, conversation: string)
    requires ExchangesPaired(turns)
    ensures Agent.Dialogue(Full(turns, conversation))
  {
    if turns != [] {
      var before, last := turns[..|turns| - 1], turns[|turns| - 1];
      FullDialogue(before, conversation);
      Agent.DialogueConcat(Full(before, conversation), last.exchange.GetOr([]));
    }
  }

  // ---------------------------------------------------------------- every run

  /** The cut falls between an answer that calls tools and its outputs, or between outputs. */
  predicate CutsCalls(full: seq<Agent.Message>) {
    |full| > Agent.MAX_HISTORY_MESSAGES && full[|full| - Agent.MAX_HISTORY_MESSAGES].Tool?
  }

  /** In every interleaving, whatever was cut before: the history of a conversation is what is
      remembered of everything said in it, and it pairs calls and answers if and only if the
      fortieth message from the end of all that is no tool message. The same holds of what a
      running turn that retains its history works on. */
  lemma HistoryPairs(a: Agent.Setting, states: seq<Runtime>, steps: seq<Step>, n: nat, conversation: string)
    requires IsRun(a, states, steps) && n < |states|
    ensures var s, full := states[n], Full(states[n].ended, conversation);
      && Agent.Dialogue(full)
      && (!Dropped(s, conversation) ==>
          && Agent.HistoryOf(s.history, conversation) == Agent.Remembered(full)
          && (Agent.Dialogue(Agent.HistoryOf(s.history, conversation)) <==> !CutsCalls(full)))
      && forall h :: 0 <= h < |s.handlings| && WorksOn(s.handlings[h], conversation) ==>
           && s.handlings[h].base == Agent.Remembered(full)
           && (Agent.Dialogue(s.handlings[h].base) <==> !CutsCalls(full))
  {
    var full := Full(states[n].ended, conversation);
    HistorySequential(a, states, steps, n, conversation);
    SequentialRemembers(states[n].ended, conversation);
    RunPairs(a, states, steps, n);
    FullDialogue(states[n].ended, conversation);
    Agent.RememberedDialogue(full);
  }

  predicate WorksOn(h: Handling, conversation: string) {
    h.Running? && h.message.retain && ConversationOf(h.message) == conversation
  }
}
