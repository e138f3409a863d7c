/** Inbound messages: each is seen once, each conversation has at most one running turn, and
    its history is what running its turns one after the other would give. */
module TurnAdmission {
  import opened Wrappers
  import opened Sequences
  import Agent

  type History = map<string, seq<Agent.Message>>

  datatype Inbound = Inbound(
    id: string, gateway: string, channel: string, thread: Option<string>, text: string, retain: bool)

  function ConversationOf(m: Inbound): string {
    m.gateway + ":" + m.channel + ":" + m.thread.GetOr("root")
  }

  /** Where the handling of one message stands. */
  datatype Handling =
    | Responding(message: Inbound)
    // the response is open; nothing of the conversation has been looked at
    | Refused(message: Inbound)
    // the conversation is busy; that answer is being delivered
    | Running(message: Inbound, base: seq<Agent.Message>)
    // the turn runs on the history it read
    | Replying(message: Inbound)
    // the turn is over; its answer or its failure is being delivered
    | Stuck(message: Inbound)
    // an exception between the admission and the try block
    | Over(message: Inbound)
  {
    /** The conversation is marked as in flight because of this handling. */
    predicate Holds() {
      Running? || Replying? || Stuck?
    }
  }

  /** A turn that is over: what it added, or nothing if it failed. */
  datatype Ended = Ended(handling: nat, conversation: string, retain: bool, exchange: Option<seq<Agent.Message>>)

  datatype Runtime = Runtime(
    seen: set<string>, inflight: set<string>, history: History, handlings: seq<Handling>, ended: seq<Ended>)

  const BOOTED := Runtime({}, {}, map[], [], [])

  /** SetupFails is an exception before the try block: marked says whether the conversation
      had been marked as in flight by then. */
  datatype Step =
    | Arrives(message: Inbound)
    | ResponseBegins(handling: nat)
    | SetupFails(handling: nat, marked: bool)
    | TurnSucceeds(handling: nat, script: seq<Agent.Round>)
    | TurnFails(handling: nat)
    | Delivered(handling: nat)

  predicate Enabled(a: Agent.Setting, s: Runtime, step: Step) {
    match step
    case Arrives(_) => true
    case ResponseBegins(h) => h < |s.handlings| && s.handlings[h].Responding?
    case SetupFails(h, _) =>
      h < |s.handlings| && s.handlings[h].Responding? && ConversationOf(s.handlings[h].message) !in s.inflight
    case TurnSucceeds(h, script) =>
      && h < |s.handlings| && s.handlings[h].Running? && Agent.Fits(script)
      && Agent.EndingOf(a, script, s.handlings[h].message.text).Said?
    case TurnFails(h) => h < |s.handlings| && s.handlings[h].Running?
    case Delivered(h) => h < |s.handlings| && (s.handlings[h].Replying? || s.handlings[h].Refused?)
  }

  /** One step is the code of one handling between two awaits. */
  function Apply(a: Agent.Setting, s: Runtime, step: Step): Runtime
    requires Enabled(a, s, step)
  {
    match step
    case Arrives(m) =>
      if m.id in s.seen then s
      else s.(seen := s.seen + {m.id}, handlings := s.handlings + [Responding(m)])
    case ResponseBegins(h) =>
      var m := s.handlings[h].message;
      var conversation := ConversationOf(m);
      if conversation in s.inflight then s.(handlings := s.handlings[h := Refused(m)])
      else
        var history := Agent.Started(s.history, conversation, m.retain);
        s.(inflight := s.inflight + {conversation}, history := history,
           handlings := s.handlings[h := Running(m, Agent.HistoryOf(history, conversation))])
    case SetupFails(h, marked) =>
      var m := s.handlings[h].message;
      if marked then s.(inflight := s.inflight + {ConversationOf(m)}, handlings := s.handlings[h := Stuck(m)])
      else s.(handlings := s.handlings[h := Over(m)])
    case TurnSucceeds(h, script) =>
      var Running(m, base) := s.handlings[h];
      var messages := Agent.Conducted(a, script, 0, base + [Agent.User(m.text)], []).messages;
      s.(history := Agent.Finished(s.history, ConversationOf(m), m.retain, messages),
         handlings := s.handlings[h := Replying(m)],
         ended := s.ended + [Ended(h, ConversationOf(m), m.retain, Some(Agent.Exchange(a, script, m.text)))])
    case TurnFails(h) =>
      var m := s.handlings[h].message;
      s.(handlings := s.handlings[h := Replying(m)], ended := s.ended + [Ended(h, ConversationOf(m), m.retain, None)])
    case Delivered(h) =>
      var m := s.handlings[h].message;
      s.(inflight := if s.handlings[h].Replying? then s.inflight - {ConversationOf(m)} else s.inflight,
         handlings := s.handlings[h := Over(m)])
  }

  // ---------------------------------------------------------------- the fields of the runtime

  /** The fields that handlings share; the methods are the uninterrupted sections of one. */
  class ElliottRuntime {
    const setting: Agent.Setting
    var seen: set<string>
    var inflight: set<string>
    var history: History

    /** These fields beside the handlings and the turns that are over. */
    ghost function State(handlings: seq<Handling>, ended: seq<Ended>): Runtime
      reads this
    {
      Runtime(seen, inflight, history, handlings, ended)
    }

    constructor (setting: Agent.Setting)
      ensures State([], []) == BOOTED && this.setting == setting
    {
      this.setting := setting;
      seen, inflight, history := {}, {}, map[];
    }

    method Arrive(m: Inbound, ghost handlings: seq<Handling>, ghost ended: seq<Ended>) returns (isNew: bool)
      modifies this`seen
      ensures isNew <==> m.id !in old(seen)
      ensures State(if isNew then handlings + [Responding(m)] else handlings, ended)
           == Apply(setting, old(State(handlings, ended)), Arrives(m))
    {
      if m.id in seen {
        return false;
      }
      seen := seen + {m.id};
      isNew := true;
    }

    /** After the response has begun: the history the turn works on, or none if busy. */
    method BeginTurn(m: Inbound, ghost handlings: seq<Handling>, ghost ended: seq<Ended>, ghost h: nat)
      returns (base: Option<seq<Agent.Message>>)
      requires h < |handlings| && handlings[h] == Responding(m)
      modifies this`inflight, this`history
      ensures base.None? <==> ConversationOf(m) in old(inflight)
      ensures State(handlings[h := if base.Some? then Running(m, base.value) else Refused(m)], ended)
           == Apply(setting, old(State(handlings, ended)), ResponseBegins(h))
    {
      var conversation := ConversationOf(m);
      if conversation in inflight {
        return None;
      }
      inflight := inflight + {conversation};
      if !m.retain {
        history := history - {conversation};
      }
      base := Some(Agent.HistoryOf(history, conversation));
    }

    method SucceedTurn(m: Inbound, base: seq<Agent.Message>, messages: seq<Agent.Message>,
                       ghost script: seq<Agent.Round>, ghost handlings: seq<Handling>, ghost ended: seq<Ended>,
                       ghost h: nat)
      requires h < |handlings| && handlings[h] == Running(m, base)
      requires Enabled(setting, State(handlings, ended), TurnSucceeds(h, script))
      requires messages == Agent.Conducted(setting, script, 0, base + [Agent.User(m.text)], []).messages
      modifies this`history
      ensures State(handlings[h := Replying(m)],
                    ended + [Ended(h, ConversationOf(m), m.retain, Some(Agent.Exchange(setting, script, m.text)))])
           == Apply(setting, old(State(handlings, ended)), TurnSucceeds(h, script))
    {
      history := Agent.Finished(history, ConversationOf(m), m.retain, messages);
    }

    /** The finally block of a handling whose turn is over. */
    method Release(m: Inbound, ghost handlings: seq<Handling>, ghost ended: seq<Ended>, ghost h: nat)
      requires h < |handlings| && handlings[h] == Replying(m)
      modifies this`inflight
      ensures State(handlings[h := Over(m)], ended) == Apply(setting, old(State(handlings, ended)), Delivered(h))
    {
      inflight := inflight - {ConversationOf(m)};
    }
  }

  // ---------------------------------------------------------------- the same turns in sequence

  /** The history of a conversation after these turns, one after the other. */
  function Sequential(turns: seq<Ended>, conversation: string): seq<Agent.Message> {
    if turns == [] then []
    else
      var before, last := Sequential(turns[..|turns| - 1], conversation), turns[|turns| - 1];
      if last.conversation != conversation then before
      else if !last.retain then []
      else
        match last.exchange
        case Some(exchange) => Agent.Remembered(before + exchange)
        case None => before
  }

  // ---------------------------------------------------------------- the invariant

  /** A turn that runs works on the sequential history, or on none if nothing is retained. */
  ghost predicate BaseOk(s: Runtime, h: Handling) {
    h.Running? ==> h.base == if h.message.retain then Sequential(s.ended, ConversationOf(h.message)) else []
  }

  predicate Dropping(h: Handling, conversation: string) {
    h.Running? && !h.message.retain && ConversationOf(h.message) == conversation
  }

  ghost predicate Dropped(s: Runtime, conversation: string) {
    exists h :: 0 <= h < |s.handlings| && Dropping(s.handlings[h], conversation)
  }

  /** The history is the sequential one, unless a turn that retains nothing is running: that
      turn dropped the history when it began. */
  ghost predicate HistoryOk(s: Runtime, conversation: string) {
    Agent.HistoryOf(s.history, conversation)
    == if Dropped(s, conversation) then [] else Sequential(s.ended, conversation)
  }

  predicate Apart(h: Handling, k: Handling) {
    h.Holds() && k.Holds() ==> ConversationOf(h.message) != ConversationOf(k.message)
  }

  ghost predicate Exclusive(s: Runtime) {
    && (forall h :: 0 <= h < |s.handlings| && s.handlings[h].Holds() ==>
          ConversationOf(s.handlings[h].message) in s.inflight)
    && forall h, k :: 0 <= h < |s.handlings| && 0 <= k < |s.handlings| && h != k ==>
         Apart(s.handlings[h], s.handlings[k])
  }

  /** Message ids are distinct, and a handling ends at most one turn. */
  ghost predicate SeenOnce(s: Runtime) {
    && (forall h :: 0 <= h < |s.handlings| ==> s.handlings[h].message.id in s.seen)
    && (forall h, k :: 0 <= h < k < |s.handlings| ==> s.handlings[h].message.id != s.handlings[k].message.id)
  }

  ghost predicate EndedOnce(s: Runtime) {
    && (forall i :: 0 <= i < |s.ended| ==>
        && s.ended[i].handling < |s.handlings|
        && (s.handlings[s.ended[i].handling].Replying? || s.handlings[s.ended[i].handling].Over?))
    && forall i, k :: 0 <= i < k < |s.ended| ==> s.ended[i].handling != s.ended[k].handling
  }

  ghost predicate BasesOk(s: Runtime) {
    forall h :: 0 <= h < |s.handlings| ==> BaseOk(s, s.handlings[h])
  }

  ghost predicate HistoriesOk(s: Runtime) {
    forall c: string :: HistoryOk(s, c)
  }

  ghost predicate Inv(s: Runtime) {
    SeenOnce(s) && EndedOnce(s) && Exclusive(s) && BasesOk(s) && HistoriesOk(s)
  }

  lemma SequentialNext(turns: seq<Ended>, last: Ended, conversation: string)
    ensures Sequential(turns + [last], conversation) ==
      if last.conversation != conversation then Sequential(turns, conversation)
      else if !last.retain then []
      else match last.exchange
           case Some(exchange) => Agent.Remembered(Sequential(turns, conversation) + exchange)
           case None => Sequential(turns, conversation)
  {}

  lemma SeenKeeps(a: Agent.Setting, s: Runtime, step: Step)
    requires SeenOnce(s) && Enabled(a, s, step)
    ensures SeenOnce(Apply(a, s, step))
  {}

  lemma EndedKeeps(a: Agent.Setting, s: Runtime, step: Step)
    requires EndedOnce(s) && Enabled(a, s, step)
    ensures EndedOnce(Apply(a, s, step))
  {}

  lemma ExclusiveKeeps(a: Agent.Setting, s: Runtime, step: Step)
    requires Exclusive(s) && Enabled(a, s, step)
    ensures Exclusive(Apply(a, s, step))
  {
    var t := Apply(a, s, step);
    if !step.Arrives? {
      forall k | 0 <= k < |s.handlings| && k != step.handling
        ensures Apart(t.handlings[step.handling], s.handlings[k])
      {
        assert Apart(s.handlings[step.handling], s.handlings[k]);
      }
    }
  }

  /** A handling that does not drop the history before or after leaves who does as it was. */
  lemma SameDropping(s: Runtime, t: Runtime, h: nat, c: string)
    requires h < |s.handlings| == |t.handlings| && t.handlings == s.handlings[h := t.handlings[h]]
    requires !Dropping(s.handlings[h], c) && !Dropping(t.handlings[h], c)
    ensures Dropped(t, c) <==> Dropped(s, c)
  {
    if k :| 0 <= k < |s.handlings| && Dropping(s.handlings[k], c) {
      assert Dropping(t.handlings[k], c);
    }
    if k :| 0 <= k < |t.handlings| && Dropping(t.handlings[k], c) {
      assert Dropping(s.handlings[k], c);
    }
  }

  lemma ArrivalDropsNothing(a: Agent.Setting, s: Runtime, m: Inbound, c: string)
    ensures Dropped(Apply(a, s, Arrives(m)), c) <==> Dropped(s, c)
  {
    var t := Apply(a, s, Arrives(m));
    if k :| 0 <= k < |s.handlings| && Dropping(s.handlings[k], c) {
      assert Dropping(t.handlings[k], c);
    }
    if k :| 0 <= k < |t.handlings| && Dropping(t.handlings[k], c) {
      assert Dropping(s.handlings[k], c);
    }
  }

  lemma OthersHistory(a: Agent.Setting, s: Runtime, step: Step, c: string)
    requires Enabled(a, s, step) && (step.Arrives? || ConversationOf(s.handlings[step.handling].message) != c)
    ensures Sequential(Apply(a, s, step).ended, c) == Sequential(s.ended, c)
    ensures Agent.HistoryOf(Apply(a, s, step).history, c) == Agent.HistoryOf(s.history, c)
  {
    var t := Apply(a, s, step);
    if t.ended != s.ended {
      SequentialNext(s.ended, t.ended[|s.ended|], c);
    }
  }

  /** What a step does to the conversations besides that of its own handling: nothing. */
  lemma OthersKeep(a: Agent.Setting, s: Runtime, step: Step, c: string)
    requires Enabled(a, s, step) && (step.Arrives? || ConversationOf(s.handlings[step.handling].message) != c)
    requires HistoryOk(s, c)
    ensures HistoryOk(Apply(a, s, step), c) && Sequential(Apply(a, s, step).ended, c) == Sequential(s.ended, c)
  {
    OthersHistory(a, s, step, c);
    if step.Arrives? {
      ArrivalDropsNothing(a, s, step.message, c);
    } else {
      SameDropping(s, Apply(a, s, step), step.handling, c);
    }
  }

  /** Between the admission and the end of a turn, no other handling of the conversation
      runs, so that the sequential history does not move under it. */
  lemma OwnHistoryKeeps(a: Agent.Setting, s: Runtime, step: Step)
    requires Inv(s) && Enabled(a, s, step) && !step.Arrives?
    ensures HistoryOk(Apply(a, s, step), ConversationOf(s.handlings[step.handling].message))
  {
    var t, c := Apply(a, s, step), ConversationOf(s.handlings[step.handling].message);
    assert HistoryOk(s, c) && BaseOk(s, s.handlings[step.handling]);
    forall k | 0 <= k < |s.handlings| && k != step.handling && Dropping(s.handlings[k], c)
      ensures c in s.inflight && !s.handlings[step.handling].Holds()
    {
      assert Apart(s.handlings[step.handling], s.handlings[k]);
    }
    if t.ended != s.ended {
      SequentialNext(s.ended, t.ended[|s.ended|], c);
    }
    match step
    case ResponseBegins(h) => ResponseBeginsHistory(a, s, h);
    case SetupFails(h, _) => SameDropping(s, t, h, c);
    case Delivered(h) => SameDropping(s, t, h, c);
    case TurnSucceeds(h, script) =>
      NoneDropping(s, t, h, c);
      Agent.TurnExtends(a, script, s.handlings[h].base, s.handlings[h].message.text);
    case TurnFails(h) =>
      NoneDropping(s, t, h, c);
      assert Dropping(s.handlings[h], c) <==> !s.handlings[h].message.retain;
  }

  lemma ResponseBeginsHistory(a: Agent.Setting, s: Runtime, h: nat)
    requires Inv(s) && Enabled(a, s, ResponseBegins(h))
    ensures HistoryOk(Apply(a, s, ResponseBegins(h)), ConversationOf(s.handlings[h].message))
  {
    var t, m := Apply(a, s, ResponseBegins(h)), s.handlings[h].message;
    var c := ConversationOf(m);
    assert HistoryOk(s, c);
    if c in s.inflight {
      SameDropping(s, t, h, c);
    } else if m.retain {
      SameDropping(s, t, h, c);
    } else {
      assert Dropping(t.handlings[h], c);
    }
  }

  lemma NoneDropping(s: Runtime, t: Runtime, h: nat, c: string)
    requires Exclusive(s) && h < |s.handlings| == |t.handlings| && t.handlings == s.handlings[h := t.handlings[h]]
    requires s.handlings[h].Running? && ConversationOf(s.handlings[h].message) == c && !t.handlings[h].Running?
    ensures !Dropped(t, c) && (Dropped(s, c) <==> !s.handlings[h].message.retain)
  {}

  lemma BasesKeep(a: Agent.Setting, s: Runtime, step: Step)
    requires Inv(s) && Enabled(a, s, step)
    ensures BasesOk(Apply(a, s, step))
  {
    var t := Apply(a, s, step);
    forall k | 0 <= k < |t.handlings| ensures BaseOk(t, t.handlings[k]) {
      if k < |s.handlings| && t.handlings[k] == s.handlings[k] {
        BaseStays(a, s, step, k);
      } else if t.handlings[k].Running? {
        OwnBase(a, s, k);
      }
    }
  }

  lemma BaseStays(a: Agent.Setting, s: Runtime, step: Step, k: nat)
    requires Inv(s) && Enabled(a, s, step) && k < |s.handlings| && Apply(a, s, step).handlings[k] == s.handlings[k]
    ensures BaseOk(Apply(a, s, step), s.handlings[k])
  {}

  lemma OwnBase(a: Agent.Setting, s: Runtime, h: nat)
    requires Inv(s) && Enabled(a, s, ResponseBegins(h)) && ConversationOf(s.handlings[h].message) !in s.inflight
    ensures BaseOk(Apply(a, s, ResponseBegins(h)), Apply(a, s, ResponseBegins(h)).handlings[h])
  {
    var c := ConversationOf(s.handlings[h].message);
    assert HistoryOk(s, c);
    assert !Dropped(s, c);
  }

  lemma StepKeeps(a: Agent.Setting, s: Runtime, step: Step)
    requires Inv(s) && Enabled(a, s, step)
    ensures Inv(Apply(a, s, step))
  {
    SeenKeeps(a, s, step);
    EndedKeeps(a, s, step);
    ExclusiveKeeps(a, s, step);
    BasesKeep(a, s, step);
    forall c: string ensures HistoryOk(Apply(a, s, step), c) {
      assert HistoryOk(s, c);
      if step.Arrives? || ConversationOf(s.handlings[step.handling].message) != c {
        OthersKeep(a, s, step, c);
      } else {
        OwnHistoryKeeps(a, s, step);
      }
    }
  }

  // ---------------------------------------------------------------- every run

  ghost predicate IsRun(a: Agent.Setting, states: seq<Runtime>, steps: seq<Step>) {
    && |states| == |steps| + 1 && states[0] == BOOTED
    && forall n :: 0 <= n < |steps| ==>
         Enabled(a, states[n], steps[n]) && states[n + 1] == Apply(a, states[n], steps[n])
  }

  lemma {:induction false} RunKeeps(a: Agent.Setting, states: seq<Runtime>, steps: seq<Step>, n: nat)
    requires IsRun(a, states, steps) && n < |states|
    ensures Inv(states[n])
  {
    if n > 0 {
      RunKeeps(a, states, steps, n - 1);
      StepKeeps(a, states[n - 1], steps[n - 1]);
    }
  }

  /** In every interleaving: two handlings have different message ids, no handling ends two
      turns or runs one after it ended one, and at most one turn runs in a conversation. */
  lemma AtMostOneTurn(a: Agent.Setting, states: seq<Runtime>, steps: seq<Step>, n: nat, h: nat, k: nat)
    requires IsRun(a, states, steps) && n < |states| && h < |states[n].handlings| && k < |states[n].handlings| && h != k
    ensures states[n].handlings[h].message.id != states[n].handlings[k].message.id
    ensures states[n].handlings[h].Running? && states[n].handlings[k].Running? ==>
      ConversationOf(states[n].handlings[h].message) != ConversationOf(states[n].handlings[k].message)
    ensures forall i, j :: 0 <= i < j < |states[n].ended| ==> states[n].ended[i].handling != states[n].ended[j].handling
    ensures forall i :: 0 <= i < |states[n].ended| && states[n].ended[i].handling == h ==>
      !states[n].handlings[h].Running? && !states[n].handlings[h].Responding?
  {
    RunKeeps(a, states, steps, n);
    assert Apart(states[n].handlings[h], states[n].handlings[k]);
    assert h < k ==> states[n].handlings[h].message.id != states[n].handlings[k].message.id;
    assert k < h ==> states[n].handlings[k].message.id != states[n].handlings[h].message.id;
  }

  /** In every interleaving, the history of a conversation is that of its ended turns run one
      after the other, and a running turn that retains its history works on exactly that. */
  lemma HistorySequential(a: Agent.Setting, states: seq<Runtime>, steps: seq<Step>, n: nat, conversation: string)
    requires IsRun(a, states, steps) && n < |states|
    ensures !Dropped(states[n], conversation) ==>
      Agent.HistoryOf(states[n].history, conversation) == Sequential(states[n].ended, conversation)
    ensures forall h :: 0 <= h < |states[n].handlings| && states[n].handlings[h].Running? ==>
      BaseOk(states[n], states[n].handlings[h])
  {
    RunKeeps(a, states, steps, n);
    assert HistoryOk(states[n], conversation);
  }

  lemma {:induction false} SequentialBounded(turns: seq<Ended>, conversation: string)
    ensures |Sequential(turns, conversation)| <= Agent.MAX_HISTORY_MESSAGES
  {
    if turns != [] {
      var before, last := turns[..|turns| - 1], turns[|turns| - 1];
      SequentialBounded(before, conversation);
      if last.exchange.Some? {
        Agent.RememberedBounded(Sequential(before, conversation) + last.exchange.value);
      }
    }
  }

  /** No message holds an output that was meant for its turn only. */
  ghost predicate Clean(messages: seq<Agent.Message>) {
    forall m :: m in messages && m.Tool? && m.ephemeral ==> m.content == Agent.OMITTED
  }

  ghost predicate HistoriesClean(s: Runtime) {
    forall c :: c in s.history ==> Clean(s.history[c]) && |s.history[c]| <= Agent.MAX_HISTORY_MESSAGES
  }

  /** In every interleaving no history holds more than forty messages, nor any output that
      was meant for its turn only. */
  lemma {:induction false} HistoryClean(a: Agent.Setting, states: seq<Runtime>, steps: seq<Step>, n: nat)
    requires IsRun(a, states, steps) && n < |states|
    ensures HistoriesClean(states[n])
  {
    if n > 0 {
      HistoryClean(a, states, steps, n - 1);
      CleanStep(a, states[n - 1], steps[n - 1]);
    }
  }

  lemma CleanStep(a: Agent.Setting, s: Runtime, step: Step)
    requires HistoriesClean(s) && Enabled(a, s, step)
    ensures HistoriesClean(Apply(a, s, step))
  {
    if step.TurnSucceeds? {
      var Running(m, base) := s.handlings[step.handling];
      Agent.RememberedBounded(Agent.Conducted(a, step.script, 0, base + [Agent.User(m.text)], []).messages);
    }
  }

  // ---------------------------------------------------------------- what a conversation is

  /** Threads of one channel are apart, and a message without one is in the thread root. */
  lemma ThreadsApart(a: Inbound, b: Inbound)
    requires a.gateway == b.gateway && a.channel == b.channel
    ensures ConversationOf(a) == ConversationOf(b)
      <==> (if a.thread.Some? then a.thread.value else "root") == (if b.thread.Some? then b.thread.value else "root")
  {
    var start := a.gateway + ":" + a.channel + ":";
    assert ConversationOf(a) == start + a.thread.GetOr("root") && ConversationOf(b) == start + b.thread.GetOr("root");
    assert ConversationOf(a)[|start|..] == a.thread.GetOr("root");
    assert ConversationOf(b)[|start|..] == b.thread.GetOr("root");
  }

  /** Where the names of gateways and channels have no colon, two messages are of one
      conversation exactly if gateway, channel and thread are the same. */
  lemma ConversationsApart(a: Inbound, b: Inbound)
    requires ':' !in a.gateway && ':' !in b.gateway && ':' !in a.channel && ':' !in b.channel
    ensures ConversationOf(a) == ConversationOf(b) <==>
      && a.gateway == b.gateway && a.channel == b.channel
      && (if a.thread.Some? then a.thread.value else "root") == (if b.thread.Some? then b.thread.value else "root")
  {
    if ConversationOf(a) == ConversationOf(b) {
      var x, y := a.channel + ":" + a.thread.GetOr("root"), b.channel + ":" + b.thread.GetOr("root");
      assert ConversationOf(a) == a.gateway + ":" + x && ConversationOf(b) == b.gateway + ":" + y;
      FirstMark(':', a.gateway, x, b.gateway, y);
      FirstMark(':', a.channel, a.thread.GetOr("root"), b.channel, b.thread.GetOr("root"));
    }
  }

  /** With a colon in a channel two threads of different channels are one conversation. */
  lemma ColonMixes(gateway: string, channel: string, middle: string, thread: string)
    ensures var a := Inbound("1", gateway, channel + ":" + middle, Some(thread), "", true);
      var b := Inbound("2", gateway, channel, Some(middle + ":" + thread), "", true);
      a.channel != b.channel && ConversationOf(a) == ConversationOf(b)
  {
    var start := gateway + ":" + channel + ":" + middle + ":" + thread;
    assert |channel + ":" + middle| > |channel|;
    assert gateway + ":" + (channel + ":" + middle) + ":" + thread == start;
    assert gateway + ":" + channel + ":" + (middle + ":" + thread) == start;
  }
}
