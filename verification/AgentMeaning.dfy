/** What stands in the messages of a turn, said of the script alone: where each answer and each
    tool message stands, what a tool message contains, which calls count as repeated, and what
    of all that is kept when the turn is remembered. */
module AgentMeaning {
  import opened Agent

  // ---------------------------------------------------------------- repeated calls

  /** Digests of equal arguments only are equal, and all are of one length. */
  ghost predicate IsDigest(digest: string -> string) {
    && (forall a, b :: digest(a) == digest(b) ==> a == b)
    && forall a, b :: |digest(a)| == |digest(b)|
  }

  lemma RepeatKeyExact(s: Setting, a: ToolCall, b: ToolCall)
    requires IsDigest(s.digest)
    ensures RepeatKey(s, a) == RepeatKey(s, b) <==> a.name == b.name && a.arguments == b.arguments
  {
    var x, y := s.digest(a.arguments), s.digest(b.arguments);
    if RepeatKey(s, a) == RepeatKey(s, b) {
      var key := RepeatKey(s, a);
      assert |a.name| == |b.name|;
      assert key[..|a.name|] == a.name && key[..|b.name|] == b.name;
      assert key[|a.name| + 1..] == x && key[|b.name| + 1..] == y;
    }
  }

  /** The earlier calls that are identical: same tool, same arguments. */
  ghost function Identical(made: seq<ToolCall>, call: ToolCall): (earlier: set<nat>)
    ensures forall k ::
      k in earlier <==> 0 <= k < |made| && made[k].name == call.name && made[k].arguments == call.arguments
  {
    set k: nat | k < |made| && made[k].name == call.name && made[k].arguments == call.arguments
  }

  lemma {:induction false} OccurrencesCount(s: Setting, made: seq<ToolCall>, call: ToolCall)
    requires IsDigest(s.digest) && call.name in s.tools
    ensures Occurrences(s, made, RepeatKey(s, call)) == |Identical(made, call)|
  {
    if made == [] {
      assert Identical(made, call) == {};
    } else {
      var n := |made| - 1;
      OccurrencesCount(s, made[..n], call);
      RepeatKeyExact(s, made[n], call);
      var more := if made[n].name == call.name && made[n].arguments == call.arguments then {n} else {};
      assert Identical(made, call) == Identical(made[..n], call) + more;
    }
  }

  // ---------------------------------------------------------------- one tool message

  /** The message for a call: of an unknown tool a fixed text; of a failure its detail; of an
      output at most its first 30000 characters behind a mark, meant for the turn only exactly
      if the tool's results are. From the third identical call of the turn on a notice stands
      before it. */
  ghost predicate MessageFor(s: Setting, made: seq<ToolCall>, call: ToolCall, outcome: Outcome, m: Message) {
    && m.Tool? && m.callId == call.id
    && (m.ephemeral <==> outcome.Output? && call.name in s.tools && s.tools[call.name])
    && if call.name !in s.tools then m.content == "Unknown tool " + call.name
       else
         var plain := if outcome.Output? then "[UNTRUSTED TOOL OUTPUT]\n" + First30000(outcome.text)
                      else if outcome.Failure? then outcome.detail else "";
         if |Identical(made, call)| < 2 then m.content == plain
         else m.content == "[RUNTIME NOTICE] " + s.wording(|Identical(made, call)| + 1, call.name) + plain
  }

  function First30000(text: string): string {
    if |text| <= 30000 then text else text[..30000]
  }

  lemma OutputMeans(s: Setting, made: seq<ToolCall>, calls: seq<ToolCall>, outcomes: seq<Outcome>, i: nat)
    requires |outcomes| == |calls| && NoneThrown(outcomes) && i < |calls| && IsDigest(s.digest)
    ensures MessageFor(s, made + calls[..i], calls[i], outcomes[i], Outputs(s, made, calls, outcomes)[i])
  {
    if calls[i].name in s.tools {
      OccurrencesCount(s, made + calls[..i], calls[i]);
    }
  }

  // ---------------------------------------------------------------- where the messages stand

  /** The rounds before ask for tools and none of their calls throws. */
  predicate Reaches(script: seq<Round>, round: nat)
    requires Fits(script)
  {
    round <= 8 && forall r :: 0 <= r < round ==> GoesOn(script, r)
  }

  function CallsOf(script: seq<Round>, round: nat): seq<ToolCall>
    requires Fits(script) && round < 8
  {
    if script[round].Replies? then script[round].calls else []
  }

  /** How many messages a turn has added before a round. */
  function Offset(script: seq<Round>, round: nat): nat
    requires Fits(script) && Reaches(script, round)
  {
    if round == 0 then 1 else Offset(script, round - 1) + 1 + |CallsOf(script, round - 1)|
  }

  /** The calls that a turn has made before a round. */
  function MadeBefore(script: seq<Round>, round: nat): seq<ToolCall>
    requires Fits(script) && Reaches(script, round)
  {
    if round == 0 then [] else MadeBefore(script, round - 1) + CallsOf(script, round - 1)
  }

  lemma {:induction false} MessagesStay(s: Setting, script: seq<Round>, round: nat, messages: seq<Message>,
                                        made: seq<ToolCall>)
    requires Fits(script) && round <= 8
    ensures messages <= Conducted(s, script, round, messages, made).messages
    decreases 8 - round
  {
    if GoesOn(script, round) {
      ConductedOn(s, script, round, messages, made);
      MessagesStay(s, script, round + 1, Next(s, script, round, messages, made), made + script[round].calls);
    } else if round < 8 {
      RoundEnds(s, script, round, messages, made);
    }
  }

  /** The messages as they are when a round begins. */
  lemma {:induction false} AtRound(s: Setting, script: seq<Round>, first: seq<Message>, round: nat)
    returns (messages: seq<Message>)
    requires Fits(script) && Reaches(script, round) && first != []
    ensures |messages| == |first| - 1 + Offset(script, round)
    ensures Conducted(s, script, 0, first, []).messages
         == Conducted(s, script, round, messages, MadeBefore(script, round)).messages
    ensures Conducted(s, script, 0, first, []).ending
         == Conducted(s, script, round, messages, MadeBefore(script, round)).ending
  {
    if round == 0 {
      messages := first;
    } else {
      var before := AtRound(s, script, first, round - 1);
      ConductedOn(s, script, round - 1, before, MadeBefore(script, round - 1));
      messages := Next(s, script, round - 1, before, MadeBefore(script, round - 1));
    }
  }

  /** For every behaviour of model and tools: the answer of a round stands behind everything
      before it, the messages for its calls behind it in order, and each is as it should be. */
  lemma SaidInTurn(s: Setting, script: seq<Round>, base: seq<Message>, input: string, round: nat, i: nat)
    requires Fits(script) && IsDigest(s.digest) && Reaches(script, round) && GoesOn(script, round)
    requires i < |script[round].calls|
    ensures var all, at := Conducted(s, script, 0, base + [User(input)], []).messages, |base| + Offset(script, round);
      && |all| > at + 1 + i && base + [User(input)] <= all
      && all[at] == Assistant(script[round].text, script[round].calls)
      && MessageFor(s, MadeBefore(script, round) + script[round].calls[..i], script[round].calls[i],
                    script[round].outcomes[i], all[at + 1 + i])
  {
    var first, made := base + [User(input)], MadeBefore(script, round);
    var messages := AtRound(s, script, first, round);
    ConductedOn(s, script, round, messages, made);
    var next := Next(s, script, round, messages, made);
    MessagesStay(s, script, round + 1, next, made + script[round].calls);
    MessagesStay(s, script, 0, first, []);
    OutputMeans(s, made, script[round].calls, script[round].outcomes, i);
    NextAt(s, script, round, messages, made, i);
  }

  lemma NextAt(s: Setting, script: seq<Round>, round: nat, messages: seq<Message>, made: seq<ToolCall>, i: nat)
    requires Fits(script) && GoesOn(script, round) && i < |script[round].calls|
    ensures var next := Next(s, script, round, messages, made);
      && |next| == |messages| + 1 + |script[round].calls|
      && next[|messages|] == Assistant(script[round].text, script[round].calls)
      && next[|messages| + 1 + i] == Outputs(s, made, script[round].calls, script[round].outcomes)[i]
  {}

  /** The last answer of a turn that asks for no tools is its last message, and what is said. */
  lemma SaidLast(s: Setting, script: seq<Round>, base: seq<Message>, input: string, round: nat)
    requires Fits(script) && round < 8 && Reaches(script, round)
    requires script[round].Replies? && script[round].calls == []
    ensures var t := Conducted(s, script, 0, base + [User(input)], []);
      && |t.messages| == |base| + Offset(script, round) + 1
      && t.messages[|t.messages| - 1] == Assistant(script[round].text, [])
      && t.ending == Said(if script[round].text == "" then "\U{2026}" else script[round].text)
  {
    var messages := AtRound(s, script, base + [User(input)], round);
    RoundEnds(s, script, round, messages, MadeBefore(script, round));
  }

  // ---------------------------------------------------------------- what is remembered

  /** Of the last forty messages each is kept as it was, but for the content of tool messages that
      were meant for the turn only. */
  lemma RememberedMeans(messages: seq<Message>, i: nat)
    requires i < |Remembered(messages)|
    ensures |Remembered(messages)| == if |messages| <= 40 then |messages| else 40
    ensures var said, kept := messages[|messages| - |Remembered(messages)| + i], Remembered(messages)[i];
      if said.Tool? && said.ephemeral
      then kept == Tool("[Ephemeral tool output omitted after this turn]", said.callId, true)
      else kept == said
  {
    RememberedBounded(messages);
  }

  /** A turn that is not to be retained leaves no history of its conversation, and no turn touches
      that of another. */
  lemma RetainedMeans(history: map<string, seq<Message>>, conversation: string, retain: bool,
                      messages: seq<Message>, other: string)
    ensures var started := Started(history, conversation, retain);
      var ended := Finished(started, conversation, retain, messages);
      && (conversation in ended <==> retain)
      && (!retain ==> conversation !in started && conversation !in Finished(history, conversation, retain, messages))
      && (retain ==> started == history)
      && (other != conversation ==>
            && (other in ended <==> other in history)
            && (other in history ==> ended[other] == history[other] == started[other]))
  {}

  /** The message for a call as it is kept: nothing of an output exactly if the results of the
      tool are for the turn only, else as it was said. */
  ghost predicate KeptFor(s: Setting, made: seq<ToolCall>, call: ToolCall, outcome: Outcome, kept: Message) {
    if outcome.Output? && call.name in s.tools && s.tools[call.name]
    then kept == Tool("[Ephemeral tool output omitted after this turn]", call.id, true)
    else MessageFor(s, made, call, outcome, kept)
  }

  function AsKept(said: Message): Message {
    if said.Tool? && said.ephemeral then Tool("[Ephemeral tool output omitted after this turn]", said.callId, true)
    else said
  }

  lemma KeptMeans(s: Setting, made: seq<ToolCall>, call: ToolCall, outcome: Outcome, said: Message)
    requires MessageFor(s, made, call, outcome, said)
    ensures KeptFor(s, made, call, outcome, AsKept(said))
  {}

  /** What a turn remembers of the message for a call, if it is among the last forty. */
  lemma OutputRemembered(s: Setting, script: seq<Round>, base: seq<Message>, input: string, round: nat, i: nat)
    requires Fits(script) && IsDigest(s.digest) && Reaches(script, round) && GoesOn(script, round)
    requires i < |script[round].calls|
    ensures var all := Conducted(s, script, 0, base + [User(input)], []).messages;
      var kept, at := Remembered(all), |base| + Offset(script, round) + 1 + i;
      && |kept| <= |all| && at < |all|
      && (at >= |all| - |kept| ==>
          KeptFor(s, MadeBefore(script, round) + script[round].calls[..i], script[round].calls[i],
                  script[round].outcomes[i], kept[at - (|all| - |kept|)]))
  {
    var all := Conducted(s, script, 0, base + [User(input)], []).messages;
    var at, made := |base| + Offset(script, round) + 1 + i, MadeBefore(script, round) + script[round].calls[..i];
    SaidInTurn(s, script, base, input, round, i);
    KeptAt(all, Remembered(all), at);
    KeptMeans(s, made, script[round].calls[i], script[round].outcomes[i], all[at]);
  }

  lemma KeptAt(all: seq<Message>, kept: seq<Message>, at: nat)
    requires kept == Remembered(all) && at < |all|
    ensures |kept| <= |all|
    ensures at >= |all| - |kept| ==>
      kept[at - (|all| - |kept|)] == AsKept(all[at])
  {
    RememberedBounded(all);
    if at >= |all| - |kept| {
      RememberedMeans(all, at - (|all| - |kept|));
    }
  }
}
