/** The agent loop: one turn of a conversation, its tool calls, and what of it is remembered. */
module Agent {
  import opened Wrappers
  import opened Sequences

  const MAX_ROUNDS: nat := 8
  const MAX_HISTORY_MESSAGES: nat := 40
  const MAX_TOOL_OUTPUT_CHARACTERS: nat := 30000
  const REPEATED_CALL_WARNING_THRESHOLD: nat := 3
  const NO_TEXT := "\U{2026}"
  const LIMIT_REACHED := "I reached my tool-step limit before producing a final answer."
  const OMITTED := "[Ephemeral tool output omitted after this turn]"

  datatype ToolCall = ToolCall(id: string, name: string, arguments: string)

  datatype Message =
    | User(content: string)
    | Assistant(content: string, calls: seq<ToolCall>)
    | Tool(content: string, callId: string, ephemeral: bool)

  datatype Request = Request(messages: seq<Message>, allowTools: bool)

  /** What comes of one tool call: its result, the JSON of its error, or an exception that no
      handler of the call catches. */
  datatype Outcome = Output(text: string) | Failure(detail: string) | Thrown

  /** What comes of one request to the model, and of the calls in its answer. */
  datatype Round = Replies(text: string, calls: seq<ToolCall>, outcomes: seq<Outcome>) | ModelFails

  predicate NoneThrown(outcomes: seq<Outcome>) {
    forall i :: 0 <= i < |outcomes| ==> !outcomes[i].Thrown?
  }

  predicate Fits(script: seq<Round>) {
    && |script| == MAX_ROUNDS
    && forall r :: 0 <= r < |script| && script[r].Replies? ==> |script[r].outcomes| == |script[r].calls|
  }

  /** tools says of each name whether results are for the turn only; wording is the text of
      the notice for a call that is repeated, by its count and its name. */
  datatype Setting = Setting(tools: map<string, bool>, digest: string -> string, wording: (nat, string) -> string)

  // ---------------------------------------------------------------- tool messages

  function RepeatKey(s: Setting, call: ToolCall): string {
    call.name + ":" + s.digest(call.arguments)
  }

  /** How often a known tool was called like this. */
  function Occurrences(s: Setting, made: seq<ToolCall>, key: string): nat {
    if made == [] then 0
    else
      var last := made[|made| - 1];
      Occurrences(s, made[..|made| - 1], key) + if last.name in s.tools && RepeatKey(s, last) == key then 1 else 0
  }

  const NOTICE_MARK := "[RUNTIME NOTICE] "
  const OUTPUT_MARK := "[UNTRUSTED TOOL OUTPUT]\n"

  function Notice(s: Setting, count: nat, name: string): string {
    if count < REPEATED_CALL_WARNING_THRESHOLD then "" else NOTICE_MARK + s.wording(count, name)
  }

  function Bounded(text: string): string {
    if |text| <= MAX_TOOL_OUTPUT_CHARACTERS then text else text[..MAX_TOOL_OUTPUT_CHARACTERS]
  }

  function Answered(s: Setting, count: nat, call: ToolCall, outcome: Outcome): Message
    requires !outcome.Thrown?
  {
    if call.name !in s.tools then Tool("Unknown tool " + call.name, call.id, false)
    else
      match outcome
      case Output(text) =>
        Tool(Notice(s, count, call.name) + (OUTPUT_MARK + Bounded(text)), call.id, s.tools[call.name])
      case Failure(detail) => Tool(Notice(s, count, call.name) + detail, call.id, false)
  }

  /** The tool message for call i of an answer; made are the calls of the turn before. */
  function OutputFor(s: Setting, made: seq<ToolCall>, calls: seq<ToolCall>, outcomes: seq<Outcome>, i: nat): Message
    requires i < |calls| == |outcomes| && !outcomes[i].Thrown?
  {
    Answered(s, Occurrences(s, made + calls[..i], RepeatKey(s, calls[i])) + 1, calls[i], outcomes[i])
  }

  function Outputs(s: Setting, made: seq<ToolCall>, calls: seq<ToolCall>, outcomes: seq<Outcome>)
    : (outputs: seq<Message>)
    requires |outcomes| == |calls| && NoneThrown(outcomes)
    ensures |outputs| == |calls|
    ensures forall i :: 0 <= i < |calls| ==> outputs[i] == OutputFor(s, made, calls, outcomes, i)
  {
    seq(|calls|, i requires 0 <= i < |calls| && !outcomes[i].Thrown? => OutputFor(s, made, calls, outcomes, i))
  }

  // ---------------------------------------------------------------- a turn as a function

  datatype Ending = Said(text: string) | Failed

  datatype Turn = Turn(requests: seq<Request>, messages: seq<Message>, ending: Ending)

  function Conducted(s: Setting, script: seq<Round>, round: nat, messages: seq<Message>, made: seq<ToolCall>): Turn
    requires Fits(script) && round <= MAX_ROUNDS
    decreases MAX_ROUNDS - round
  {
    if round == MAX_ROUNDS then Turn([], messages, Said(LIMIT_REACHED))
    else
      var request := Request(messages, round < MAX_ROUNDS - 1);
      match script[round]
      case ModelFails => Turn([request], messages, Failed)
      case Replies(text, calls, outcomes) =>
        var answered := messages + [Assistant(text, calls)];
        if calls == [] then Turn([request], answered, Said(if text == "" then NO_TEXT else text))
        else if !NoneThrown(outcomes) then Turn([request], answered, Failed)
        else
          var rest := Conducted(s, script, round + 1, answered + Outputs(s, made, calls, outcomes), made + calls);
          Turn([request] + rest.requests, rest.messages, rest.ending)
  }

  function Redacted(message: Message): Message {
    if message.Tool? && message.ephemeral then message.(content := OMITTED) else message
  }

  function RedactedAll(messages: seq<Message>): (all: seq<Message>)
    ensures |all| == |messages| && forall i :: 0 <= i < |messages| ==> all[i] == Redacted(messages[i])
  {
    if messages == [] then [] else [Redacted(messages[0])] + RedactedAll(messages[1..])
  }

  function LastMessages(messages: seq<Message>): seq<Message> {
    if |messages| <= MAX_HISTORY_MESSAGES then messages else messages[|messages| - MAX_HISTORY_MESSAGES..]
  }

  function Remembered(messages: seq<Message>): seq<Message> {
    RedactedAll(LastMessages(messages))
  }

  function HistoryOf(history: map<string, seq<Message>>, conversation: string): seq<Message> {
    if conversation in history then history[conversation] else []
  }

  function Started(history: map<string, seq<Message>>, conversation: string, retain: bool): map<string, seq<Message>> {
    if retain then history else history - {conversation}
  }

  function Finished(history: map<string, seq<Message>>, conversation: string, retain: bool,
                    messages: seq<Message>): map<string, seq<Message>> {
    if retain then history[conversation := Remembered(messages)] else history - {conversation}
  }

  // ---------------------------------------------------------------- the agent

  class RuntimeAgent {
    const setting: Setting
    var history: map<string, seq<Message>>

    constructor (setting: Setting)
      ensures this.setting == setting && history == map[]
    {
      this.setting := setting;
      history := map[];
    }

    method Remember(conversation: string, messages: seq<Message>, retain: bool)
      modifies this
      ensures history == Finished(old(history), conversation, retain, messages)
    {
      if !retain {
        history := history - {conversation};
        return;
      }
      history := history[conversation := Remembered(messages)];
    }

    /** One turn. The answer is absent when the turn throws; the history is then as the start
        of the turn left it. */
    method TakeTurn(conversation: string, input: string, retain: bool, script: seq<Round>)
      returns (answer: Option<string>, requests: seq<Request>)
      requires Fits(script)
      modifies this
      ensures
        var started := Started(old(history), conversation, retain);
        var t := Conducted(setting, script, 0, HistoryOf(started, conversation) + [User(input)], []);
        && requests == t.requests && answer == (if t.ending.Said? then Some(t.ending.text) else None)
        && history == if t.ending.Said? then Finished(started, conversation, retain, t.messages) else started
    {
      if !retain {
        Remember(conversation, [], false);
      }
      var first := (if retain then HistoryOf(history, conversation) else []) + [User(input)];
      var messages, ending;
      requests, messages, ending := Rounds(script, first);
      if ending.Failed? {
        return None, requests;
      }
      Remember(conversation, messages, retain);
      answer := Some(ending.text);
    }

    /** The loop of a turn, which changes nothing but the messages. */
    method Rounds(script: seq<Round>, first: seq<Message>)
      returns (requests: seq<Request>, messages: seq<Message>, ending: Ending)
      requires Fits(script)
      ensures Turn(requests, messages, ending) == Conducted(setting, script, 0, first, [])
    {
      requests, messages := [], first;
      ghost var made: seq<ToolCall> := [];
      var repeats: map<string, nat> := map[];
      var round := 0;
      while round < MAX_ROUNDS
        invariant 0 <= round <= MAX_ROUNDS
        invariant LedgerOf(setting, repeats, made)
        invariant SoFar(setting, script, first, requests, round, messages, made)
      {
        var reply, allowTools := script[round], round < MAX_ROUNDS - 1;
        RoundEnds(setting, script, round, messages, made);
        if GoesOn(script, round) {
          SoFarNext(setting, script, first, requests, round, messages, made);
        }
        requests := requests + [Request(messages, allowTools)];
        if reply.ModelFails? {
          return requests, messages, Failed;
        }
        messages := messages + [Assistant(reply.text, reply.calls)];
        if reply.calls == [] {
          return requests, messages, Said(if reply.text == "" then NO_TEXT else reply.text);
        }
        var outputs: Option<seq<Message>>;
        outputs, repeats := ExecuteAll(repeats, made, reply.calls, reply.outcomes);
        if outputs.None? {
          return requests, messages, Failed;
        }
        messages := messages + outputs.value;
        made := made + reply.calls;
        round := round + 1;
      }
      ending := Said(LIMIT_REACHED);
    }

    /** One call. The ledger of identical calls is kept before the call first waits. */
    method Execute(before: map<string, nat>, ghost made: seq<ToolCall>, call: ToolCall, outcome: Outcome)
      returns (message: Option<Message>, repeats: map<string, nat>)
      requires LedgerOf(setting, before, made)
      ensures LedgerOf(setting, repeats, made + [call])
      ensures
        var count := Occurrences(setting, made, RepeatKey(setting, call)) + 1;
        message == if outcome.Thrown? then None else Some(Answered(setting, count, call, outcome))
    {
      var key := RepeatKey(setting, call);
      var count := (if key in before then before[key] else 0) + 1;
      LedgerStep(setting, before, made, call);
      repeats := if call.name in setting.tools then before[key := count] else before;
      message := if outcome.Thrown? then None else Some(Answered(setting, count, call, outcome));
    }

    /** The calls of one answer, in order. */
    method ExecuteAll(before: map<string, nat>, ghost made: seq<ToolCall>, calls: seq<ToolCall>, outcomes: seq<Outcome>)
      returns (outputs: Option<seq<Message>>, repeats: map<string, nat>)
      requires LedgerOf(setting, before, made) && |outcomes| == |calls|
      ensures LedgerOf(setting, repeats, made + calls)
      ensures outputs == if !NoneThrown(outcomes) then None else Some(Outputs(setting, made, calls, outcomes))
    {
      repeats, outputs := before, Some([]);
      assert made + calls[..0] == made;
      for i := 0 to |calls|
        invariant LedgerOf(setting, repeats, made + calls[..i])
        invariant outputs == OutputsUpTo(setting, made, calls, outcomes, i)
      {
        OutputsNext(setting, made, calls, outcomes, i);
        var message: Option<Message>;
        message, repeats := Execute(repeats, made + calls[..i], calls[i], outcomes[i]);
        outputs := if outputs.Some? && message.Some? then Some(outputs.value + [message.value]) else None;
      }
      assert calls[..|calls|] == calls && outcomes[..|calls|] == outcomes;
    }
  }

  predicate GoesOn(script: seq<Round>, round: nat)
    requires Fits(script)
  {
    round < MAX_ROUNDS && script[round].Replies? && script[round].calls != [] && NoneThrown(script[round].outcomes)
  }

  /** The messages after a round with tool calls. */
  function Next(s: Setting, script: seq<Round>, round: nat, messages: seq<Message>, made: seq<ToolCall>): seq<Message>
    requires Fits(script) && GoesOn(script, round)
  {
    messages + [Assistant(script[round].text, script[round].calls)]
    + Outputs(s, made, script[round].calls, script[round].outcomes)
  }

  lemma ConductedOn(s: Setting, script: seq<Round>, round: nat, messages: seq<Message>, made: seq<ToolCall>)
    requires Fits(script) && GoesOn(script, round)
    ensures
      var next := Next(s, script, round, messages, made);
      var rest := Conducted(s, script, round + 1, next, made + script[round].calls);
      Conducted(s, script, round, messages, made)
      == Turn([Request(messages, round < MAX_ROUNDS - 1)] + rest.requests, rest.messages, rest.ending)
  {}

  lemma RoundEnds(s: Setting, script: seq<Round>, round: nat, messages: seq<Message>, made: seq<ToolCall>)
    requires Fits(script) && round < MAX_ROUNDS
    ensures !GoesOn(script, round) ==>
      var reply := script[round];
      Conducted(s, script, round, messages, made)
      == Turn([Request(messages, round < MAX_ROUNDS - 1)],
              if reply.ModelFails? then messages else messages + [Assistant(reply.text, reply.calls)],
              if reply.ModelFails? || reply.calls != [] then Failed
              else Said(if reply.text == "" then NO_TEXT else reply.text))
  {}

  /** The turn is what was requested so far and what the remaining rounds make of it. */
  ghost predicate SoFar(s: Setting, script: seq<Round>, first: seq<Message>, requests: seq<Request>,
                        round: nat, messages: seq<Message>, made: seq<ToolCall>)
    requires Fits(script) && round <= MAX_ROUNDS
  {
    var rest := Conducted(s, script, round, messages, made);
    Conducted(s, script, 0, first, []) == Turn(requests + rest.requests, rest.messages, rest.ending)
  }

  lemma SoFarNext(s: Setting, script: seq<Round>, first: seq<Message>, requests: seq<Request>,
                  round: nat, messages: seq<Message>, made: seq<ToolCall>)
    requires Fits(script) && GoesOn(script, round) && SoFar(s, script, first, requests, round, messages, made)
    ensures SoFar(s, script, first, requests + [Request(messages, round < MAX_ROUNDS - 1)], round + 1,
                  Next(s, script, round, messages, made), made + script[round].calls)
  {
    ConductedOn(s, script, round, messages, made);
    var request := Request(messages, round < MAX_ROUNDS - 1);
    var rest := Conducted(s, script, round + 1, Next(s, script, round, messages, made), made + script[round].calls);
    assert requests + ([request] + rest.requests) == requests + [request] + rest.requests;
  }

  /** The ledger holds the number of identical calls so far. */
  ghost predicate LedgerOf(s: Setting, repeats: map<string, nat>, made: seq<ToolCall>) {
    forall key :: (if key in repeats then repeats[key] else 0) == Occurrences(s, made, key)
  }

  lemma LedgerStep(s: Setting, repeats: map<string, nat>, made: seq<ToolCall>, call: ToolCall)
    requires LedgerOf(s, repeats, made)
    ensures var key := RepeatKey(s, call);
      var count := (if key in repeats then repeats[key] else 0) + 1;
      LedgerOf(s, if call.name in s.tools then repeats[key := count] else repeats, made + [call])
  {}

  /** The messages for the first n calls, unless one of them throws. */
  function OutputsUpTo(s: Setting, made: seq<ToolCall>, calls: seq<ToolCall>, outcomes: seq<Outcome>,
                       n: nat): Option<seq<Message>>
    requires n <= |calls| == |outcomes|
  {
    if !NoneThrown(outcomes[..n]) then None else Some(Outputs(s, made, calls[..n], outcomes[..n]))
  }

  lemma NoneThrownNext(outcomes: seq<Outcome>, i: nat)
    requires i < |outcomes|
    ensures NoneThrown(outcomes[..i + 1]) <==> NoneThrown(outcomes[..i]) && !outcomes[i].Thrown?
  {
    var longer, shorter := outcomes[..i + 1], outcomes[..i];
    assert forall k :: 0 <= k < i ==> longer[k] == shorter[k];
    assert longer[i] == outcomes[i];
  }

  lemma OutputForPrefix(s: Setting, made: seq<ToolCall>, calls: seq<ToolCall>, outcomes: seq<Outcome>, n: nat, i: nat)
    requires i < n <= |calls| == |outcomes| && !outcomes[i].Thrown?
    ensures OutputFor(s, made, calls[..n], outcomes[..n], i) == OutputFor(s, made, calls, outcomes, i)
  {
    assert calls[..n][..i] == calls[..i];
  }

  lemma OutputsGrow(s: Setting, made: seq<ToolCall>, calls: seq<ToolCall>, outcomes: seq<Outcome>, i: nat)
    requires i < |calls| == |outcomes| && NoneThrown(outcomes[..i + 1]) && NoneThrown(outcomes[..i])
    requires !outcomes[i].Thrown?
    ensures Outputs(s, made, calls[..i + 1], outcomes[..i + 1])
         == Outputs(s, made, calls[..i], outcomes[..i]) + [OutputFor(s, made, calls, outcomes, i)]
  {
    var longer := Outputs(s, made, calls[..i + 1], outcomes[..i + 1]);
    var shorter := Outputs(s, made, calls[..i], outcomes[..i]);
    forall k | 0 <= k < i ensures longer[k] == shorter[k] {
      assert !outcomes[..i][k].Thrown?;
      OutputForPrefix(s, made, calls, outcomes, i + 1, k);
      OutputForPrefix(s, made, calls, outcomes, i, k);
    }
    OutputForPrefix(s, made, calls, outcomes, i + 1, i);
  }

  lemma OutputsNext(s: Setting, made: seq<ToolCall>, calls: seq<ToolCall>, outcomes: seq<Outcome>, i: nat)
    requires i < |calls| == |outcomes|
    ensures made + calls[..i] + [calls[i]] == made + calls[..i + 1]
    ensures OutputsUpTo(s, made, calls, outcomes, i + 1) ==
      if OutputsUpTo(s, made, calls, outcomes, i).None? || outcomes[i].Thrown? then None
      else Some(OutputsUpTo(s, made, calls, outcomes, i).value
                + [OutputFor(s, made, calls, outcomes, i)])
  {
    NoneThrownNext(outcomes, i);
    if NoneThrown(outcomes[..i + 1]) {
      OutputsGrow(s, made, calls, outcomes, i);
    }
  }

  // ---------------------------------------------------------------- the shape of a conversation

  predicate IsAnswer(message: Message, call: ToolCall) {
    message.Tool? && message.callId == call.id
  }

  /** The tool messages answer the calls one for one, in order. */
  ghost predicate Answers(tools: seq<Message>, calls: seq<ToolCall>) {
    |tools| == |calls| && forall i :: 0 <= i < |calls| ==> IsAnswer(tools[i], calls[i])
  }

  /** From index i on: every message with tool calls is followed by exactly the answers to
      them, and there are no other tool messages. */
  ghost predicate DialogueFrom(messages: seq<Message>, i: nat)
    requires i <= |messages|
    decreases |messages| - i
  {
    if i == |messages| then true
    else
      match messages[i]
      case User(_) => DialogueFrom(messages, i + 1)
      case Assistant(_, calls) =>
        && i + |calls| < |messages|
        && (forall k :: 0 <= k < |calls| ==> IsAnswer(messages[i + 1 + k], calls[k]))
        && DialogueFrom(messages, i + 1 + |calls|)
      case Tool(_, _, _) => false
  }

  ghost predicate Dialogue(messages: seq<Message>) {
    DialogueFrom(messages, 0)
  }

  lemma {:induction false} DialogueTail(messages: seq<Message>, cut: nat, i: nat)
    requires cut + i <= |messages|
    ensures DialogueFrom(messages[cut..], i) <==> DialogueFrom(messages, cut + i)
    decreases |messages| - i
  {
    var tail := messages[cut..];
    if i < |tail| {
      assert tail[i] == messages[cut + i];
      var k := if tail[i].Assistant? then |tail[i].calls| else 0;
      if i + k < |tail| {
        assert forall j :: i < j <= i + k ==> tail[j] == messages[cut + j];
        DialogueTail(messages, cut, i + 1 + k);
      }
    }
  }

  lemma {:induction false} DialogueLonger(a: seq<Message>, b: seq<Message>, i: nat)
    requires i <= |a| && DialogueFrom(a, i) && Dialogue(b)
    ensures DialogueFrom(a + b, i)
    decreases |a| - i
  {
    var all := a + b;
    if i == |a| {
      assert all[|a|..] == b;
      DialogueTail(all, |a|, 0);
    } else {
      assert all[i] == a[i];
      var k := if a[i].Assistant? then |a[i].calls| else 0;
      assert forall j :: i < j <= i + k ==> all[j] == a[j];
      DialogueLonger(a, b, i + 1 + k);
    }
  }

  lemma DialogueConcat(a: seq<Message>, b: seq<Message>)
    requires Dialogue(a) && Dialogue(b)
    ensures Dialogue(a + b)
  {
    DialogueLonger(a, b, 0);
  }

  lemma OutputsAnswer(s: Setting, made: seq<ToolCall>, calls: seq<ToolCall>, outcomes: seq<Outcome>)
    requires |outcomes| == |calls| && NoneThrown(outcomes)
    ensures Answers(Outputs(s, made, calls, outcomes), calls)
  {
    forall i | 0 <= i < |calls| ensures IsAnswer(Outputs(s, made, calls, outcomes)[i], calls[i]) {
      assert Outputs(s, made, calls, outcomes)[i] == OutputFor(s, made, calls, outcomes, i);
    }
  }

  lemma ExchangeIsDialogue(text: string, calls: seq<ToolCall>, tools: seq<Message>)
    requires Answers(tools, calls)
    ensures Dialogue([Assistant(text, calls)] + tools)
  {}

  /** Eight requests at most, tools offered in all but the eighth, each a dialogue that
      extends the one before. */
  ghost predicate RequestsOk(requests: seq<Request>, round: nat, messages: seq<Message>) {
    && round + |requests| <= MAX_ROUNDS
    && (forall i :: 0 <= i < |requests| ==>
        && requests[i].allowTools == (round + i < MAX_ROUNDS - 1)
        && messages <= requests[i].messages && Dialogue(requests[i].messages))
    && forall i, k :: 0 <= i < k < |requests| ==> requests[i].messages < requests[k].messages
  }

  lemma RequestsStep(rest: seq<Request>, round: nat, messages: seq<Message>, next: seq<Message>)
    requires round < MAX_ROUNDS && RequestsOk(rest, round + 1, next) && Dialogue(messages) && messages < next
    ensures RequestsOk([Request(messages, round < MAX_ROUNDS - 1)] + rest, round, messages)
  {}

  lemma DialogueGrows(messages: seq<Message>, text: string, calls: seq<ToolCall>, tools: seq<Message>)
    requires Dialogue(messages) && Answers(tools, calls)
    ensures Dialogue(messages + [Assistant(text, calls)] + tools)
  {
    ExchangeIsDialogue(text, calls, tools);
    DialogueConcat(messages, [Assistant(text, calls)] + tools);
    Regroup(messages, [Assistant(text, calls)], tools);
  }

  lemma RoundIsDialogue(s: Setting, messages: seq<Message>, made: seq<ToolCall>, reply: Round)
    requires Dialogue(messages) && reply.Replies? && |reply.outcomes| == |reply.calls| && NoneThrown(reply.outcomes)
    ensures Dialogue(messages + [Assistant(reply.text, reply.calls)] + Outputs(s, made, reply.calls, reply.outcomes))
  {
    OutputsAnswer(s, made, reply.calls, reply.outcomes);
    DialogueGrows(messages, reply.text, reply.calls, Outputs(s, made, reply.calls, reply.outcomes));
  }

  lemma OneRequest(round: nat, messages: seq<Message>)
    requires round < MAX_ROUNDS && Dialogue(messages)
    ensures RequestsOk([Request(messages, round < MAX_ROUNDS - 1)], round, messages)
  {}

  lemma LastAnswer(messages: seq<Message>, text: string)
    requires Dialogue(messages)
    ensures Dialogue(messages + [Assistant(text, [])])
  {
    DialogueGrows(messages, text, [], []);
    assert messages + [Assistant(text, [])] + [] == messages + [Assistant(text, [])];
  }

  lemma TurnStops(s: Setting, script: seq<Round>, round: nat, messages: seq<Message>, made: seq<ToolCall>)
    requires Fits(script) && round <= MAX_ROUNDS && !GoesOn(script, round) && Dialogue(messages)
    ensures var t := Conducted(s, script, round, messages, made);
      && t.requests == (if round < MAX_ROUNDS then [Request(messages, round < MAX_ROUNDS - 1)] else [])
      && messages <= t.messages && (t.ending.Said? ==> Dialogue(t.messages))
  {
    if round < MAX_ROUNDS && script[round].Replies? {
      LastAnswer(messages, script[round].text);
    }
  }

  /** Over every behaviour of the model and the tools: a turn makes at most eight requests,
      offers tools in all but the eighth, and each request extends the one before. If the
      history was a dialogue, so is every request and so is the whole exchange of a turn
      that ends: every tool call is answered by one tool message, in order. */
  lemma {:induction false} TurnShape(s: Setting, script: seq<Round>, round: nat, messages: seq<Message>,
                                     made: seq<ToolCall>)
    requires Fits(script) && round <= MAX_ROUNDS && Dialogue(messages)
    ensures var t := Conducted(s, script, round, messages, made);
      && RequestsOk(t.requests, round, messages)
      && messages <= t.messages && (t.ending.Said? ==> Dialogue(t.messages))
    decreases MAX_ROUNDS - round
  {
    if GoesOn(script, round) {
      var next, calls := Next(s, script, round, messages, made), script[round].calls;
      RoundIsDialogue(s, messages, made, script[round]);
      TurnShape(s, script, round + 1, next, made + calls);
      ConductedOn(s, script, round, messages, made);
      RequestsStep(Conducted(s, script, round + 1, next, made + calls).requests, round, messages, next);
    } else {
      TurnStops(s, script, round, messages, made);
      if round < MAX_ROUNDS {
        OneRequest(round, messages);
      }
    }
  }

  /** The turn with more history in front: the same answers, and every request and the final
      messages have that history in front. */
  ghost predicate Framed(base: seq<Message>, plain: Turn, framed: Turn) {
    && framed.messages == base + plain.messages && framed.ending == plain.ending
    && |framed.requests| == |plain.requests|
    && forall i :: 0 <= i < |plain.requests| ==>
         framed.requests[i] == Request(base + plain.requests[i].messages, plain.requests[i].allowTools)
  }

  lemma FramedNext(s: Setting, script: seq<Round>, round: nat, base: seq<Message>, messages: seq<Message>,
                   made: seq<ToolCall>)
    requires Fits(script) && GoesOn(script, round)
    ensures Next(s, script, round, base + messages, made) == base + Next(s, script, round, messages, made)
  {}

  lemma FramedStep(base: seq<Message>, messages: seq<Message>, allowTools: bool, plain: Turn, framed: Turn)
    requires Framed(base, plain, framed)
    ensures Framed(base, Turn([Request(messages, allowTools)] + plain.requests, plain.messages, plain.ending),
                   Turn([Request(base + messages, allowTools)] + framed.requests, framed.messages, framed.ending))
  {}

  lemma FramedEnd(s: Setting, script: seq<Round>, round: nat, base: seq<Message>, messages: seq<Message>,
                  made: seq<ToolCall>)
    requires Fits(script) && round < MAX_ROUNDS && !GoesOn(script, round)
    ensures
      Framed(base, Conducted(s, script, round, messages, made), Conducted(s, script, round, base + messages, made))
  {}

  lemma {:induction false} HistoryIsFrame(s: Setting, script: seq<Round>, round: nat, base: seq<Message>,
                                          messages: seq<Message>, made: seq<ToolCall>)
    requires Fits(script) && round <= MAX_ROUNDS
    ensures
      Framed(base, Conducted(s, script, round, messages, made), Conducted(s, script, round, base + messages, made))
    decreases MAX_ROUNDS - round
  {
    if GoesOn(script, round) {
      var next, calls := Next(s, script, round, messages, made), script[round].calls;
      ConductedOn(s, script, round, messages, made);
      ConductedOn(s, script, round, base + messages, made);
      FramedNext(s, script, round, base, messages, made);
      HistoryIsFrame(s, script, round + 1, base, next, made + calls);
      FramedStep(base, messages, round < MAX_ROUNDS - 1, Conducted(s, script, round + 1, next, made + calls),
                 Conducted(s, script, round + 1, base + next, made + calls));
    } else if round < MAX_ROUNDS {
      FramedEnd(s, script, round, base, messages, made);
    }
  }

  /** What a turn adds to its history: the user's message, the answers and the outputs. */
  function Exchange(s: Setting, script: seq<Round>, input: string): seq<Message>
    requires Fits(script)
  {
    Conducted(s, script, 0, [User(input)], []).messages
  }

  function EndingOf(s: Setting, script: seq<Round>, input: string): Ending
    requires Fits(script)
  {
    Conducted(s, script, 0, [User(input)], []).ending
  }

  /** How a turn ends and what it adds do not depend on the history it works on. */
  lemma TurnExtends(s: Setting, script: seq<Round>, base: seq<Message>, input: string)
    requires Fits(script)
    ensures Conducted(s, script, 0, base + [User(input)], []).messages == base + Exchange(s, script, input)
    ensures Conducted(s, script, 0, base + [User(input)], []).ending == EndingOf(s, script, input)
  {
    HistoryIsFrame(s, script, 0, base, [User(input)], []);
  }

  /** The main result, whatever the history is: at most eight model requests, and from the
      user's message on, each request and the final messages answer every tool call with one
      tool message, in order. */
  lemma EveryTurn(s: Setting, script: seq<Round>, base: seq<Message>, input: string)
    requires Fits(script)
    ensures var t := Conducted(s, script, 0, base + [User(input)], []);
      && |t.requests| <= 8
      && (forall i :: 0 <= i < |t.requests| ==>
          && t.requests[i].allowTools == (i < 7)
          && base <= t.requests[i].messages && Dialogue(t.requests[i].messages[|base|..]))
      && base <= t.messages && (t.ending.Said? ==> Dialogue(t.messages[|base|..]))
  {
    var plain, t := Conducted(s, script, 0, [User(input)], []), Conducted(s, script, 0, base + [User(input)], []);
    TurnShape(s, script, 0, [User(input)], []);
    HistoryIsFrame(s, script, 0, base, [User(input)], []);
    assert t.messages[|base|..] == plain.messages;
    forall i | 0 <= i < |t.requests|
      ensures base <= t.requests[i].messages && t.requests[i].messages[|base|..] == plain.requests[i].messages
    {
      assert t.requests[i] == Request(base + plain.requests[i].messages, plain.requests[i].allowTools);
    }
  }

  /** How a turn ends, for every behaviour: the first round that does not go on is the last,
      and it fails the turn exactly if the model fails or a call throws; otherwise its text
      is the answer. */
  lemma {:induction false} TurnEnding(s: Setting, script: seq<Round>, round: nat, messages: seq<Message>,
                                      made: seq<ToolCall>, last: nat)
    requires Fits(script) && round <= last < MAX_ROUNDS && !GoesOn(script, last)
    requires forall r :: round <= r < last ==> GoesOn(script, r)
    ensures var t := Conducted(s, script, round, messages, made);
      && |t.requests| == last - round + 1
      && (t.ending.Failed? <==> script[last].ModelFails? || script[last].calls != [])
      && (t.ending.Said? ==> t.ending.text == if script[last].text == "" then NO_TEXT else script[last].text)
    decreases last - round
  {
    if round == last {
      RoundEnds(s, script, round, messages, made);
    } else {
      ConductedOn(s, script, round, messages, made);
      TurnEnding(s, script, round + 1, Next(s, script, round, messages, made), made + script[round].calls, last);
    }
  }

  /** If all eight rounds ask for tools, the eight requests are made and the turn ends with
      the limit message. */
  lemma {:induction false} LimitReached(s: Setting, script: seq<Round>, round: nat, messages: seq<Message>,
                                        made: seq<ToolCall>)
    requires Fits(script) && round <= MAX_ROUNDS && forall r :: round <= r < MAX_ROUNDS ==> GoesOn(script, r)
    ensures |Conducted(s, script, round, messages, made).requests| == 8 - round
    ensures Conducted(s, script, round, messages, made).ending
         == Said("I reached my tool-step limit before producing a final answer.")
    decreases MAX_ROUNDS - round
  {
    if round < MAX_ROUNDS {
      ConductedOn(s, script, round, messages, made);
      LimitReached(s, script, round + 1, Next(s, script, round, messages, made), made + script[round].calls);
    }
  }

  // ---------------------------------------------------------------- notices

  lemma NoticeNonEmpty(s: Setting, count: nat, name: string, plain: string)
    ensures Notice(s, count, name) + plain == plain <==> count < REPEATED_CALL_WARNING_THRESHOLD
  {}

  lemma AnsweredNotice(s: Setting, count: nat, call: ToolCall, text: string)
    requires call.name in s.tools
    ensures var plain, message := OUTPUT_MARK + Bounded(text), Answered(s, count, call, Output(text));
      && (message.content == plain <==> count < REPEATED_CALL_WARNING_THRESHOLD)
      && message.content == Notice(s, count, call.name) + plain
  {
    NoticeNonEmpty(s, count, call.name, OUTPUT_MARK + Bounded(text));
  }

  /** An output carries the notice from the third identical call of the turn on, and only
      then. */
  lemma NoticeExact(s: Setting, made: seq<ToolCall>, calls: seq<ToolCall>, outcomes: seq<Outcome>, i: nat)
    requires |outcomes| == |calls| && NoneThrown(outcomes) && i < |calls|
    requires calls[i].name in s.tools && outcomes[i].Output?
    ensures var earlier := Occurrences(s, made + calls[..i], RepeatKey(s, calls[i]));
      var plain := OUTPUT_MARK + Bounded(outcomes[i].text);
      var message := Outputs(s, made, calls, outcomes)[i];
      && (message.content == plain <==> earlier < 2)
      && (earlier >= 2 ==> message.content == Notice(s, earlier + 1, calls[i].name) + plain)
  {
    AnsweredNotice(s, Occurrences(s, made + calls[..i], RepeatKey(s, calls[i])) + 1, calls[i], outcomes[i].text);
  }

  // ---------------------------------------------------------------- what is remembered

  lemma LastMessagesAre(messages: seq<Message>)
    ensures var last := LastMessages(messages);
      && |last| == (if |messages| <= MAX_HISTORY_MESSAGES then |messages| else MAX_HISTORY_MESSAGES)
      && last == messages[|messages| - |last|..]
  {}

  /** At most forty messages, the last ones, and no output that was meant for the turn. */
  lemma RememberedBounded(messages: seq<Message>)
    ensures |Remembered(messages)| == if |messages| <= MAX_HISTORY_MESSAGES then |messages| else MAX_HISTORY_MESSAGES
    ensures forall i :: 0 <= i < |Remembered(messages)| ==>
      Remembered(messages)[i] == Redacted(messages[|messages| - |Remembered(messages)| + i])
    ensures forall m :: m in Remembered(messages) && m.Tool? && m.ephemeral ==> m.content == OMITTED
  {
    LastMessagesAre(messages);
    var last := LastMessages(messages);
    var kept := RedactedAll(last);
    forall m | m in kept && m.Tool? && m.ephemeral ensures m.content == OMITTED {
      var i :| 0 <= i < |kept| && kept[i] == m;
      assert m == Redacted(last[i]);
    }
  }

  lemma {:induction false} RedactedFrom(messages: seq<Message>, redacted: seq<Message>, i: nat)
    requires |redacted| == |messages| && i <= |messages|
    requires forall k :: 0 <= k < |messages| ==> redacted[k] == Redacted(messages[k])
    ensures DialogueFrom(redacted, i) <==> DialogueFrom(messages, i)
    decreases |messages| - i
  {
    if i < |messages| {
      var k := if messages[i].Assistant? then |messages[i].calls| else 0;
      if i + k < |messages| {
        RedactedFrom(messages, redacted, i + 1 + k);
      }
    }
  }

  lemma RedactedDialogue(messages: seq<Message>)
    ensures Dialogue(RedactedAll(messages)) <==> Dialogue(messages)
  {
    RedactedFrom(messages, RedactedAll(messages), 0);
  }

  lemma {:induction false} CutFrom(messages: seq<Message>, i: nat, cut: nat)
    requires i <= cut <= |messages| && DialogueFrom(messages, i)
    ensures DialogueFrom(messages, cut) <==> cut == |messages| || !messages[cut].Tool?
    decreases |messages| - i
  {
    if i < cut {
      var k := if messages[i].Assistant? then |messages[i].calls| else 0;
      if cut <= i + k {
        assert IsAnswer(messages[i + 1 + (cut - i - 1)], messages[i].calls[cut - i - 1]);
      } else {
        CutFrom(messages, i + 1 + k, cut);
      }
    }
  }

  /** Cutting a dialogue leaves a dialogue unless the cut falls before a tool message. */
  lemma CutDialogue(messages: seq<Message>, cut: nat)
    requires Dialogue(messages) && cut <= |messages|
    ensures Dialogue(messages[cut..]) <==> cut == |messages| || !messages[cut].Tool?
  {
    CutFrom(messages, 0, cut);
    DialogueTail(messages, cut, 0);
  }

  lemma RememberedAsLast(messages: seq<Message>, last: seq<Message>)
    requires last == LastMessages(messages)
    ensures Dialogue(Remembered(messages)) <==> Dialogue(last)
  {
    RedactedDialogue(last);
  }

  lemma LastDialogue(messages: seq<Message>, last: seq<Message>)
    requires Dialogue(messages) && last == LastMessages(messages)
    ensures Dialogue(last) <==> |messages| <= MAX_HISTORY_MESSAGES || !messages[|messages| - MAX_HISTORY_MESSAGES].Tool?
  {
    if |messages| > MAX_HISTORY_MESSAGES {
      CutDialogue(messages, |messages| - MAX_HISTORY_MESSAGES);
    }
  }

  /** What is remembered of a dialogue is a dialogue exactly when nothing was cut off, or the
      oldest message that was kept is not a tool message. Otherwise the next turn sends the
      model answers to calls that it no longer shows. */
  lemma RememberedDialogue(messages: seq<Message>)
    requires Dialogue(messages)
    ensures Dialogue(Remembered(messages)) <==>
      |messages| <= MAX_HISTORY_MESSAGES || !messages[|messages| - MAX_HISTORY_MESSAGES].Tool?
  {
    var last := LastMessages(messages);
    RememberedAsLast(messages, last);
    LastDialogue(messages, last);
  }

  lemma TwoRounds(s: Setting, script: seq<Round>, messages: seq<Message>)
    requires Fits(script) && GoesOn(script, 0) && script[1].Replies? && script[1].calls == []
    ensures var t := Conducted(s, script, 0, messages, []);
      && t.messages == Next(s, script, 0, messages, []) + [Assistant(script[1].text, [])]
      && t.ending.Said?
  {
    ConductedOn(s, script, 0, messages, []);
    RoundEnds(s, script, 1, Next(s, script, 0, messages, []), [] + script[0].calls);
  }

  function OneExchange(input: string, text: string, calls: seq<ToolCall>, tools: seq<Message>, last: string)
    : seq<Message>
  {
    [User(input)] + [Assistant(text, calls)] + tools + [Assistant(last, [])]
  }

  lemma ExchangeAt(input: string, text: string, calls: seq<ToolCall>, tools: seq<Message>, last: string, i: nat)
    requires Answers(tools, calls) && i < |calls| + 3
    ensures |OneExchange(input, text, calls, tools, last)| == |calls| + 3
    ensures OneExchange(input, text, calls, tools, last)[i].Tool? <==> 2 <= i < |calls| + 2
  {
    var all := OneExchange(input, text, calls, tools, last);
    if 2 <= i < |calls| + 2 {
      assert all[i] == tools[i - 2] && IsAnswer(tools[i - 2], calls[i - 2]);
    }
  }

  lemma ExchangeRemembered(input: string, text: string, calls: seq<ToolCall>, tools: seq<Message>, last: string)
    requires Answers(tools, calls) && Dialogue(OneExchange(input, text, calls, tools, last))
    ensures var all := OneExchange(input, text, calls, tools, last);
      && |all| == |calls| + 3 && (Dialogue(Remembered(all)) <==> |calls| < 39)
      && (|calls| >= 39 ==> Remembered(all)[0].Tool?)
  {
    var all := OneExchange(input, text, calls, tools, last);
    var cut := if |calls| > 37 then |calls| - 37 else 0;
    ExchangeAt(input, text, calls, tools, last, cut);
    RememberedDialogue(all);
    RememberedBounded(all);
  }

  /** It does happen: when the first answer of a conversation makes n calls and the second
      one none, what is remembered pairs calls and answers exactly if n is below 39. From
      39 calls on it begins with the answer to a call that is gone, and so does the next
      request. */
  lemma ManyCallsOrphan(s: Setting, script: seq<Round>, input: string)
    requires Fits(script) && GoesOn(script, 0) && script[1].Replies? && script[1].calls == []
    ensures var t, n := Conducted(s, script, 0, [User(input)], []), |script[0].calls|;
      && t.ending.Said? && Dialogue(t.messages) && |t.messages| == n + 3
      && (Dialogue(Remembered(t.messages)) <==> n < 39)
      && (n >= 39 ==> Remembered(t.messages)[0].Tool?)
  {
    TwoRounds(s, script, [User(input)]);
    TurnShape(s, script, 0, [User(input)], []);
    OutputsAnswer(s, [], script[0].calls, script[0].outcomes);
    ExchangeRemembered(input, script[0].text, script[0].calls, Outputs(s, [], script[0].calls, script[0].outcomes),
                       script[1].text);
  }
}
