/** The mail client's reply wire: lines cut out of chunks, multi-line replies put together
    (section 4.2.1 of RFC 5321), and replies matched with the requests that wait for them. */
module SmtpWire {
  import opened Wrappers
  import opened Sequences
  import opened TextSplit

  /** How a promise handed out by nextReply was settled. */
  datatype Answer =
    | Reply(request: nat, text: string)
    | Rejected(request: nat, reason: string)

  datatype Wire = Wire(
    buffer: string, lines: seq<string>, replies: seq<string>, waiters: seq<nat>,
    failure: Option<string>, answers: seq<Answer>)

  const NEW_WIRE := Wire("", [], [], [], None, [])
  const TIMED_OUT := "SMTP reply timed out"

  // ---------------------------------------------------------------- the operations as functions

  /** Three digits and a space: the last line of a reply. */
  predicate IsFinal(line: string) {
    && |line| >= 4 && line[3] == ' '
    && '0' <= line[0] <= '9' && '0' <= line[1] <= '9' && '0' <= line[2] <= '9'
  }

  function Flushed(w: Wire): Wire {
    var reply := Join(w.lines, "\n");
    if w.waiters == [] then w.(lines := [], replies := w.replies + [reply])
    else w.(lines := [], waiters := w.waiters[1..], answers := w.answers + [Reply(w.waiters[0], reply)])
  }

  function Arrived(w: Wire, line: string): Wire {
    var v := w.(lines := w.lines + [line]);
    if IsFinal(line) then Flushed(v) else v
  }

  function AllArrived(w: Wire, lines: seq<string>): Wire
    decreases |lines|
  {
    if lines == [] then w else AllArrived(Arrived(w, lines[0]), lines[1..])
  }

  /** All complete lines of the buffer arrive; what follows the last CR LF stays. */
  function Drained(w: Wire): Wire {
    AllArrived(w.(buffer := Open(Split(CrLf, w.buffer))), Closed(Split(CrLf, w.buffer)))
  }

  function Fed(w: Wire, chunk: string): Wire {
    Drained(w.(buffer := w.buffer + chunk))
  }

  function Requested(w: Wire, id: nat): Wire {
    if w.replies != [] then w.(replies := w.replies[1..], answers := w.answers + [Reply(id, w.replies[0])])
    else if w.failure.Some? then w.(answers := w.answers + [Rejected(id, w.failure.value)])
    else w.(waiters := w.waiters + [id])
  }

  function Without(waiters: seq<nat>, id: nat): seq<nat> {
    if waiters == [] then [] else if waiters[0] == id then waiters[1..] else [waiters[0]] + Without(waiters[1..], id)
  }

  function TimedOut(w: Wire, id: nat): Wire {
    if id !in w.waiters then w
    else w.(waiters := Without(w.waiters, id), answers := w.answers + [Rejected(id, TIMED_OUT)])
  }

  function RejectAll(waiters: seq<nat>, reason: string): seq<Answer> {
    if waiters == [] then [] else [Rejected(waiters[0], reason)] + RejectAll(waiters[1..], reason)
  }

  function Failed(w: Wire, reason: string): Wire {
    if w.failure.Some? then w
    else w.(failure := Some(reason), waiters := [], answers := w.answers + RejectAll(w.waiters, reason))
  }

  lemma DrainStep(w: Wire)
    ensures First(CrLf, w.buffer) == |w.buffer| ==> Drained(w) == w
    ensures var i := First(CrLf, w.buffer);
      i < |w.buffer| ==>
        && i + 2 <= |w.buffer|
        && Drained(w) == Drained(Arrived(w.(buffer := w.buffer[i + 2..]), w.buffer[..i]))
  {
    var i := First(CrLf, w.buffer);
    if i < |w.buffer| {
      FirstIsFirst(CrLf, w.buffer);
      var line, rest := w.buffer[..i], w.buffer[i + 2..];
      SplitStep(CrLf, w.buffer);
      AfterFirstIs(CrLf, w.buffer, i, 2);
      DrainedStep(w, line, rest, Split(CrLf, rest));
    }
  }

  lemma DrainedStep(w: Wire, line: string, rest: string, pieces: seq<string>)
    requires pieces == Split(CrLf, rest)
    requires Open(Split(CrLf, w.buffer)) == Open(pieces) && Closed(Split(CrLf, w.buffer)) == [line] + Closed(pieces)
    ensures Drained(w) == Drained(Arrived(w.(buffer := rest), line))
  {
    AllArrivedStep(w.(buffer := Open(pieces)), line, Closed(pieces));
    ArrivalKeepsBuffer(w.(buffer := rest), line, Open(pieces));
  }

  lemma ArrivalKeepsBuffer(w: Wire, line: string, buffer: string)
    ensures Arrived(w, line).buffer == w.buffer
    ensures Arrived(w.(buffer := buffer), line) == Arrived(w, line).(buffer := buffer)
  {}

  lemma AllArrivedStep(w: Wire, line: string, more: seq<string>)
    ensures AllArrived(w, [line] + more) == AllArrived(Arrived(w, line), more)
  {
    assert ([line] + more)[1..] == more;
  }

  // ---------------------------------------------------------------- the wire state

  class WireState {
    var buffer: string
    var lines: seq<string>
    var replies: seq<string>
    var waiters: seq<nat>
    var failure: Option<string>
    ghost var answers: seq<Answer>

    ghost function State(): Wire
      reads this
    {
      Wire(buffer, lines, replies, waiters, failure, answers)
    }

    constructor ()
      ensures State() == NEW_WIRE
    {
      buffer, lines, replies, waiters, failure, answers := "", [], [], [], None, [];
    }

    method Feed(chunk: string)
      modifies this
      ensures State() == Fed(old(State()), chunk)
    {
      buffer := buffer + chunk;
      ghost var goal := Drained(State());
      while true
        invariant Drained(State()) == goal
        decreases |buffer|
      {
        var index := First(CrLf, buffer);
        ghost var w := State();
        DrainStep(w);
        if index == |buffer| {
          return;
        }
        var line := buffer[..index];
        buffer := buffer[index + 2..];
        assert State() == w.(buffer := w.buffer[index + 2..]);
        TakeLine(line);
      }
    }

    method TakeLine(line: string)
      modifies this
      ensures State() == Arrived(old(State()), line)
    {
      lines := lines + [line];
      if IsFinal(line) {
        FlushReply();
      }
    }

    method FlushReply()
      modifies this
      ensures State() == Flushed(old(State()))
    {
      var reply := Join(lines, "\n");
      lines := [];
      if waiters == [] {
        replies := replies + [reply];
      } else {
        answers := answers + [Reply(waiters[0], reply)];
        waiters := waiters[1..];
      }
    }

    method NextReply(id: nat)
      modifies this
      ensures State() == Requested(old(State()), id)
    {
      if replies != [] {
        answers := answers + [Reply(id, replies[0])];
        replies := replies[1..];
      } else if failure.Some? {
        answers := answers + [Rejected(id, failure.value)];
      } else {
        waiters := waiters + [id];
      }
    }

    /** The timer of a request that is still waiting. */
    method Expire(id: nat)
      modifies this
      ensures State() == TimedOut(old(State()), id)
    {
      if id in waiters {
        waiters := Without(waiters, id);
        answers := answers + [Rejected(id, TIMED_OUT)];
      }
    }

    method Fail(reason: string)
      modifies this
      ensures State() == Failed(old(State()), reason)
    {
      if failure.Some? {
        return;
      }
      failure := Some(reason);
      var pending := waiters;
      waiters := [];
      ghost var before := answers;
      for i := 0 to |pending|
        invariant answers + RejectAll(pending[i..], reason) == before + RejectAll(pending, reason)
        invariant State().(answers := before) == old(State()).(failure := Some(reason), waiters := [])
      {
        assert pending[i..][0] == pending[i] && pending[i..][1..] == pending[i + 1..];
        answers := answers + [Rejected(pending[i], reason)];
      }
    }
  }

  // ---------------------------------------------------------------- chunk independence

  lemma {:induction false} AllArrivedConcat(w: Wire, a: seq<string>, b: seq<string>)
    ensures AllArrived(w, a + b) == AllArrived(AllArrived(w, a), b)
    decreases |a|
  {
    if a == [] {
      assert a + b == b;
    } else {
      assert (a + b)[0] == a[0] && (a + b)[1..] == a[1..] + b;
      AllArrivedConcat(Arrived(w, a[0]), a[1..], b);
    }
  }

  lemma {:induction false} ArrivalsKeepBuffer(w: Wire, lines: seq<string>, buffer: string)
    ensures AllArrived(w, lines).buffer == w.buffer
    ensures AllArrived(w.(buffer := buffer), lines) == AllArrived(w, lines).(buffer := buffer)
    decreases |lines|
  {
    if lines != [] {
      ArrivalsKeepBuffer(Arrived(w, lines[0]), lines[1..], buffer);
    }
  }

  /** Feeding a text in two chunks, cut anywhere, leaves the wire as feeding it at once. */
  lemma FeedSplit(w: Wire, a: string, b: string)
    ensures Fed(w, a + b) == Fed(Fed(w, a), b)
  {
    var first := Split(CrLf, w.buffer + a);
    var second := Split(CrLf, Open(first) + b);
    assert w.buffer + (a + b) == (w.buffer + a) + b;
    SplitExtends(CrLf, w.buffer + a, b);
    var whole := Closed(first) + second;
    assert Closed(whole) == Closed(first) + Closed(second) && Open(whole) == Open(second);
    ArrivalsKeepBuffer(w.(buffer := Open(first)), Closed(first), Open(second));
    ArrivalsKeepBuffer(w.(buffer := Open(first)), Closed(first), Open(first) + b);
    AllArrivedConcat(w.(buffer := Open(second)), Closed(first), Closed(second));
  }

  // ---------------------------------------------------------------- replies and requests over runs

  datatype Event =
    | Chunk(text: string)
    | Request(id: nat)
    | Timeout(id: nat)
    | Failure(reason: string)

  function Apply(w: Wire, event: Event): Wire {
    match event
    case Chunk(text) => Fed(w, text)
    case Request(id) => Requested(w, id)
    case Timeout(id) => TimedOut(w, id)
    case Failure(reason) => Failed(w, reason)
  }

  function Run(events: seq<Event>): Wire {
    if events == [] then NEW_WIRE else Apply(Run(events[..|events| - 1]), events[|events| - 1])
  }

  function Requests(events: seq<Event>): seq<nat> {
    if events == [] then []
    else
      var e := events[|events| - 1];
      Requests(events[..|events| - 1]) + if e.Request? then [e.id] else []
  }

  function Received(events: seq<Event>): string {
    if events == [] then ""
    else
      var e := events[|events| - 1];
      Received(events[..|events| - 1]) + if e.Chunk? then e.text else ""
  }

  /** The lines after the last reply of the text. */
  function Pending(lines: seq<string>): seq<string> {
    if lines == [] || IsFinal(lines[|lines| - 1]) then []
    else Pending(lines[..|lines| - 1]) + [lines[|lines| - 1]]
  }

  /** The replies in a list of lines: each ends with a final line. */
  function Replies(lines: seq<string>): seq<string> {
    if lines == [] then []
    else
      var init, last := lines[..|lines| - 1], lines[|lines| - 1];
      if IsFinal(last) then Replies(init) + [Join(Pending(init) + [last], "\n")] else Replies(init)
  }

  function Texts(answers: seq<Answer>): seq<string> {
    if answers == [] then []
    else
      var a := answers[|answers| - 1];
      Texts(answers[..|answers| - 1]) + if a.Reply? then [a.text] else []
  }

  function Settled(answers: seq<Answer>): seq<nat> {
    if answers == [] then []
    else Settled(answers[..|answers| - 1]) + [answers[|answers| - 1].request]
  }

  /** Of all lines so far: the replies are delivered or queued, in order and each once; the
      wire never holds a queued reply and a waiting request at the same time, and after a
      failure nobody waits. */
  ghost predicate Consistent(w: Wire, lines: seq<string>) {
    && w.lines == Pending(lines)
    && Texts(w.answers) + w.replies == Replies(lines)
    && (w.replies == [] || w.waiters == [])
    && (w.failure.Some? ==> w.waiters == [])
  }

  lemma AnswerAdded(answers: seq<Answer>, a: Answer)
    ensures Texts(answers + [a]) == Texts(answers) + if a.Reply? then [a.text] else []
    ensures Settled(answers + [a]) == Settled(answers) + [a.request]
  {}

  lemma ArrivalConsistent(w: Wire, lines: seq<string>, line: string)
    requires Consistent(w, lines)
    ensures Consistent(Arrived(w, line), lines + [line])
  {}

  lemma {:induction false} ArrivalsConsistent(w: Wire, lines: seq<string>, more: seq<string>)
    requires Consistent(w, lines)
    ensures Consistent(AllArrived(w, more), lines + more)
    decreases |more|
  {
    if more == [] {
      assert lines + more == lines;
    } else {
      ArrivalConsistent(w, lines, more[0]);
      ArrivalsConsistent(Arrived(w, more[0]), lines + [more[0]], more[1..]);
      assert lines + [more[0]] + more[1..] == lines + more;
    }
  }

  function LinesOf(text: string): seq<string> {
    Closed(Split(CrLf, text))
  }

  lemma {:induction false} RejectAllAnswers(answers: seq<Answer>, waiters: seq<nat>, reason: string)
    ensures Texts(answers + RejectAll(waiters, reason)) == Texts(answers)
    ensures Settled(answers + RejectAll(waiters, reason)) == Settled(answers) + waiters
    decreases |waiters|
  {
    if waiters == [] {
      assert answers + RejectAll(waiters, reason) == answers;
    } else {
      var a := Rejected(waiters[0], reason);
      var rest := RejectAll(waiters[1..], reason);
      AnswerAdded(answers, a);
      RejectAllAnswers(answers + [a], waiters[1..], reason);
      Regroup(answers, [a], rest);
      Regroup(Settled(answers), [waiters[0]], waiters[1..]);
      assert waiters == [waiters[0]] + waiters[1..];
    }
  }

  /** In every run, timeouts and failures included: no reply is lost, duplicated or
      reordered, and the bytes not yet part of a line are kept. */
  lemma {:induction false} RepliesConserved(events: seq<Event>)
    ensures Run(events).buffer == Open(Split(CrLf, Received(events)))
    ensures Consistent(Run(events), LinesOf(Received(events)))
    decreases |events|
  {
    if events == [] {
      assert Split(CrLf, "") == [""];
    } else {
      var init, event := events[..|events| - 1], events[|events| - 1];
      RepliesConserved(init);
      if event.Chunk? {
        ChunkConsistent(Run(init), Received(init), event.text);
      } else {
        OtherConsistent(Run(init), LinesOf(Received(init)), event);
        assert Received(events) == Received(init);
      }
    }
  }

  lemma ChunkConsistent(w: Wire, text: string, chunk: string)
    requires w.buffer == Open(Split(CrLf, text)) && Consistent(w, LinesOf(text))
    ensures Fed(w, chunk).buffer == Open(Split(CrLf, text + chunk))
    ensures Consistent(Fed(w, chunk), LinesOf(text + chunk))
  {
    var pieces := Split(CrLf, w.buffer + chunk);
    LinesExtend(text, chunk);
    DrainedConsistent(w, LinesOf(text), Open(pieces), Closed(pieces));
  }

  lemma LinesExtend(text: string, chunk: string)
    ensures var pieces := Split(CrLf, Open(Split(CrLf, text)) + chunk);
      && LinesOf(text + chunk) == LinesOf(text) + Closed(pieces)
      && Open(Split(CrLf, text + chunk)) == Open(pieces)
  {
    SplitExtends(CrLf, text, chunk);
  }

  lemma DrainedConsistent(w: Wire, lines: seq<string>, buffer: string, more: seq<string>)
    requires Consistent(w, lines)
    ensures var v := AllArrived(w.(buffer := buffer), more); v.buffer == buffer && Consistent(v, lines + more)
  {
    ArrivalsConsistent(w.(buffer := buffer), lines, more);
    ArrivalsKeepBuffer(w.(buffer := buffer), more, "");
  }

  lemma OtherConsistent(w: Wire, lines: seq<string>, event: Event)
    requires Consistent(w, lines) && !event.Chunk?
    ensures Apply(w, event).buffer == w.buffer && Consistent(Apply(w, event), lines)
  {
    match event
    case Request(id) => RequestConsistent(w, lines, id);
    case Timeout(id) => AnswerAdded(w.answers, Rejected(id, TIMED_OUT));
    case Failure(reason) => RejectAllAnswers(w.answers, w.waiters, reason);
  }

  lemma RequestConsistent(w: Wire, lines: seq<string>, id: nat)
    requires Consistent(w, lines)
    ensures Requested(w, id).buffer == w.buffer && Consistent(Requested(w, id), lines)
  {}

  // ---------------------------------------------------------------- who gets which reply

  /** The requests made so far: settled in this order, then still waiting in this order. */
  function Asked(w: Wire): seq<nat> {
    Settled(w.answers) + w.waiters
  }

  ghost predicate AllReplies(answers: seq<Answer>) {
    forall a :: a in answers ==> a.Reply?
  }

  lemma {:induction false} ArrivalsSettle(w: Wire, lines: seq<string>)
    ensures Asked(AllArrived(w, lines)) == Asked(w)
    ensures AllReplies(w.answers) ==> AllReplies(AllArrived(w, lines).answers)
    ensures AllArrived(w, lines).failure == w.failure
    decreases |lines|
  {
    if lines != [] {
      if IsFinal(lines[0]) && w.waiters != [] {
        AnswerAdded(w.answers, Reply(w.waiters[0], Join(w.lines + [lines[0]], "\n")));
        assert Settled(w.answers) + [w.waiters[0]] + w.waiters[1..] == Asked(w);
      }
      ArrivalsSettle(Arrived(w, lines[0]), lines[1..]);
    }
  }

  lemma {:induction false} WithoutOne(waiters: seq<nat>, id: nat)
    requires id in waiters
    ensures multiset(Without(waiters, id)) + multiset{id} == multiset(waiters)
  {
    assert waiters == [waiters[0]] + waiters[1..];
    if waiters[0] != id {
      WithoutOne(waiters[1..], id);
    }
  }

  lemma StepAsks(w: Wire, lines: seq<string>, event: Event)
    requires Consistent(w, lines) && !event.Timeout?
    ensures Asked(Apply(w, event)) == Asked(w) + if event.Request? then [event.id] else []
    ensures !event.Failure? && w.failure.None? && AllReplies(w.answers) ==>
      AllReplies(Apply(w, event).answers) && Apply(w, event).failure.None?
  {
    match event
    case Chunk(text) =>
      var pieces := Split(CrLf, w.buffer + text);
      ArrivalsSettle(w.(buffer := Open(pieces)), Closed(pieces));
    case Request(id) =>
      if w.replies != [] {
        AnswerAdded(w.answers, Reply(id, w.replies[0]));
      } else if w.failure.Some? {
        AnswerAdded(w.answers, Rejected(id, w.failure.value));
      }
    case Failure(reason) => RejectAllAnswers(w.answers, w.waiters, reason);
  }

  lemma TimeoutAsks(w: Wire, id: nat)
    ensures multiset(Asked(TimedOut(w, id))) == multiset(Asked(w))
  {
    if id in w.waiters {
      WithoutOne(w.waiters, id);
      AnswerAdded(w.answers, Rejected(id, TIMED_OUT));
      assert multiset(Asked(w)) == multiset(Settled(w.answers)) + multiset(w.waiters);
    }
  }

  /** In every run each request is settled at most once or still waits: the settled and the
      waiting requests are together the requests made, and in the order they were made as
      long as none has timed out. */
  lemma {:induction false} RequestsConserved(events: seq<Event>)
    ensures multiset(Asked(Run(events))) == multiset(Requests(events))
    ensures (forall e :: e in events ==> !e.Timeout?) ==> Asked(Run(events)) == Requests(events)
    ensures (forall e :: e in events ==> !e.Timeout? && !e.Failure?) ==>
      AllReplies(Run(events).answers) && Run(events).failure.None?
    decreases |events|
  {
    if events != [] {
      var init, event := events[..|events| - 1], events[|events| - 1];
      RequestsConserved(init);
      RepliesConserved(init);
      if event.Timeout? {
        TimeoutAsks(Run(init), event.id);
      } else {
        StepAsks(Run(init), LinesOf(Received(init)), event);
      }
    }
  }

  // ---------------------------------------------------------------- failure

  lemma RunNext(events: seq<Event>, event: Event)
    ensures Run(events + [event]) == Apply(Run(events), event)
  {
    assert (events + [event])[..|events|] == events;
  }

  lemma {:induction false} RejectAllAt(waiters: seq<nat>, reason: string)
    ensures |RejectAll(waiters, reason)| == |waiters|
    ensures forall i :: 0 <= i < |waiters| ==> RejectAll(waiters, reason)[i] == Rejected(waiters[i], reason)
  {
    if waiters != [] {
      RejectAllAt(waiters[1..], reason);
    }
  }

  lemma {:induction false} NoFailureYet(events: seq<Event>)
    requires forall e :: e in events ==> !e.Failure?
    ensures Run(events).failure.None?
    decreases |events|
  {
    if events != [] {
      var init, event := events[..|events| - 1], events[|events| - 1];
      NoFailureYet(init);
      FailureStays(Run(init), event);
    }
  }

  lemma FailureStays(w: Wire, event: Event)
    ensures w.failure.Some? || !event.Failure? ==> Apply(w, event).failure == w.failure
  {
    if event.Chunk? {
      var pieces := Split(CrLf, w.buffer + event.text);
      ArrivalsSettle(w.(buffer := Open(pieces)), Closed(pieces));
    }
  }

  lemma {:induction false} FailureInForce(before: seq<Event>, reason: string, after: seq<Event>)
    requires forall e :: e in before ==> !e.Failure?
    ensures Run(before + [Failure(reason)] + after).failure == Some(reason)
    decreases |after|
  {
    if after == [] {
      NoFailureYet(before);
      RunNext(before, Failure(reason));
      assert before + [Failure(reason)] + after == before + [Failure(reason)];
    } else {
      var init, event := after[..|after| - 1], after[|after| - 1];
      FailureInForce(before, reason, init);
      RunNext(before + [Failure(reason)] + init, event);
      FailureStays(Run(before + [Failure(reason)] + init), event);
      assert before + [Failure(reason)] + after == before + [Failure(reason)] + init + [event];
    }
  }

  /** In every run the first failure rejects whoever waits, in order and with its reason. */
  lemma FirstFailureRejects(events: seq<Event>, reason: string)
    requires forall e :: e in events ==> !e.Failure?
    ensures var was, now := Run(events), Run(events + [Failure(reason)]);
      && |now.answers| == |was.answers| + |was.waiters| && was.answers <= now.answers
      && (forall i :: 0 <= i < |was.waiters| ==>
           now.answers[|was.answers| + i] == Rejected(was.waiters[i], reason))
  {
    NoFailureYet(events);
    RunNext(events, Failure(reason));
    RejectAllAt(Run(events).waiters, reason);
  }

  /** In every run, from the first failure on nobody waits: whoever asks gets the first queued
      reply or else is rejected with the reason of that failure. */
  lemma AfterFailure(before: seq<Event>, reason: string, after: seq<Event>, id: nat)
    requires forall e :: e in before ==> !e.Failure?
    ensures var events := before + [Failure(reason)] + after;
      var was, now := Run(events), Run(events + [Request(id)]);
      && was.waiters == [] && now.waiters == []
      && now.answers == was.answers
           + [if was.replies != [] then Reply(id, was.replies[0]) else Rejected(id, reason)]
      && (was.replies != [] ==> now.replies == was.replies[1..])
  {
    var events := before + [Failure(reason)] + after;
    FailureInForce(before, reason, after);
    RepliesConserved(events);
    RunNext(events, Request(id));
  }

  /** When a request times out, its late reply answers the next request. */
  lemma LateReplyGoesToNextRequest(a: nat, b: nat, line: string)
    requires IsFinal(line) && OneLine(line)
    ensures Run([Request(a), Timeout(a), Request(b), Chunk(line + "\r\n")]).answers
         == [Rejected(a, "SMTP reply timed out"), Reply(b, line)]
  {
    var events := [Request(a), Timeout(a), Request(b), Chunk(line + "\r\n")];
    RunStep(events, 0);
    RunStep(events, 1);
    RunStep(events, 2);
    RunStep(events, 3);
    assert events[..0] == [] && events[..4] == events;
    assert Run(events[..1]) == NEW_WIRE.(waiters := [a]);
    assert Without([a], a) == [];
    var w := NEW_WIRE.(answers := [Rejected(a, TIMED_OUT)], waiters := [b]);
    assert Run(events[..3]) == w;
    FeedOneLine(w, line);
    OneLineReply(w, line);
  }

  lemma OneLineReply(w: Wire, line: string)
    requires IsFinal(line) && w.lines == [] && |w.waiters| == 1
    ensures Arrived(w, line).answers == w.answers + [Reply(w.waiters[0], line)]
  {}

  lemma RunStep(events: seq<Event>, n: nat)
    requires n < |events|
    ensures Run(events[..n + 1]) == Apply(Run(events[..n]), events[n])
  {
    assert events[..n + 1][..n] == events[..n];
  }

  lemma FeedOneLine(w: Wire, line: string)
    requires w.buffer == "" && OneLine(line)
    ensures Fed(w, line + "\r\n") == Arrived(w, line)
  {
    var text := line + "\r\n";
    assert text == line + "\r\n" + "" && w.buffer + text == text;
    FirstAfterLine(line, "");
    assert text[..|line|] == line && text[|line|..] == "\r\n" && text[|line| + 2..] == "";
    assert Split(CrLf, "") == [""];
    assert Split(CrLf, text) == [line, ""];
    assert [line, ""][..1] == [line] && [line][1..] == [];
    assert w.(buffer := "") == w;
    assert AllArrived(w, [line]) == AllArrived(Arrived(w, line), []);
  }
}
