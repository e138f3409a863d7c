/** The server-sent-event reader: a subset of section 9.2 of the WHATWG HTML Standard. */
module Sse {
  import opened Wrappers
  import opened Sequences
  import opened TextSplit

  const EVENT_PREFIX := "event:"
  const DATA_PREFIX := "data:"

  datatype SseEvent = SseEvent(event: string, data: string)

  /** White space and line terminators of ECMAScript, what trim removes. */
  predicate IsWhite(c: char) {
    || c in "\t\n\r " || c == '\U{B}' || c == '\U{C}' || c == '\U{A0}' || c == '\U{1680}'
    || '\U{2000}' <= c <= '\U{200A}' || c == '\U{2028}' || c == '\U{2029}'
    || c == '\U{202F}' || c == '\U{205F}' || c == '\U{3000}' || c == '\U{FEFF}'
  }

  function TrimStart(s: string): string {
    if s != "" && IsWhite(s[0]) then TrimStart(s[1..]) else s
  }

  function TrimEnd(s: string): string {
    if s != "" && IsWhite(s[|s| - 1]) then TrimEnd(s[..|s| - 1]) else s
  }

  // ---------------------------------------------------------------- one block

  /** The last event line of the first n lines names the event. */
  function EventName(lines: seq<string>, n: nat): string
    requires n <= |lines|
  {
    if n == 0 then "message"
    else if EVENT_PREFIX <= lines[n - 1] then TrimEnd(TrimStart(lines[n - 1][|EVENT_PREFIX|..]))
    else EventName(lines, n - 1)
  }

  function DataLines(lines: seq<string>, n: nat): seq<string>
    requires n <= |lines|
  {
    if n == 0 then []
    else DataLines(lines, n - 1)
         + if DATA_PREFIX <= lines[n - 1] then [TrimStart(lines[n - 1][|DATA_PREFIX|..])] else []
  }

  function EventOf(block: string): Option<SseEvent> {
    var lines := Split(LineEnd, block);
    var data := DataLines(lines, |lines|);
    if data == [] then None else Some(SseEvent(EventName(lines, |lines|), Join(data, "\n")))
  }

  function EventsOf(blocks: seq<string>): seq<SseEvent> {
    if blocks == [] then []
    else (if EventOf(blocks[0]).Some? then [EventOf(blocks[0]).value] else []) + EventsOf(blocks[1..])
  }

  lemma {:induction false} DataMeans(lines: seq<string>, n: nat)
    requires n <= |lines|
    ensures DataLines(lines, n) == [] <==> forall i :: 0 <= i < n ==> !("data:" <= lines[i])
  {
    if n > 0 {
      DataMeans(lines, n - 1);
    }
  }

  lemma {:induction false} UnnamedEvent(lines: seq<string>, n: nat)
    requires n <= |lines| && forall i :: 0 <= i < n ==> !("event:" <= lines[i])
    ensures EventName(lines, n) == "message"
  {
    if n > 0 {
      UnnamedEvent(lines, n - 1);
    }
  }

  lemma {:induction false} NamedEvent(lines: seq<string>, n: nat, k: nat)
    requires k < n <= |lines| && "event:" <= lines[k] && forall i :: k < i < n ==> !("event:" <= lines[i])
    ensures EventName(lines, n) == Trim(lines[k][6..])
  {
    if k < n - 1 {
      NamedEvent(lines, n - 1, k);
    }
  }

  /** A block is an event exactly if one of its lines starts with the data mark. It is named by its
      last event line, without white space around the name, and message if there is none. */
  lemma EventMeans(block: string)
    ensures var lines := Split(LineEnd, block);
      && (EventOf(block).Some? <==> exists i :: 0 <= i < |lines| && "data:" <= lines[i])
      && (EventOf(block).Some? && (forall i :: 0 <= i < |lines| ==> !("event:" <= lines[i])) ==>
            EventOf(block).value.event == "message")
  {
    var lines := Split(LineEnd, block);
    DataMeans(lines, |lines|);
    if forall i :: 0 <= i < |lines| ==> !("event:" <= lines[i]) {
      UnnamedEvent(lines, |lines|);
    }
  }

  lemma EventNamed(block: string, k: nat)
    requires EventOf(block).Some? && k < |Split(LineEnd, block)| && "event:" <= Split(LineEnd, block)[k]
    requires forall i :: k < i < |Split(LineEnd, block)| ==> !("event:" <= Split(LineEnd, block)[i])
    ensures EventOf(block).value.event == Trim(Split(LineEnd, block)[k][6..])
  {
    NamedEvent(Split(LineEnd, block), |Split(LineEnd, block)|, k);
  }

  method ParseSseEvent(block: string) returns (parsed: Option<SseEvent>)
    ensures parsed == EventOf(block)
  {
    var event := "message";
    var data: seq<string> := [];
    var lines := Split(LineEnd, block);
    for i := 0 to |lines|
      invariant event == EventName(lines, i) && data == DataLines(lines, i)
    {
      var line := lines[i];
      if EVENT_PREFIX <= line {
        event := TrimEnd(TrimStart(line[|EVENT_PREFIX|..]));
      }
      if DATA_PREFIX <= line {
        data := data + [TrimStart(line[|DATA_PREFIX|..])];
      }
    }
    parsed := if |data| == 0 then None else Some(SseEvent(event, Join(data, "\n")));
  }

  function ParseSseText(text: string): seq<SseEvent> {
    EventsOf(Split(BlankLine, text))
  }

  // ---------------------------------------------------------------- the stream

  /** Chunk independence: whatever the cuts, the events are those of all the blocks of the
      whole text that a separator ends. */
  method Pump(chunks: seq<string>) returns (events: seq<SseEvent>)
    ensures events == EventsOf(Closed(Split(BlankLine, Concat(chunks))))
  {
    events := [];
    var buffer := "";
    ghost var seen := "";
    assert Split(BlankLine, "") == [""];
    for i := 0 to |chunks|
      invariant seen == Concat(chunks[..i])
      invariant events == EventsOf(Closed(Split(BlankLine, seen)))
      invariant buffer == Open(Split(BlankLine, seen))
    {
      ConcatExtends(chunks, i);
      PumpStep(seen, chunks[i]);
      seen := seen + chunks[i];
      buffer := buffer + chunks[i];
      var blocks := Split(BlankLine, buffer);
      buffer := Open(blocks);
      var emitted := EmitAll(Closed(blocks));
      events := events + emitted;
    }
    assert chunks[..|chunks|] == chunks;
  }

  lemma PumpStep(seen: string, chunk: string)
    ensures var before, after := Split(BlankLine, seen), Split(BlankLine, seen + chunk);
      var added := Split(BlankLine, Open(before) + chunk);
      && EventsOf(Closed(after)) == EventsOf(Closed(before)) + EventsOf(Closed(added))
      && Open(after) == Open(added)
  {
    var closed, blocks := Closed(Split(BlankLine, seen)), Split(BlankLine, Open(Split(BlankLine, seen)) + chunk);
    SplitExtends(BlankLine, seen, chunk);
    ClosedConcat(closed, blocks);
    EventsConcat(closed, Closed(blocks));
  }

  method EmitAll(blocks: seq<string>) returns (emitted: seq<SseEvent>)
    ensures emitted == EventsOf(blocks)
  {
    emitted := [];
    for i := 0 to |blocks|
      invariant emitted + EventsOf(blocks[i..]) == EventsOf(blocks)
    {
      assert blocks[i..][0] == blocks[i] && blocks[i..][1..] == blocks[i + 1..];
      var event := ParseSseEvent(blocks[i]);
      if event.Some? {
        emitted := emitted + [event.value];
      }
    }
  }

  lemma ClosedConcat<T>(a: seq<T>, b: seq<T>)
    requires |b| > 0
    ensures Closed(a + b) == a + Closed(b) && Open(a + b) == Open(b)
  {}

  lemma {:induction false} EventsConcat(a: seq<string>, b: seq<string>)
    ensures EventsOf(a + b) == EventsOf(a) + EventsOf(b)
  {
    if a == [] {
      assert a + b == b;
    } else {
      var all, rest := a + b, a[1..];
      assert all[0] == a[0] && all[1..] == rest + b;
      EventsConcat(rest, b);
      Regroup(if EventOf(a[0]).Some? then [EventOf(a[0]).value] else [], EventsOf(rest), EventsOf(b));
    }
  }

  /** Parsing the whole text differs from reading the stream only in the block that no
      separator has ended. */
  lemma WholeTextAgrees(text: string)
    ensures ParseSseText(text)
         == EventsOf(Closed(Split(BlankLine, text))) + EventsOf([Open(Split(BlankLine, text))])
  {
    var blocks := Split(BlankLine, text);
    assert blocks == Closed(blocks) + [Open(blocks)];
    EventsConcat(Closed(blocks), [Open(blocks)]);
  }

  // ---------------------------------------------------------------- writing and reading back

  /** A name and values that each fit on a line of their own. */
  ghost predicate Plain(name: string, data: seq<string>) {
    CleanLine(name) && data != [] && forall d :: d in data ==> CleanLine(d)
  }

  function Trim(s: string): string {
    TrimEnd(TrimStart(s))
  }

  function Trimmed(data: seq<string>): (trimmed: seq<string>)
    ensures |trimmed| == |data| && forall i :: 0 <= i < |data| ==> trimmed[i] == TrimStart(data[i])
  {
    seq(|data|, i requires 0 <= i < |data| => TrimStart(data[i]))
  }

  /** The name has no white space around it, no value any before it. */
  ghost predicate Sendable(name: string, data: seq<string>) {
    && (name != "" ==> !IsWhite(name[0]) && !IsWhite(name[|name| - 1]))
    && forall d :: d in data ==> d != "" ==> !IsWhite(d[0])
  }

  function Field(prefix: string, value: string): string {
    prefix + (" " + value)
  }

  function DataFields(data: seq<string>): seq<string> {
    if data == [] then [] else [Field(DATA_PREFIX, data[0])] + DataFields(data[1..])
  }

  function BlockOf(name: string, data: seq<string>): string {
    Join([Field(EVENT_PREFIX, name)] + DataFields(data), "\n")
  }

  /** A stream of events, each closed by an empty line. */
  function Written(events: seq<(string, seq<string>)>): string {
    if events == [] then "" else BlockOf(events[0].0, events[0].1) + "\n\n" + Written(events[1..])
  }

  function EventWritten(name: string, data: seq<string>): SseEvent {
    SseEvent(name, Join(data, "\n"))
  }

  /** The event as it is read back: without the white space that the reader strips. */
  function EventRead(name: string, data: seq<string>): SseEvent {
    SseEvent(Trim(name), Join(Trimmed(data), "\n"))
  }

  function AllWritten(events: seq<(string, seq<string>)>): (all: seq<SseEvent>)
    ensures |all| == |events| && forall i :: 0 <= i < |events| ==> all[i] == EventWritten(events[i].0, events[i].1)
  {
    seq(|events|, i requires 0 <= i < |events| => EventWritten(events[i].0, events[i].1))
  }

  function AllRead(events: seq<(string, seq<string>)>): seq<SseEvent> {
    if events == [] then [] else [EventRead(events[0].0, events[0].1)] + AllRead(events[1..])
  }

  /** A field line is clean, starts with its prefix, and holds its value after a space. */
  lemma FieldLine(prefix: string, value: string)
    requires prefix == EVENT_PREFIX || prefix == DATA_PREFIX
    requires CleanLine(value)
    ensures CleanLine(Field(prefix, value))
    ensures EVENT_PREFIX <= Field(prefix, value) <==> prefix == EVENT_PREFIX
    ensures DATA_PREFIX <= Field(prefix, value) <==> prefix == DATA_PREFIX
    ensures Field(prefix, value)[|prefix|..] == " " + value
    ensures TrimStart(" " + value) == TrimStart(value)
    ensures Field(prefix, value)[0] in "ed"
  {
    var line := Field(prefix, value);
    assert line[0] == prefix[0];
    assert (" " + value)[1..] == value;
    forall i | 0 <= i < |line| ensures line[i] != '\n' {
      if i > |prefix| {
        assert line[i] == value[i - |prefix| - 1];
      } else if i < |prefix| {
        assert line[i] == prefix[i];
      }
    }
  }

  lemma {:induction false} DataFieldsClean(data: seq<string>)
    requires forall d :: d in data ==> CleanLine(d)
    ensures |DataFields(data)| == |data|
    ensures forall i :: 0 <= i < |data| ==> DataFields(data)[i] == Field(DATA_PREFIX, data[i])
    ensures forall line :: line in DataFields(data) ==> CleanLine(line) && line != "" && line[0] in "ed"
  {
    if data != [] {
      assert data[0] in data;
      FieldLine(DATA_PREFIX, data[0]);
      DataFieldsClean(data[1..]);
    }
  }

  lemma DataLineStep(lines: seq<string>, value: string, n: nat)
    requires n < |lines| && lines[n] == Field(DATA_PREFIX, value) && CleanLine(value)
    ensures DataLines(lines, n + 1) == DataLines(lines, n) + [TrimStart(value)]
    ensures EventName(lines, n + 1) == EventName(lines, n)
  {
    FieldLine(DATA_PREFIX, value);
  }

  lemma TrimmedNext(data: seq<string>, n: nat)
    requires n < |data|
    ensures Trimmed(data)[..n + 1] == Trimmed(data)[..n] + [TrimStart(data[n])]
  {}

  lemma {:induction false} DataReadBack(lines: seq<string>, data: seq<string>, n: nat)
    requires |lines| == |data| + 1 && n <= |data| && !(DATA_PREFIX <= lines[0])
    requires forall i :: 0 <= i < |data| ==> CleanLine(data[i]) && lines[i + 1] == Field(DATA_PREFIX, data[i])
    ensures DataLines(lines, n + 1) == Trimmed(data)[..n]
    ensures EventName(lines, n + 1) == EventName(lines, 1)
  {
    if n == 0 {
      NoDataLine(lines);
    } else {
      DataReadBack(lines, data, n - 1);
      DataLineStep(lines, data[n - 1], n);
      TrimmedNext(data, n - 1);
    }
  }

  lemma NoDataLine(lines: seq<string>)
    requires lines != [] && !(DATA_PREFIX <= lines[0])
    ensures DataLines(lines, 1) == []
  {
    assert DataLines(lines, 1) == DataLines(lines, 0) + [];
  }

  lemma BlockLines(name: string, data: seq<string>) returns (lines: seq<string>)
    requires Plain(name, data)
    ensures lines == [Field(EVENT_PREFIX, name)] + DataFields(data) && |lines| == |data| + 1
    ensures forall i :: 0 <= i < |data| ==> lines[i + 1] == Field(DATA_PREFIX, data[i])
    ensures forall line :: line in lines ==> CleanLine(line) && line != "" && line[0] in "ed"
  {
    lines := [Field(EVENT_PREFIX, name)] + DataFields(data);
    FieldLine(EVENT_PREFIX, name);
    DataFieldsClean(data);
  }

  lemma BlockRead(name: string, data: seq<string>)
    requires Plain(name, data)
    ensures EventOf(BlockOf(name, data)) == Some(EventRead(name, data))
  {
    var lines := BlockLines(name, data);
    JoinSplitLines(lines);
    FieldLine(EVENT_PREFIX, name);
    assert lines[0] == Field(EVENT_PREFIX, name);
    DataReadBack(lines, data, |data|);
    assert Trimmed(data)[..|data|] == Trimmed(data);
  }

  lemma {:induction false} TrimStartShorter(s: string)
    ensures |TrimStart(s)| <= |s|
    ensures |TrimStart(s)| == |s| ==> TrimStart(s) == s
    ensures TrimStart(s) == s <==> s != "" ==> !IsWhite(s[0])
  {
    if s != "" && IsWhite(s[0]) {
      TrimStartShorter(s[1..]);
    }
  }

  lemma {:induction false} TrimEndShorter(s: string)
    ensures |TrimEnd(s)| <= |s|
    ensures TrimEnd(s) == s <==> s != "" ==> !IsWhite(s[|s| - 1])
  {
    if s != "" && IsWhite(s[|s| - 1]) {
      TrimEndShorter(s[..|s| - 1]);
    }
  }

  lemma TrimExact(s: string)
    ensures Trim(s) == s <==> s != "" ==> !IsWhite(s[0]) && !IsWhite(s[|s| - 1])
  {
    TrimStartShorter(s);
    TrimEndShorter(TrimStart(s));
  }

  /** Lines that are no longer than others join to the same text only if they are the same. */
  lemma {:induction false} JoinTells(a: seq<string>, b: seq<string>)
    requires |a| == |b| && forall i :: 0 <= i < |a| ==> |a[i]| <= |b[i]|
    ensures |Join(a, "\n")| <= |Join(b, "\n")|
    ensures |Join(a, "\n")| == |Join(b, "\n")| ==> forall i :: 0 <= i < |a| ==> |a[i]| == |b[i]|
  {
    if |a| > 1 {
      assert forall i :: 0 <= i < |a| - 1 ==> a[1..][i] == a[i + 1] && b[1..][i] == b[i + 1];
      JoinTells(a[1..], b[1..]);
      forall i | 0 <= i < |a| && |Join(a, "\n")| == |Join(b, "\n")|
        ensures |a[i]| == |b[i]|
      {
        assert i > 0 ==> a[1..][i - 1] == a[i] && b[1..][i - 1] == b[i];
      }
    }
  }

  lemma TrimmedExact(data: seq<string>)
    ensures Join(Trimmed(data), "\n") == Join(data, "\n") <==> forall d :: d in data ==> d != "" ==> !IsWhite(d[0])
  {
    forall i | 0 <= i < |data|
      ensures |TrimStart(data[i])| <= |data[i]|
      ensures |TrimStart(data[i])| == |data[i]| <==> TrimStart(data[i]) == data[i]
      ensures TrimStart(data[i]) == data[i] <==> data[i] != "" ==> !IsWhite(data[i][0])
    {
      TrimStartShorter(data[i]);
    }
    JoinTells(Trimmed(data), data);
    if forall d :: d in data ==> d != "" ==> !IsWhite(d[0]) {
      assert forall i :: 0 <= i < |data| ==> data[i] in data && Trimmed(data)[i] == data[i];
      assert Trimmed(data) == data;
    }
  }

  /** A block gives back the event that was written, stripped of white space around the name
      and before each value: the very same event if and only if there is none. */
  lemma BlockReadBack(name: string, data: seq<string>)
    requires Plain(name, data)
    ensures EventOf(BlockOf(name, data)) == Some(EventRead(name, data))
    ensures EventRead(name, data) == EventWritten(name, data) <==> Sendable(name, data)
  {
    BlockRead(name, data);
    TrimExact(name);
    TrimmedExact(data);
  }

  /** The first blank line after a line and a further line that is not empty. */
  lemma LineThenText(line: string, tail: string)
    requires CleanLine(line) && tail != "" && tail[0] in "ed"
    ensures First(BlankLine, line + ("\n" + tail)) == |line| + 1 + First(BlankLine, tail)
  {
    var s, prefix := line + ("\n" + tail), line + "\n";
    assert s == prefix + tail;
    NoBlankBefore(line, "\n" + tail);
    EndThenText(tail);
    assert s[|line|..] == "\n" + tail;
    FirstSkips(BlankLine, prefix, tail);
  }

  lemma EndThenText(tail: string)
    requires tail != "" && tail[0] in "ed"
    ensures BlankLine.At("\n" + tail) == 0
  {
    var s := "\n" + tail;
    assert s[0] == '\n' && s[1] == tail[0];
  }

  lemma LineThenBlank(line: string, rest: string)
    requires CleanLine(line)
    ensures First(BlankLine, line + ("\n" + ("\n" + rest))) == |line|
  {
    var s := line + ("\n" + ("\n" + rest));
    NoBlankBefore(line, "\n" + ("\n" + rest));
    var tail := s[|line|..];
    assert tail == "\n" + ("\n" + rest) && tail[0] == '\n' && tail[1] == '\n';
    assert "\n\n" <= tail;
    FirstIs(BlankLine, s, |line|);
  }

  lemma RegroupBlock(line: string, x: string, rest: string)
    ensures line + "\n" + x + "\n\n" + rest == line + ("\n" + (x + "\n\n" + rest))
    ensures line + "\n\n" + rest == line + ("\n" + ("\n" + rest))
  {}

  /** A joined block holds no blank line, and the empty line written behind it closes it. */
  lemma {:induction false} BlockCloses(lines: seq<string>, rest: string)
    requires lines != [] && forall line :: line in lines ==> CleanLine(line) && line != "" && line[0] in "ed"
    ensures First(BlankLine, Join(lines, "\n") + "\n\n" + rest) == |Join(lines, "\n")|
    ensures Join(lines, "\n") != "" && Join(lines, "\n")[0] in "ed"
  {
    var line := lines[0];
    if |lines| == 1 {
      RegroupBlock(line, "", rest);
      LineThenBlank(line, rest);
    } else {
      var block := Join(lines[1..], "\n");
      BlockCloses(lines[1..], rest);
      RegroupBlock(line, block, rest);
      assert (block + "\n\n" + rest)[0] == block[0];
      LineThenText(line, block + "\n\n" + rest);
    }
  }

  /** A block, the empty line behind it, and the rest of the stream. */
  lemma BlockThenRest(block: string, rest: string)
    requires First(BlankLine, block + "\n\n" + rest) == |block|
    ensures AfterFirst(BlankLine, block + "\n\n" + rest) == rest
    ensures (block + "\n\n" + rest)[..|block|] == block
  {
    var s := block + "\n\n" + rest;
    var tail := s[|block|..];
    assert tail == "\n\n" + rest && tail[0] == '\n' && tail[1] == '\n';
    assert "\n\n" <= tail && BlankLine.At(tail) == 2;
    assert tail[2..] == rest;
  }

  /** What the reader makes of a written stream, however it is cut into chunks. */
  lemma {:induction false} WrittenRead(events: seq<(string, seq<string>)>)
    requires forall e :: e in events ==> Plain(e.0, e.1)
    ensures EventsOf(Closed(Split(BlankLine, Written(events)))) == AllRead(events)
    ensures Open(Split(BlankLine, Written(events))) == ""
  {
    if events == [] {
      assert Split(BlankLine, "") == [""];
    } else {
      var name, data := events[0].0, events[0].1;
      var block, rest := BlockOf(name, data), Written(events[1..]);
      var lines := BlockLines(name, data);
      BlockCloses(lines, rest);
      BlockThenRest(block, rest);
      SplitStep(BlankLine, Written(events));
      BlockRead(name, data);
      WrittenRead(events[1..]);
      EventsCons(block, Closed(Split(BlankLine, rest)), EventRead(name, data));
    }
  }

  lemma EventsCons(block: string, rest: seq<string>, event: SseEvent)
    requires EventOf(block) == Some(event)
    ensures EventsOf([block] + rest) == [event] + EventsOf(rest)
  {
    assert ([block] + rest)[1..] == rest;
  }

  lemma {:induction false} AllReadAt(events: seq<(string, seq<string>)>, i: nat)
    requires i < |events|
    ensures |AllRead(events)| == |events| && AllRead(events)[i] == EventRead(events[i].0, events[i].1)
  {
    if |events| > 1 {
      AllReadAt(events[1..], if i > 0 then i - 1 else 0);
    }
  }

  /** Events written to a stream come out of the reader exactly as they went in, however the
      stream is cut into chunks, if and only if no event has white space that the reader
      strips. */
  lemma WrittenReadBack(events: seq<(string, seq<string>)>)
    requires forall e :: e in events ==> Plain(e.0, e.1)
    ensures Open(Split(BlankLine, Written(events))) == ""
    ensures EventsOf(Closed(Split(BlankLine, Written(events)))) == AllWritten(events)
      <==> forall e :: e in events ==> Sendable(e.0, e.1)
  {
    WrittenRead(events);
    forall i | 0 <= i < |events|
      ensures |AllRead(events)| == |events|
      ensures AllRead(events)[i] == AllWritten(events)[i] <==> Sendable(events[i].0, events[i].1)
    {
      AllReadAt(events, i);
      BlockReadBack(events[i].0, events[i].1);
    }
    if AllRead(events) == AllWritten(events) {
      forall e | e in events
        ensures Sendable(e.0, e.1)
      {
        var i :| 0 <= i < |events| && events[i] == e;
        assert AllRead(events)[i] == AllWritten(events)[i];
      }
    }
  }

  /** It happens: of a value that starts with a space the reader gives back the rest. */
  lemma SpaceIsLost(name: string, value: string)
    requires CleanLine(name) && Trim(name) == name && CleanLine(value) && TrimStart(value) == value
    ensures var events := [(name, [" " + value])];
      && EventsOf(Closed(Split(BlankLine, Written(events)))) == [SseEvent(name, value)]
      && AllWritten(events) == [SseEvent(name, " " + value)]
  {
    var data := [" " + value];
    CleanAfterSpace(value);
    assert (" " + value)[1..] == value && Trimmed(data) == [value];
    OneRead(name, data);
  }

  lemma CleanAfterSpace(value: string)
    requires CleanLine(value)
    ensures CleanLine(" " + value)
  {
    var s := " " + value;
    assert forall i :: 0 <= i < |s| ==> s[i] == if i == 0 then ' ' else value[i - 1];
  }

  lemma OneRead(name: string, data: seq<string>)
    requires Plain(name, data)
    ensures EventsOf(Closed(Split(BlankLine, Written([(name, data)])))) == [EventRead(name, data)]
  {
    var events := [(name, data)];
    WrittenRead(events);
    assert events[1..] == [] && AllRead(events) == [EventRead(name, data)] + AllRead([]);
  }

  // ---------------------------------------------------------------- the format, letter by letter

  /** An event as the standard writes it: a line with its name, a line with its data. */
  lemma WrittenForm(name: string, value: string)
    requires CleanLine(name) && Trim(name) == name && CleanLine(value) && TrimStart(value) == value
    ensures EventOf("event: " + name + "\n" + "data: " + value) == Some(SseEvent(name, value))
  {
    BlockRead(name, [value]);
    assert Trimmed([value]) == [value];
    OneBlock(name, value, "event: " + name, "data: " + value);
    Regroup("event: " + name + "\n", "data: ", value);
  }

  lemma OneBlock(name: string, value: string, first: string, second: string)
    requires first == "event: " + name && second == "data: " + value
    ensures BlockOf(name, [value]) == first + "\n" + second
  {
    assert Field(EVENT_PREFIX, name) == first && Field(DATA_PREFIX, value) == second;
    assert [value][1..] == [] && DataFields([value]) == [second] + DataFields([]);
    assert DataFields([value]) == [second] && [first] + [second] == [first, second];
    assert [first, second][1..] == [second] && Join([first, second], "\n") == first + "\n" + Join([second], "\n");
  }

  /** The first blank line after a line, in whichever of the four forms. */
  lemma BlankLineCloses(line: string, blank: string, rest: string)
    requires CleanLine(line) && blank in {"\n\n", "\r\n\n", "\n\r\n", "\r\n\r\n"}
    ensures First(BlankLine, line + (blank + rest)) == |line|
    ensures Split(BlankLine, line + (blank + rest)) == [line] + Split(BlankLine, rest)
  {
    var tail := blank + rest;
    var s := line + tail;
    BlankStarts(blank, rest);
    NoBlankBefore(line, tail);
    FirstAtTail(line, tail);
    SplitStep(BlankLine, s);
    CutBlank(line, blank, rest);
  }

  lemma FirstAtTail(line: string, tail: string)
    requires BlankLine.At(tail) > 0 && forall j :: 0 <= j < |line| ==> BlankLine.At((line + tail)[j..]) == 0
    ensures First(BlankLine, line + tail) == |line|
  {
    assert (line + tail)[|line|..] == tail;
    FirstIs(BlankLine, line + tail, |line|);
  }

  lemma CutBlank(line: string, blank: string, rest: string)
    requires First(BlankLine, line + (blank + rest)) == |line| && BlankLine.At(blank + rest) == |blank|
    ensures (line + (blank + rest))[..|line|] == line && AfterFirst(BlankLine, line + (blank + rest)) == rest
  {
    var s := line + (blank + rest);
    assert s[|line|..] == blank + rest;
    AfterFirstIs(BlankLine, s, |line|, |blank|);
    assert s[|line| + |blank|..] == rest;
  }

  lemma NoBlankBefore(line: string, tail: string)
    requires CleanLine(line)
    ensures forall j :: 0 <= j < |line| ==> BlankLine.At((line + tail)[j..]) == 0
  {
    var s := line + tail;
    forall j | 0 <= j < |line|
      ensures BlankLine.At(s[j..]) == 0
    {
      assert s[j..][0] == line[j];
      assert j + 1 < |line| ==> s[j..][1] == line[j + 1];
    }
  }

  lemma BlankStarts(blank: string, rest: string)
    requires blank in {"\n\n", "\r\n\n", "\n\r\n", "\r\n\r\n"}
    ensures BlankLine.At(blank + rest) == |blank|
  {
    var s := blank + rest;
    PrefixIsPrefix(blank, rest);
    if blank == "\n\n" {
      assert s[0] == '\n' && s[1] == '\n';
    } else if blank == "\r\n\n" {
      assert s[0] == '\r' && s[1] == '\n' && s[2] == '\n';
    } else if blank == "\n\r\n" {
      assert s[0] == '\n' && s[1] == '\r';
    }
  }

  lemma PrefixIsPrefix(a: string, b: string)
    ensures a <= a + b && forall i :: 0 <= i < |a| ==> (a + b)[i] == a[i]
  {}
}
