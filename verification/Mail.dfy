/** The mail writer: the DATA section of a message, with dot-stuffing as section 4.5.2 of
    RFC 5321 asks for, and the receiver's side of that section. */
module Mail {
  import opened Wrappers
  import opened TextSplit

  const TERMINATOR := "\r\n.\r\n"

  datatype Message = Message(sender: string, recipient: string, encodedSubject: string, body: string)

  function Stuff(line: string): string {
    if "." <= line then "." + line else line
  }

  function StuffAll(lines: seq<string>): (stuffed: seq<string>)
    ensures |stuffed| == |lines| && forall i :: 0 <= i < |lines| ==> stuffed[i] == Stuff(lines[i])
  {
    if lines == [] then [] else [Stuff(lines[0])] + StuffAll(lines[1..])
  }

  function Headers(m: Message): seq<string> {
    ["From: " + m.sender,
     "To: " + m.recipient,
     "Subject: =?UTF-8?B?" + (m.encodedSubject + "?="),
     "MIME-Version: 1.0",
     "Content-Type: text/plain; charset=UTF-8",
     ""]
  }

  function Mime(m: Message): string {
    Join(Headers(m) + [Join(StuffAll(Split(LineEnd, m.body)), "\r\n"), "."], "\r\n")
  }

  /** What the wire's command writes for the DATA section. */
  function Transmitted(m: Message): string {
    Mime(m) + "\r\n"
  }

  // ---------------------------------------------------------------- the receiver

  /** Where the first end-of-data mark starts; |s| if there is none. */
  function FindTerminator(s: string): (i: nat)
    ensures i <= |s|
  {
    if s == "" || TERMINATOR <= s then 0 else 1 + FindTerminator(s[1..])
  }

  function Unstuff(line: string): string {
    if "." <= line then line[1..] else line
  }

  function UnstuffAll(lines: seq<string>): (plain: seq<string>)
    ensures |plain| == |lines| && forall i :: 0 <= i < |lines| ==> plain[i] == Unstuff(lines[i])
  {
    if lines == [] then [] else [Unstuff(lines[0])] + UnstuffAll(lines[1..])
  }

  /** The lines of the message a receiver reads and what it leaves on the wire. */
  function Receive(stream: string): Option<(seq<string>, string)> {
    var end := FindTerminator(stream);
    if end + |TERMINATOR| > |stream| then None
    else Some((UnstuffAll(Split(CrLf, stream[..end])), stream[end + |TERMINATOR|..]))
  }

  // ---------------------------------------------------------------- transparency

  /** A line that can stand before the end of the data: single, and not the lone dot. */
  ghost predicate DataLine(s: string) {
    OneLine(s) && s != "."
  }

  lemma {:induction false} JoinConcat(a: seq<string>, b: seq<string>, glue: string)
    requires a != [] && b != []
    ensures Join(a + b, glue) == Join(a, glue) + glue + Join(b, glue)
  {
    assert (a + b)[0] == a[0] && (a + b)[1..] == a[1..] + b;
    if |a| == 1 {
      assert a[1..] + b == b;
    } else {
      JoinConcat(a[1..], b, glue);
      RegroupLines(a[0] + glue, Join(a[1..], glue), glue, Join(b, glue));
    }
  }

  lemma RegroupLines(x: string, y: string, glue: string, z: string)
    ensures x + (y + glue + z) == (x + y) + glue + z
  {}

  /** The transmission is all its lines, then the lone dot, each ended by CR LF. */
  lemma TransmittedLines(m: Message)
    ensures Transmitted(m)
         == Join(Headers(m) + StuffAll(Split(LineEnd, m.body)), "\r\n") + TERMINATOR
  {
    var head, lines := Headers(m), StuffAll(Split(LineEnd, m.body));
    var body := Join(lines, "\r\n");
    assert head + [body, "."] == (head + [body]) + ["."];
    JoinConcat(head + [body], ["."], "\r\n");
    JoinConcat(head, [body], "\r\n");
    JoinConcat(head, lines, "\r\n");
    assert "\r\n" + "." + "\r\n" == TERMINATOR;
  }

  lemma StuffedLine(line: string)
    requires OneLine(line)
    ensures DataLine(Stuff(line)) && Unstuff(Stuff(line)) == line
  {}

  lemma AllLines(m: Message)
    requires OneLine(m.sender) && OneLine(m.recipient) && OneLine(m.encodedSubject)
    ensures forall line :: line in Headers(m) + StuffAll(Split(LineEnd, m.body)) ==> DataLine(line)
    ensures UnstuffAll(Headers(m) + StuffAll(Split(LineEnd, m.body))) == Headers(m) + Split(LineEnd, m.body)
  {
    var head, lines := Headers(m), Split(LineEnd, m.body);
    var all := head + StuffAll(lines);
    LinesAreOneLine(m.body);
    forall i | 0 <= i < |all|
      ensures DataLine(all[i]) && Unstuff(all[i]) == (head + lines)[i]
    {
      if i < |head| {
        HeaderLine(m, i);
      } else {
        assert lines[i - |head|] in lines;
        StuffedLine(lines[i - |head|]);
      }
    }
  }

  lemma HeaderLine(m: Message, i: nat)
    requires OneLine(m.sender) && OneLine(m.recipient) && OneLine(m.encodedSubject)
    requires i < |Headers(m)|
    ensures DataLine(Headers(m)[i]) && Unstuff(Headers(m)[i]) == Headers(m)[i]
  {
    var line := Headers(m)[i];
    match i
    case 0 => NamedLine("From: ", m.sender);
    case 1 => NamedLine("To: ", m.recipient);
    case 2 => NamedLine("Subject: =?UTF-8?B?", m.encodedSubject + "?=");
    case _ => assert line == "" || line[0] in "MC";
  }

  lemma NamedLine(name: string, value: string)
    requires OneLine(name) && OneLine(value) && name != "" && name[0] != '.'
    ensures DataLine(name + value) && Unstuff(name + value) == name + value
  {
    assert (name + value)[0] == name[0];
  }

  /** No end-of-data mark starts before the one that ends the last line. */
  lemma {:induction false} TerminatorIsLast(lines: seq<string>, rest: string)
    requires lines != [] && forall line :: line in lines ==> OneLine(line)
    requires forall i :: 0 < i < |lines| ==> lines[i] != "."
    ensures FindTerminator(Join(lines, "\r\n") + (TERMINATOR + rest)) == |Join(lines, "\r\n")|
  {
    var line := lines[0];
    assert line in lines;
    if |lines| == 1 {
      assert TERMINATOR + rest == "\r\n" + (".\r\n" + rest);
      SkipLine(line, ".\r\n" + rest);
      assert TERMINATOR <= TERMINATOR + rest;
    } else {
      var tail := Join(lines[1..], "\r\n") + (TERMINATOR + rest);
      assert Join(lines, "\r\n") + (TERMINATOR + rest) == line + ("\r\n" + tail);
      SkipLine(line, tail);
      NotLoneDot(lines[1..], rest);
      SkipLineEnd(tail);
      TerminatorIsLast(lines[1..], rest);
    }
  }

  /** A mark cannot start inside a single line. */
  lemma {:induction false} SkipLine(line: string, tail: string)
    requires OneLine(line)
    ensures FindTerminator(line + ("\r\n" + tail)) == |line| + FindTerminator("\r\n" + tail)
  {
    if line == "" {
      assert line + ("\r\n" + tail) == "\r\n" + tail;
    } else {
      var s := line + ("\r\n" + tail);
      assert s[1..] == line[1..] + ("\r\n" + tail);
      assert s[0] == line[0] && s[1] == (if |line| > 1 then line[1] else '\r');
      assert TERMINATOR[0] == '\r' && TERMINATOR[1] == '\n';
      assert !(TERMINATOR <= s);
      SkipLine(line[1..], tail);
    }
  }

  lemma SkipLineEnd(tail: string)
    requires !(".\r\n" <= tail)
    ensures FindTerminator("\r\n" + tail) == 2 + FindTerminator(tail)
  {
    var s := "\r\n" + tail;
    assert s[1..] == "\n" + tail && ("\n" + tail)[1..] == tail;
    assert TERMINATOR == "\r\n" + ".\r\n";
    CommonPrefix("\r\n", ".\r\n", tail);
    assert !(TERMINATOR <= "\n" + tail) by {
      assert TERMINATOR[0] == '\r' && ("\n" + tail)[0] == '\n';
    }
  }

  lemma CommonPrefix(x: string, y: string, tail: string)
    ensures x + y <= x + tail <==> y <= tail
  {
    assert (x + tail)[|x|..] == tail;
    if x + y <= x + tail {
      assert y == (x + y)[|x|..] == (x + tail)[|x|..|x| + |y|] == tail[..|y|];
    }
  }

  lemma NotLoneDot(lines: seq<string>, rest: string)
    requires lines != [] && OneLine(lines[0]) && lines[0] != "."
    ensures !(".\r\n" <= Join(lines, "\r\n") + (TERMINATOR + rest))
  {
    var line := lines[0];
    var s := Join(lines, "\r\n") + (TERMINATOR + rest);
    assert forall i :: 0 <= i < |line| ==> s[i] == line[i];
    assert s[|line|] == '\r' && s[|line| + 1] == '\n';
    if |line| == 0 {
      assert s[0] == '\r';
    } else if |line| == 1 {
      assert s[0] != '.';
    } else {
      assert s[2] != '\n';
    }
  }

  /** Mail data transparency: with newline-free addresses, the receiver finds the end of
      the data at its end and, after removing one leading dot from each dotted line, has
      the header lines and exactly the lines of the body, for every body. */
  lemma MailTransparent(m: Message)
    requires OneLine(m.sender) && OneLine(m.recipient) && OneLine(m.encodedSubject)
    ensures FindTerminator(Transmitted(m)) == |Transmitted(m)| - |TERMINATOR|
    ensures var headers :=
        ["From: " + m.sender, "To: " + m.recipient, "Subject: =?UTF-8?B?" + (m.encodedSubject + "?="),
         "MIME-Version: 1.0", "Content-Type: text/plain; charset=UTF-8", ""];
      Receive(Transmitted(m)) == Some((headers + Split(LineEnd, m.body), ""))
  {
    var lines := Headers(m) + StuffAll(Split(LineEnd, m.body));
    var data := Join(lines, "\r\n");
    TransmittedLines(m);
    AllLines(m);
    TerminatorIsLast(lines, "");
    assert TERMINATOR + "" == TERMINATOR;
    JoinSplit(lines);
    assert Transmitted(m)[..|data|] == data;
    assert Transmitted(m)[|data| + |TERMINATOR|..] == "";
    assert UnstuffAll(Split(CrLf, data)) == Headers(m) + Split(LineEnd, m.body);
  }
}
