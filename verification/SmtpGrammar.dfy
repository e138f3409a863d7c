/** The replies of a mail server by the grammar of RFC 5321, section 4.2, against the replies the
    wire cuts out of the same bytes. */
module SmtpGrammar {
  import opened Sequences
  import opened TextSplit
  import opened SmtpWire

  // ---------------------------------------------------------------- the grammar

  /** Three digits, the first from 2 to 5 and the second from 0 to 5. */
  predicate ReplyCode(s: string) {
    |s| == 3 && '2' <= s[0] <= '5' && '0' <= s[1] <= '5' && '0' <= s[2] <= '9'
  }

  /** Horizontal tabs and printable characters. */
  ghost predicate TextString(s: string) {
    forall c :: c in s ==> c == '\t' || ' ' <= c <= '~'
  }

  /** A line that another line of the same reply follows: the code, a hyphen, a text. */
  ghost predicate ContinuationLine(line: string) {
    |line| >= 4 && ReplyCode(line[..3]) && line[3] == '-' && TextString(line[4..])
  }

  /** The last line of a reply: the code, alone or with a space and a text. */
  ghost predicate LastLine(line: string) {
    |line| >= 3 && ReplyCode(line[..3]) && (|line| > 3 ==> line[3] == ' ' && TextString(line[4..]))
  }

  ghost predicate ServerReply(reply: seq<string>) {
    && reply != [] && LastLine(reply[|reply| - 1])
    && forall i :: 0 <= i < |reply| - 1 ==> ContinuationLine(reply[i])
  }

  /** The last line has the space that the standard makes optional. */
  ghost predicate Spaced(reply: seq<string>) {
    reply != [] && |reply[|reply| - 1]| > 3
  }

  function AllLines(replies: seq<seq<string>>): seq<string> {
    if replies == [] then [] else AllLines(replies[..|replies| - 1]) + replies[|replies| - 1]
  }

  function Joined(replies: seq<seq<string>>): seq<string> {
    if replies == [] then [] else Joined(replies[..|replies| - 1]) + [Join(replies[|replies| - 1], "\n")]
  }

  /** The bytes of a list of lines: each line with a CR LF after it. */
  function Sent(lines: seq<string>): string {
    Join(lines + [""], "\r\n")
  }

  /** The wire takes a line as the last one of a reply exactly if it starts with three digits and
      a space. */
  lemma FinalMeans(line: string)
    ensures IsFinal(line) <==>
      exists code: string, text: string ::
        |code| == 3 && (forall i :: 0 <= i < 3 ==> '0' <= code[i] <= '9') && line == code + " " + text
  {
    if IsFinal(line) {
      var code, text := line[..3], line[4..];
      assert line == code + " " + text;
    }
  }

  // ---------------------------------------------------------------- one more reply

  lemma LineAdded(lines: seq<string>, line: string)
    ensures Pending(lines + [line]) == if IsFinal(line) then [] else Pending(lines) + [line]
    ensures Replies(lines + [line])
      == if IsFinal(line) then Replies(lines) + [Join(Pending(lines) + [line], "\n")] else Replies(lines)
  {}

  lemma {:induction false} Continued(lines: seq<string>, more: seq<string>)
    requires forall i :: 0 <= i < |more| ==> !IsFinal(more[i])
    ensures Pending(lines + more) == Pending(lines) + more && Replies(lines + more) == Replies(lines)
    decreases |more|
  {
    if more == [] {
      assert lines + more == lines && Pending(lines) + more == Pending(lines);
    } else {
      var init, last := more[..|more| - 1], more[|more| - 1];
      assert more == init + [last];
      Continued(lines, init);
      ContinuedLine(lines, init, last);
    }
  }

  lemma ContinuedLine(lines: seq<string>, init: seq<string>, last: string)
    requires Pending(lines + init) == Pending(lines) + init && !IsFinal(last)
    ensures Pending(lines + (init + [last])) == Pending(lines) + (init + [last])
    ensures Replies(lines + (init + [last])) == Replies(lines + init)
  {
    LineAdded(lines + init, last);
    Regroup(lines, init, [last]);
    Regroup(Pending(lines), init, [last]);
  }

  /** After a reply with the space nothing is pending; one without it stays pending. */
  lemma WholeReply(lines: seq<string>, reply: seq<string>)
    requires ServerReply(reply)
    ensures Spaced(reply) ==>
      && Pending(lines + reply) == []
      && Replies(lines + reply) == Replies(lines) + [Join(Pending(lines) + reply, "\n")]
    ensures !Spaced(reply) ==>
      && Pending(lines + reply) == Pending(lines) + reply
      && Replies(lines + reply) == Replies(lines)
  {
    var init, last := reply[..|reply| - 1], reply[|reply| - 1];
    assert reply == init + [last];
    assert forall i :: 0 <= i < |init| ==> init[i] == reply[i] && !IsFinal(init[i]);
    assert last[..3][0] == last[0] && last[..3][1] == last[1] && last[..3][2] == last[2];
    assert IsFinal(last) <==> Spaced(reply);
    Continued(lines, init);
    LineAdded(lines + init, last);
    Regroup(lines, init, [last]);
    Regroup(Pending(lines), init, [last]);
  }

  // ---------------------------------------------------------------- a stream of replies

  /** One reply is cut out for each reply with the space, and the replies are cut where the
      server ended them exactly if all have it. */
  lemma {:induction false} RepliesRead(replies: seq<seq<string>>)
    requires forall r :: r in replies ==> ServerReply(r)
    ensures |Replies(AllLines(replies))| <= |replies|
    ensures (forall r :: r in replies ==> Spaced(r)) ==>
      Replies(AllLines(replies)) == Joined(replies) && Pending(AllLines(replies)) == []
    ensures (exists r :: r in replies && !Spaced(r)) ==> |Replies(AllLines(replies))| < |replies|
    decreases |replies|
  {
    if replies != [] {
      var init, last := replies[..|replies| - 1], replies[|replies| - 1];
      assert last in replies && replies == init + [last];
      RepliesRead(init);
      WholeReply(AllLines(init), last);
      assert [] + last == last;
    }
  }

  lemma {:induction false} JoinedLength(replies: seq<seq<string>>)
    ensures |Joined(replies)| == |replies|
  {
    if replies != [] {
      JoinedLength(replies[..|replies| - 1]);
    }
  }

  lemma {:induction false} AllLinesSingle(replies: seq<seq<string>>)
    requires forall r :: r in replies ==> ServerReply(r)
    ensures forall line :: line in AllLines(replies) ==> OneLine(line)
  {
    if replies != [] {
      var last := replies[|replies| - 1];
      AllLinesSingle(replies[..|replies| - 1]);
      assert last in replies;
      forall line | line in last
        ensures OneLine(line)
      {
        ReplyLineSingle(last, line);
      }
    }
  }

  lemma ReplyLineSingle(reply: seq<string>, line: string)
    requires ServerReply(reply) && line in reply
    ensures OneLine(line)
  {
    var i :| 0 <= i < |reply| && reply[i] == line;
    assert i < |reply| - 1 ==> ContinuationLine(line);
    forall k | 0 <= k < |line|
      ensures line[k] != '\n'
    {
      assert k < 3 ==> line[..3][k] == line[k];
      assert k > 3 ==> line[4..][k - 4] == line[k] && line[k] in line[4..];
    }
  }

  lemma SentRead(lines: seq<string>)
    requires forall line :: line in lines ==> OneLine(line)
    ensures LinesOf(Sent(lines)) == lines && Open(Split(CrLf, Sent(lines))) == ""
  {
    assert OneLine("");
    JoinSplit(lines + [""]);
  }

  /** Whatever else happens on the wire, and however the bytes are cut into chunks: the texts
      delivered and queued are the server's replies, none of it pending, if and only if every
      last line has the space. */
  lemma ServerRepliesRead(events: seq<Event>, replies: seq<seq<string>>)
    requires forall r :: r in replies ==> ServerReply(r)
    requires Received(events) == Sent(AllLines(replies))
    ensures Texts(Run(events).answers) + Run(events).replies == Joined(replies) && Run(events).lines == []
      <==> forall r :: r in replies ==> Spaced(r)
  {
    RepliesConserved(events);
    AllLinesSingle(replies);
    SentRead(AllLines(replies));
    RepliesRead(replies);
    JoinedLength(replies);
  }

  /** A reply that is only a code leaves its request waiting, and the request then takes the
      next reply as part of its own. */
  lemma BareReply(a: nat, bare: string, next: string)
    requires ServerReply([bare]) && !Spaced([bare]) && ServerReply([next]) && Spaced([next])
    ensures Run([Request(a), Chunk(bare + "\r\n")]) == NEW_WIRE.(lines := [bare], waiters := [a])
    ensures Run([Request(a), Chunk(bare + "\r\n"), Chunk(next + "\r\n")])
         == NEW_WIRE.(answers := [Reply(a, bare + "\n" + next)])
  {
    var events := [Request(a), Chunk(bare + "\r\n"), Chunk(next + "\r\n")];
    RunStep(events, 0);
    RunStep(events, 1);
    RunStep(events, 2);
    assert events[..0] == [] && events[..2] == [Request(a), Chunk(bare + "\r\n")] && events[..3] == events;
    var w := NEW_WIRE.(waiters := [a]);
    assert Run(events[..1]) == w;
    ReplyLineSingle([bare], bare);
    ReplyLineSingle([next], next);
    FeedOneLine(w, bare);
    assert [] + [bare] == [bare] && Arrived(w, bare) == w.(lines := [bare]);
    FeedOneLine(w.(lines := [bare]), next);
    SecondReplyArrives(w, bare, next);
  }

  lemma SecondReplyArrives(w: Wire, bare: string, next: string)
    requires ServerReply([next]) && Spaced([next]) && |w.waiters| == 1
    ensures Arrived(w.(lines := [bare]), next)
         == w.(lines := [], waiters := [], answers := w.answers + [Reply(w.waiters[0], bare + "\n" + next)])
  {
    assert [bare] + [next] == [bare, next] && [bare, next][1..] == [next];
    assert next[..3][0] == next[0] && next[..3][1] == next[1] && next[..3][2] == next[2];
    assert IsFinal(next);
    assert Join([bare, next], "\n") == bare + "\n" + next;
    assert w.waiters[1..] == [];
  }

  /** The bytes "250" CR LF answer nothing; those of the next reply answer with both. */
  lemma BareCodeWaits(a: nat)
    ensures ServerReply(["250"]) && ServerReply(["250 done"])
    ensures Run([Request(a), Chunk("250" + "\r\n")]) == NEW_WIRE.(lines := ["250"], waiters := [a])
    ensures Run([Request(a), Chunk("250" + "\r\n"), Chunk("250 done" + "\r\n")]).answers
         == [Reply(a, "250" + "\n" + "250 done")]
  {
    assert "250 done"[..3] == "250" && "250"[..3] == "250" && "250 done"[4..] == "done";
    BareReply(a, "250", "250 done");
  }
}
