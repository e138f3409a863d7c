/** Splitting text at separators, whole or chunk by chunk. */
module TextSplit {
  import opened Sequences

  /** The separators the parsers use: a blank line, \r?\n\r?\n; a line end, \r?\n; and
      the line end of the mail protocol, CR LF. */
  datatype Separator = BlankLine | LineEnd | CrLf {

    /** The length of the separator that s starts with, 0 if it starts with none. */
    function At(s: string): (n: nat)
      ensures n <= |s|
    {
      match this
      case BlankLine =>
        if "\r\n\r\n" <= s then 4
        else if "\r\n\n" <= s || "\n\r\n" <= s then 3
        else if "\n\n" <= s then 2
        else 0
      case LineEnd => if "\r\n" <= s then 2 else if "\n" <= s then 1 else 0
      case CrLf => if "\r\n" <= s then 2 else 0
    }
  }

  /** What a text starts with when it starts with a separator: of a blank line, two line ends,
      each with or without CR. */
  lemma SeparatorsMean(s: string)
    ensures BlankLine.At(s) > 0
      <==> "\n\n" <= s || "\r\n\n" <= s || "\n\r\n" <= s || "\r\n\r\n" <= s
    ensures BlankLine.At(s) > 0 ==> s[..BlankLine.At(s)] in {"\n\n", "\r\n\n", "\n\r\n", "\r\n\r\n"}
    ensures LineEnd.At(s) > 0 <==> "\n" <= s || "\r\n" <= s
    ensures LineEnd.At(s) > 0 ==> s[..LineEnd.At(s)] in {"\n", "\r\n"}
    ensures CrLf.At(s) == if "\r\n" <= s then 2 else 0
  {
    PrefixTaken("\r\n\r\n", s);
    PrefixTaken("\r\n\n", s);
    PrefixTaken("\n\r\n", s);
    PrefixTaken("\n\n", s);
    PrefixTaken("\r\n", s);
    PrefixTaken("\n", s);
    assert "\r\n\r\n" <= s ==> s[0] == '\r' && s[2] == '\r';
    assert "\r\n\n" <= s ==> s[0] == '\r' && s[2] == '\n';
    assert "\n\r\n" <= s ==> s[0] == '\n' && s[1] == '\r';
    assert "\n\n" <= s ==> s[0] == '\n' && s[1] == '\n';
  }

  lemma PrefixTaken(start: string, s: string)
    ensures start <= s ==> s[..|start|] == start
  {}

  /** Where the first separator starts; |s| if there is none. */
  function First(sep: Separator, s: string): (i: nat)
    ensures i <= |s|
  {
    if s == "" || sep.At(s) > 0 then 0 else 1 + First(sep, s[1..])
  }

  lemma {:induction false} FirstIsFirst(sep: Separator, s: string)
    ensures First(sep, s) < |s| ==> sep.At(s[First(sep, s)..]) > 0
    ensures forall j :: 0 <= j < First(sep, s) ==> sep.At(s[j..]) == 0
  {
    assert s[0..] == s;
    if s != "" && sep.At(s) == 0 {
      FirstIsFirst(sep, s[1..]);
      forall j | 0 < j <= |s| ensures s[j..] == s[1..][j - 1..] {}
    }
  }

  lemma {:induction false} FirstIs(sep: Separator, s: string, i: nat)
    requires i <= |s| && (i < |s| ==> sep.At(s[i..]) > 0)
    requires forall j :: 0 <= j < i ==> sep.At(s[j..]) == 0
    ensures First(sep, s) == i
  {
    assert s[0..] == s;
    if i > 0 {
      forall j | 0 < j <= |s| ensures s[j..] == s[1..][j - 1..] {}
      FirstIs(sep, s[1..], i - 1);
    }
  }

  /** Where no separator starts can be skipped. */
  lemma {:induction false} FirstSkips(sep: Separator, prefix: string, tail: string)
    requires forall j :: 0 <= j < |prefix| ==> sep.At((prefix + tail)[j..]) == 0
    ensures First(sep, prefix + tail) == |prefix| + First(sep, tail)
    decreases |prefix|
  {
    var s := prefix + tail;
    if prefix == "" {
      assert s == tail;
    } else {
      var rest := prefix[1..] + tail;
      assert s[0..] == s && s[1..] == rest;
      forall j | 0 <= j < |prefix| - 1 ensures sep.At(rest[j..]) == 0 {
        assert rest[j..] == s[j + 1..];
      }
      FirstSkips(sep, prefix[1..], tail);
    }
  }

  /** The pieces between the separators, as the JavaScript split gives them. */
  function Split(sep: Separator, s: string): (pieces: seq<string>)
    ensures |pieces| > 0
    decreases |s|
  {
    var i := First(sep, s);
    if i == |s| then [s] else
      FirstIsFirst(sep, s);
      [s[..i]] + Split(sep, s[i + sep.At(s[i..])..])
  }

  function Closed<T>(pieces: seq<T>): seq<T>
    requires |pieces| > 0
  {
    pieces[..|pieces| - 1]
  }

  function Open<T>(pieces: seq<T>): T
    requires |pieces| > 0
  {
    pieces[|pieces| - 1]
  }

  function Concat(chunks: seq<string>): string {
    if chunks == [] then "" else chunks[0] + Concat(chunks[1..])
  }

  lemma {:induction false} ConcatSnoc(chunks: seq<string>, chunk: string)
    ensures Concat(chunks + [chunk]) == Concat(chunks) + chunk
  {
    if chunks == [] {
      assert chunks + [chunk] == [chunk] && Concat([]) == "";
      assert [chunk][1..] == [];
    } else {
      assert (chunks + [chunk])[1..] == chunks[1..] + [chunk];
      ConcatSnoc(chunks[1..], chunk);
    }
  }

  lemma ConcatExtends(chunks: seq<string>, i: nat)
    requires i < |chunks|
    ensures Concat(chunks[..i + 1]) == Concat(chunks[..i]) + chunks[i]
  {
    assert chunks[..i + 1] == chunks[..i] + [chunks[i]];
    ConcatSnoc(chunks[..i], chunks[i]);
  }

  function Join(lines: seq<string>, glue: string): string {
    if lines == [] then "" else if |lines| == 1 then lines[0] else lines[0] + glue + Join(lines[1..], glue)
  }

  // ---------------------------------------------------------------- chunked splitting

  /** A separator found in a text is found, unchanged, in every longer text. */
  lemma AtStable(sep: Separator, s: string, b: string)
    requires sep.At(s) > 0
    ensures sep.At(s + b) == sep.At(s)
  {
    var n := sep.At(s);
    assert (s + b)[..n] == s[..n];
    assert "\r\n\r\n" <= s + b ==> "\r\n" <= s + b;
    assert s[0] == (s + b)[0] && (|s| > 1 ==> s[1] == (s + b)[1]);
    assert (|s| > 2 ==> s[2] == (s + b)[2]) && (|s| > 3 ==> s[3] == (s + b)[3]);
  }

  /** A separator that reaches over the end of s leaves no room for another one inside s. */
  lemma AtSpanning(sep: Separator, s: string, b: string, i: nat)
    requires sep.At(s) == 0 && sep.At(s + b) > 0 && i < |s|
    ensures sep.At(s[i..]) == 0
  {
    var t := s + b;
    assert |s| < sep.At(t) <= 4;
    assert forall k :: 0 <= k < |s| ==> s[k] == t[k];
    assert forall k :: 0 <= k < |s| - i ==> s[i..][k] == s[i + k];
  }

  /** Text that arrives later does not move the first separator. */
  lemma FirstStable(sep: Separator, a: string, b: string)
    requires First(sep, a) < |a|
    ensures First(sep, a + b) == First(sep, a)
    ensures sep.At((a + b)[First(sep, a)..]) == sep.At(a[First(sep, a)..])
  {
    var i := First(sep, a);
    FirstIsFirst(sep, a);
    forall j | 0 <= j <= i
      ensures (a + b)[j..] == a[j..] + b
    {}
    AtStable(sep, a[i..], b);
    forall j | 0 <= j < i
      ensures sep.At((a + b)[j..]) == 0
    {
      assert a[j..][i - j..] == a[i..];
      if sep.At(a[j..] + b) > 0 {
        AtSpanning(sep, a[j..], b, i - j);
        assert false;
      }
    }
    FirstIs(sep, a + b, i);
  }

  function AfterFirst(sep: Separator, s: string): string {
    var i := First(sep, s);
    s[i + sep.At(s[i..])..]
  }

  lemma ClosedCons(first: string, rest: seq<string>)
    requires |rest| > 0
    ensures Closed([first] + rest) == [first] + Closed(rest) && Open([first] + rest) == Open(rest)
  {}

  lemma SplitUnfold(sep: Separator, s: string)
    requires First(sep, s) < |s|
    ensures Split(sep, s) == [s[..First(sep, s)]] + Split(sep, AfterFirst(sep, s))
  {}

  lemma SplitStep(sep: Separator, s: string)
    requires First(sep, s) < |s|
    ensures Split(sep, s) == [s[..First(sep, s)]] + Split(sep, AfterFirst(sep, s))
    ensures Closed(Split(sep, s)) == [s[..First(sep, s)]] + Closed(Split(sep, AfterFirst(sep, s)))
    ensures Open(Split(sep, s)) == Open(Split(sep, AfterFirst(sep, s)))
  {
    SplitUnfold(sep, s);
    ClosedCons(s[..First(sep, s)], Split(sep, AfterFirst(sep, s)));
  }

  lemma CutConcat(a: string, b: string, k: nat)
    requires k <= |a|
    ensures (a + b)[..k] == a[..k] && (a + b)[k..] == a[k..] + b
  {}

  lemma AfterFirstIs(sep: Separator, s: string, i: nat, n: nat)
    requires First(sep, s) == i && sep.At(s[i..]) == n
    ensures i + n <= |s| && AfterFirst(sep, s) == s[i + n..]
  {}

  lemma AfterFirstStable(sep: Separator, a: string, b: string)
    requires First(sep, a) < |a|
    ensures First(sep, a + b) == First(sep, a) && (a + b)[..First(sep, a)] == a[..First(sep, a)]
    ensures |AfterFirst(sep, a)| < |a| && AfterFirst(sep, a + b) == AfterFirst(sep, a) + b
  {
    var i := First(sep, a);
    var n := sep.At(a[i..]);
    FirstIsFirst(sep, a);
    FirstStable(sep, a, b);
    AfterFirstIs(sep, a, i, n);
    AfterFirstIs(sep, a + b, i, n);
    CutConcat(a, b, i);
    CutConcat(a, b, i + n);
  }

  /** Chunked splitting: keep the open piece, put the next chunk behind it, go on. The
      closed pieces are those of the whole text, wherever the text is cut. */
  lemma {:induction false} SplitExtends(sep: Separator, a: string, b: string)
    ensures Split(sep, a + b) == Closed(Split(sep, a)) + Split(sep, Open(Split(sep, a)) + b)
    decreases |a|
  {
    var i := First(sep, a);
    if i == |a| {
      assert Split(sep, a) == [a];
    } else {
      AfterFirstStable(sep, a, b);
      var rest := AfterFirst(sep, a);
      SplitExtends(sep, rest, b);
      SplitExtendsStep(sep, a, b, Open(Split(sep, rest)) + b);
    }
  }

  lemma SplitExtendsStep(sep: Separator, a: string, b: string, open: string)
    requires First(sep, a) < |a| && First(sep, a + b) < |a + b|
    requires (a + b)[..First(sep, a + b)] == a[..First(sep, a)]
    requires Split(sep, AfterFirst(sep, a + b)) == Closed(Split(sep, AfterFirst(sep, a))) + Split(sep, open)
    ensures Split(sep, a + b) == Closed(Split(sep, a)) + Split(sep, open)
    ensures Open(Split(sep, a)) == Open(Split(sep, AfterFirst(sep, a)))
  {
    SplitStep(sep, a);
    SplitStep(sep, a + b);
    Regroup([a[..First(sep, a)]], Closed(Split(sep, AfterFirst(sep, a))), Split(sep, open));
  }

  // ---------------------------------------------------------------- joining

  ghost predicate OneLine(s: string) {
    '\n' !in s
  }

  /** Every piece between line ends is a single line. */
  lemma {:induction false} LinesAreOneLine(s: string)
    ensures forall line :: line in Split(LineEnd, s) ==> OneLine(line)
    decreases |s|
  {
    var i := First(LineEnd, s);
    FirstIsFirst(LineEnd, s);
    forall j | 0 <= j < i
      ensures s[j] != '\n'
    {
      assert LineEnd.At(s[j..]) == 0 && s[j..][0] == s[j];
    }
    if i < |s| {
      LinesAreOneLine(AfterFirst(LineEnd, s));
      SplitStep(LineEnd, s);
    }
  }

  /** The first CR LF after a single line is the one that ends it. */
  lemma FirstAfterLine(line: string, rest: string)
    requires OneLine(line)
    ensures First(CrLf, line) == |line|
    ensures First(CrLf, line + "\r\n" + rest) == |line|
  {
    var s := line + "\r\n" + rest;
    forall j | 0 <= j < |line|
      ensures CrLf.At(s[j..]) == 0 && CrLf.At(line[j..]) == 0
    {
      assert s[j..][0] == line[j] && line[j..][0] == line[j];
      assert j + 1 < |line| ==> s[j..][1] == line[j + 1] && line[j..][1] == line[j + 1];
      assert j + 1 == |line| ==> s[j..][1] == '\r';
    }
    assert s[|line|..] == "\r\n" + rest;
    assert "\r\n" <= s[|line|..];
    FirstIs(CrLf, s, |line|);
    FirstIs(CrLf, line, |line|);
  }

  /** Joining single lines with CR LF and splitting again gives the lines back. */
  lemma {:induction false} JoinSplit(lines: seq<string>)
    requires lines != [] && forall line :: line in lines ==> OneLine(line)
    ensures Split(CrLf, Join(lines, "\r\n")) == lines
  {
    if |lines| == 1 {
      FirstAfterLine(lines[0], "");
    } else {
      var rest := Join(lines[1..], "\r\n");
      var s := lines[0] + "\r\n" + rest;
      FirstAfterLine(lines[0], rest);
      assert "\r\n" <= s[|lines[0]|..] && s[..|lines[0]|] == lines[0] && s[|lines[0]| + 2..] == rest;
      JoinSplit(lines[1..]);
    }
  }

  /** A single line that does not end in a bare carriage return. */
  ghost predicate CleanLine(s: string) {
    OneLine(s) && (s != "" ==> s[|s| - 1] != '\r')
  }

  lemma FirstEndAfterLine(line: string, rest: string)
    requires CleanLine(line)
    ensures First(LineEnd, line) == |line|
    ensures First(LineEnd, line + "\n" + rest) == |line|
    ensures LineEnd.At((line + "\n" + rest)[|line|..]) == 1
  {
    var s := line + "\n" + rest;
    forall j | 0 <= j < |line|
      ensures LineEnd.At(s[j..]) == 0 && LineEnd.At(line[j..]) == 0
    {
      assert s[j..][0] == line[j] && line[j..][0] == line[j];
      assert j + 1 < |line| ==> s[j..][1] == line[j + 1] && line[j..][1] == line[j + 1];
    }
    assert s[|line|..] == "\n" + rest && s[|line|..][0] == '\n';
    FirstIs(LineEnd, s, |line|);
    FirstIs(LineEnd, line, |line|);
  }

  lemma {:induction false} JoinSplitLines(lines: seq<string>)
    requires lines != [] && forall line :: line in lines ==> CleanLine(line)
    ensures Split(LineEnd, Join(lines, "\n")) == lines
  {
    if |lines| == 1 {
      FirstEndAfterLine(lines[0], "");
    } else {
      var rest := Join(lines[1..], "\n");
      var s := lines[0] + "\n" + rest;
      FirstEndAfterLine(lines[0], rest);
      assert s[..|lines[0]|] == lines[0] && s[|lines[0]| + 1..] == rest;
      JoinSplitLines(lines[1..]);
    }
  }
}
