/** The streaming multi-pattern scanner: one Knuth-Morris-Pratt automaton per pattern,
    with the states carried from chunk to chunk. */
module Scanner {
  import opened Borders
  import opened Wrappers
  import opened TextSplit

  datatype ScanMatch = ScanMatch(pattern: string, endOffset: nat)

  datatype CompiledPattern = CompiledPattern(characters: string, table: seq<nat>) {
    ghost predicate Valid() {
      characters != "" && ValidTable(characters, table)
    }
  }

  // ---------------------------------------------------------------- the failure table

  /** The candidate borders of p[..index + 1] that are longer than prefix + 1 have been
      ruled out: their last character does not agree with p[index]. */
  ghost predicate Rejected(p: string, index: nat, prefix: nat)
    requires index < |p|
  {
    forall k {:trigger Matches(p, p[..index], k)} ::
      prefix < k < index && Matches(p, p[..index], k) ==> p[k] != p[index]
  }

  /** The failure table: every entry is the longest proper border of its prefix.
      The ghost result counts loop iterations; they are at most twice the length. */
  method PrefixTable(characters: string) returns (table: seq<nat>, ghost iterations: nat)
    ensures ValidTable(characters, table)
    ensures iterations <= 2 * |characters|
  {
    var n := |characters|;
    var cells := new nat[n](_ => 0);
    var prefix := 0;
    var index := 1;
    iterations := 0;
    while index < n
      invariant 1 <= index && (n > 0 ==> index <= n) && (n == 0 ==> index == 1)
      invariant 0 <= prefix < index
      invariant forall j :: index <= j < n ==> cells[j] == 0
      invariant n > 0 ==> TableUpTo(characters, cells[..], index)
      invariant index < n ==> Matches(characters, characters[..index], prefix)
      invariant index < n ==> Rejected(characters, index, prefix)
      invariant iterations + 2 * (n - index) + prefix <= 2 * n - (if n == 0 then 2 else 0)
      decreases 2 * (n - index) + prefix
    {
      iterations := iterations + 1;
      ghost var before := cells[..];
      assert characters[..index + 1] == characters[..index] + [characters[index]];
      if characters[index] == characters[prefix] {
        EntryFound(characters, index, prefix);
        prefix := prefix + 1;
        cells[index] := prefix;
        index := index + 1;
        TableExtended(characters, before, cells[..], index - 1);
      } else if prefix > 0 {
        EntryRejected(characters, index, prefix, cells[prefix - 1]);
        assert before[prefix - 1] == Longest(characters, characters[..prefix - 1 + 1], prefix - 1);
        prefix := cells[prefix - 1];
      } else {
        EntryEmpty(characters, index);
        index := index + 1;
        TableExtended(characters, before, cells[..], index - 1);
      }
    }
    table := cells[..];
  }

  lemma TableExtended(p: string, before: seq<nat>, after: seq<nat>, i: nat)
    requires i < |p| == |before| == |after|
    requires TableUpTo(p, before, i)
    requires after == before[i := after[i]] && after[i] == Longest(p, p[..i + 1], i)
    ensures TableUpTo(p, after, i + 1)
  {}

  lemma EntryFound(p: string, index: nat, prefix: nat)
    requires 1 <= index < |p| && prefix < index && p[index] == p[prefix]
    requires Matches(p, p[..index], prefix) && Rejected(p, index, prefix)
    ensures Longest(p, p[..index + 1], index) == prefix + 1
    ensures Matches(p, p[..index + 1], prefix + 1)
    ensures index + 1 < |p| ==> Rejected(p, index + 1, prefix + 1)
  {
    assert p[..index + 1] == p[..index] + [p[index]];
    var q := p[..index + 1];
    forall j | prefix + 1 <= j <= index
      ensures Matches(p, q, j) <==> j == prefix + 1
    {
      MatchesShrink(p, p[..index], p[index], j);
    }
    LongestIs(p, q, index, prefix + 1);
  }

  lemma EntryRejected(p: string, index: nat, prefix: nat, next: nat)
    requires 1 <= index < |p| && 0 < prefix < index && p[index] != p[prefix]
    requires Matches(p, p[..index], prefix) && Rejected(p, index, prefix)
    requires next == Longest(p, p[..prefix], prefix - 1)
    ensures Matches(p, p[..index], next) && Rejected(p, index, next)
  {
    forall k | 0 <= k <= prefix
      ensures Matches(p, p[..index], k) <==> Matches(p, p[..prefix], k)
    {
      MatchesInside(p, p[..index], prefix, k);
    }
  }

  lemma EntryEmpty(p: string, index: nat)
    requires 1 <= index < |p| && p[index] != p[0]
    requires Rejected(p, index, 0)
    ensures Longest(p, p[..index + 1], index) == 0
    ensures index + 1 < |p| ==> Matches(p, p[..index + 1], 0) && Rejected(p, index + 1, 0)
  {
    assert p[..index + 1] == p[..index] + [p[index]];
    var q := p[..index + 1];
    forall j | 0 < j <= index
      ensures !Matches(p, q, j)
    {
      MatchesShrink(p, p[..index], p[index], j);
    }
  }

  // ---------------------------------------------------------------- one automaton step

  /** The automaton state after reading t: the longest prefix of p, shorter than p, that
      t ends with. */
  ghost function StateAfter(p: string, t: string): nat
    requires p != ""
  {
    Longest(p, t, |p| - 1)
  }

  /** One character: from the state of t to the longest prefix of p (p itself included)
      that t + [character] ends with. Every fallback pays for one character of state. */
  method AdvancePattern(compiled: CompiledPattern, state: nat, character: char, ghost t: string)
    returns (next: nat, ghost fallbacks: nat)
    requires compiled.Valid() && state == StateAfter(compiled.characters, t)
    ensures next == Longest(compiled.characters, t + [character], |compiled.characters|)
    ensures next + fallbacks <= state + 1
  {
    ghost var p := compiled.characters;
    next := state;
    fallbacks := 0;
    while next > 0 && character != compiled.characters[next]
      invariant next < |p| && Matches(p, t, next)
      invariant forall k {:trigger Matches(p, t, k)} :: next < k < |p| && Matches(p, t, k) ==> p[k] != character
      invariant next + fallbacks <= state
    {
      ghost var was := next;
      assert compiled.table[was - 1] == Longest(p, p[..was - 1 + 1], was - 1);
      forall k | 0 <= k <= was
        ensures Matches(p, t, k) <==> Matches(p, p[..was], k)
      {
        MatchesInside(p, t, was, k);
      }
      next := compiled.table[next - 1];
      fallbacks := fallbacks + 1;
    }
    AdvanceDone(p, t, character, next);
    if character == compiled.characters[next] {
      next := next + 1;
    }
  }

  lemma AdvanceDone(p: string, t: string, c: char, s: nat)
    requires s < |p| && Matches(p, t, s) && (s == 0 || p[s] == c)
    requires forall k {:trigger Matches(p, t, k)} :: s < k < |p| && Matches(p, t, k) ==> p[k] != c
    ensures Longest(p, t + [c], |p|) == if p[s] == c then s + 1 else s
  {
    var r := if p[s] == c then s + 1 else s;
    forall j | 0 < j <= |p|
      ensures Matches(p, t + [c], j) ==> j <= r
      ensures j == r ==> Matches(p, t + [c], j)
    {
      MatchesShrink(p, t, c, j);
    }
    LongestIs(p, t + [c], |p|, r);
  }

  /** After a full match the automaton falls back to the longest proper border of p,
      so overlapping occurrences are not lost. */
  lemma AfterMatch(compiled: CompiledPattern, t: string)
    requires compiled.Valid() && Matches(compiled.characters, t, |compiled.characters|)
    ensures compiled.table[|compiled.characters| - 1] == StateAfter(compiled.characters, t)
  {
    var p, n := compiled.characters, |compiled.characters|;
    assert compiled.table[n - 1] == Longest(p, p[..n - 1 + 1], n - 1);
    forall k | 0 <= k <= n
      ensures Matches(p, t, k) <==> Matches(p, p[..n], k)
    {
      MatchesInside(p, t, n, k);
    }
    LongestIs(p, t, n - 1, Longest(p, p[..n], n - 1));
  }

  // ---------------------------------------------------------------- what a scan reports

  predicate EndsWith(t: string, p: string) {
    |p| <= |t| && t[|t| - |p|..] == p
  }

  /** The patterns, by index from i on, that the text t ends with. */
  function EndingAt(patterns: seq<string>, t: string, i: nat): seq<ScanMatch>
    requires i <= |patterns|
    decreases |patterns| - i
  {
    if i == |patterns| then []
    else (if EndsWith(t, patterns[i]) then [ScanMatch(patterns[i], |t|)] else [])
         + EndingAt(patterns, t, i + 1)
  }

  lemma EndingAtStep(found: seq<ScanMatch>, patterns: seq<string>, t: string, i: nat)
    requires i < |patterns|
    ensures found + EndingAt(patterns, t, i)
         == (if EndsWith(t, patterns[i]) then found + [ScanMatch(patterns[i], |t|)] else found)
            + EndingAt(patterns, t, i + 1)
  {}

  /** Every occurrence that ends inside chunk when it follows the text before. */
  function Occurrences(patterns: seq<string>, before: string, chunk: string): seq<ScanMatch>
    decreases |chunk|
  {
    if chunk == "" then []
    else
      var t := before + [chunk[0]];
      EndingAt(patterns, t, 0) + Occurrences(patterns, t, chunk[1..])
  }

  /** The automaton of one pattern after reading t: its state, and a budget that the
      fallbacks never exceed. */
  ghost predicate Tracks(compiled: CompiledPattern, state: nat, fallbacks: nat, t: string) {
    && compiled.Valid()
    && state == StateAfter(compiled.characters, t)
    && fallbacks + state <= |t|
  }

  /** The automata from index lo to hi have read t. */
  ghost predicate AllTrack(compiled: seq<CompiledPattern>, states: seq<nat>, fallbacks: seq<nat>,
                           lo: nat, hi: nat, t: string)
  {
    && hi <= |compiled| == |states| == |fallbacks|
    && forall i {:trigger states[i]} :: lo <= i < hi ==> Tracks(compiled[i], states[i], fallbacks[i], t)
  }

  lemma AllTrackStep(compiled: seq<CompiledPattern>, states: seq<nat>, fallbacks: seq<nat>,
                     index: nat, state: nat, spent: nat, before: string, t: string)
    requires AllTrack(compiled, states, fallbacks, 0, index, t)
    requires AllTrack(compiled, states, fallbacks, index, |compiled|, before) && index < |compiled|
    requires Tracks(compiled[index], state, spent, t)
    ensures AllTrack(compiled, states[index := state], fallbacks[index := spent], 0, index + 1, t)
    ensures AllTrack(compiled, states[index := state], fallbacks[index := spent], index + 1, |compiled|, before)
  {}

  class TypeScriptLinearDfaScanner {
    const compiled: seq<CompiledPattern>
    const states: array<nat>
    var offset: nat

    /** The text read since construction or the last reset. */
    ghost var consumed: string
    /** Fallback iterations spent per pattern on that text. */
    ghost var fallbacks: seq<nat>

    ghost predicate Valid()
      reads this, states
    {
      && offset == |consumed|
      && AllTrack(compiled, states[..], fallbacks, 0, |compiled|, consumed)
    }

    ghost function Patterns(): seq<string> {
      seq(|compiled|, i requires 0 <= i < |compiled| => compiled[i].characters)
    }

    constructor (patterns: seq<string>)
      requires "" !in patterns
      ensures Valid() && fresh(states) && Patterns() == patterns && consumed == ""
    {
      var list: seq<CompiledPattern> := [];
      for i := 0 to |patterns|
        invariant |list| == i
        invariant forall j {:trigger list[j]} :: 0 <= j < i ==> list[j].Valid() && list[j].characters == patterns[j]
      {
        var table, _ := PrefixTable(patterns[i]);
        list := list + [CompiledPattern(patterns[i], table)];
      }
      compiled := list;
      states := new nat[|patterns|](_ => 0);
      offset := 0;
      consumed := "";
      fallbacks := seq(|patterns|, _ => 0);
    }

    /** The constructor's check: an empty pattern is an error, every other list compiles. */
    static method Create(patterns: seq<string>)
      returns (scanner: Result<TypeScriptLinearDfaScanner, string>)
      ensures scanner.Err? <==> "" in patterns
      ensures scanner.Ok? ==>
        && fresh(scanner.value) && fresh(scanner.value.states)
        && scanner.value.Valid() && scanner.value.Patterns() == patterns && scanner.value.consumed == ""
    {
      if exists i :: 0 <= i < |patterns| && |patterns[i]| == 0 {
        return Err("Scanner patterns cannot be empty");
      }
      var made := new TypeScriptLinearDfaScanner(patterns);
      scanner := Ok(made);
    }

    /** Reports exactly the occurrences that end in the chunk, and leaves the states a
        scanner has after the whole text so far; fallbacks never outnumber the characters. */
    method Push(chunk: string) returns (matches: seq<ScanMatch>)
      requires Valid()
      modifies this, states
      ensures Valid()
      ensures consumed == old(consumed) + chunk
      ensures matches == Occurrences(Patterns(), old(consumed), chunk)
      ensures forall i {:trigger states[i]} :: 0 <= i < |compiled| ==>
        && compiled[i].characters != ""
        && states[i] == StateAfter(compiled[i].characters, consumed) && fallbacks[i] <= |consumed|
    {
      matches := [];
      assert chunk[0..] == chunk;
      for k := 0 to |chunk|
        invariant Valid() && consumed == old(consumed) + chunk[..k]
        invariant matches + Occurrences(Patterns(), consumed, chunk[k..])
               == Occurrences(Patterns(), old(consumed), chunk)
      {
        assert chunk[k..][0] == chunk[k] && chunk[k..][1..] == chunk[k + 1..];
        var found := ScanCharacter(chunk[k]);
        matches := matches + found;
        offset := offset + 1;
        consumed := consumed + [chunk[k]];
      }
      forall i | 0 <= i < |compiled|
        ensures Tracks(compiled[i], states[i], fallbacks[i], consumed)
      {
        assert states[..][i] == states[i];
      }
    }

    /** Back to the state of a new scanner over the same patterns. */
    method Reset()
      requires Valid()
      modifies this, states
      ensures Valid() && consumed == "" && offset == 0
      ensures forall i :: 0 <= i < states.Length ==> states[i] == 0
    {
      forall i | 0 <= i < states.Length {
        states[i] := 0;
      }
      offset := 0;
      consumed := "";
      fallbacks := seq(|compiled|, _ => 0);
    }

    method ScanCharacter(character: char) returns (found: seq<ScanMatch>)
      requires Valid()
      modifies states, `fallbacks
      ensures AllTrack(compiled, states[..], fallbacks, 0, |compiled|, consumed + [character])
      ensures found == EndingAt(Patterns(), consumed + [character], 0)
    {
      ghost var t, patterns := consumed + [character], Patterns();
      found := [];
      var index := 0;
      while index < |compiled|
        invariant 0 <= index <= |compiled|
        invariant AllTrack(compiled, states[..], fallbacks, 0, index, t)
        invariant AllTrack(compiled, states[..], fallbacks, index, |compiled|, consumed)
        invariant found + EndingAt(patterns, t, index) == EndingAt(patterns, t, 0)
      {
        EndingAtStep(found, patterns, t, index);
        assert patterns[index] == compiled[index].characters;
        var matched := ScanPatternAt(index, character);
        if matched {
          found := found + [ScanMatch(compiled[index].characters, offset + 1)];
        }
        index := index + 1;
      }
    }

    /** One automaton reads the character; the ones before it have, the ones after it have not. */
    method ScanPatternAt(index: nat, character: char) returns (matched: bool)
      requires index < |compiled|
      requires AllTrack(compiled, states[..], fallbacks, 0, index, consumed + [character])
      requires AllTrack(compiled, states[..], fallbacks, index, |compiled|, consumed)
      modifies states, `fallbacks
      ensures AllTrack(compiled, states[..], fallbacks, 0, index + 1, consumed + [character])
      ensures AllTrack(compiled, states[..], fallbacks, index + 1, |compiled|, consumed)
      ensures matched <==> EndsWith(consumed + [character], compiled[index].characters)
    {
      ghost var was := states[..];
      assert Tracks(compiled[index], was[index], fallbacks[index], consumed);
      ghost var spent;
      var state;
      state, matched, spent := ScanPattern(compiled[index], states[index], character, fallbacks[index], consumed);
      AllTrackStep(compiled, was, fallbacks, index, state, spent, consumed, consumed + [character]);
      states[index] := state;
      assert states[..] == was[index := state];
      fallbacks := fallbacks[index := spent];
    }
  }

  /** The loop body of the scan, for one pattern: advance, and after a full match fall
      back to the longest border. */
  method ScanPattern(compiled: CompiledPattern, before: nat, character: char, ghost spent: nat, ghost t: string)
    returns (state: nat, matched: bool, ghost fallbacks: nat)
    requires Tracks(compiled, before, spent, t)
    ensures Tracks(compiled, state, fallbacks, t + [character])
    ensures matched <==> EndsWith(t + [character], compiled.characters)
  {
    ghost var more;
    state, more := AdvancePattern(compiled, before, character, t);
    fallbacks := spent + more;
    StateOrMatch(compiled.characters, t + [character]);
    matched := state == |compiled.characters|;
    if matched {
      AfterMatch(compiled, t + [character]);
      state := compiled.table[state - 1];
      fallbacks := fallbacks + 1;
    }
  }

  /** The longest match is the whole pattern exactly when the text ends with it, and
      otherwise it is the automaton state. */
  lemma StateOrMatch(p: string, t: string)
    requires p != ""
    ensures EndsWith(t, p) <==> Longest(p, t, |p|) == |p|
    ensures !EndsWith(t, p) ==> Longest(p, t, |p|) == StateAfter(p, t)
  {}

  // ---------------------------------------------------------------- properties of the report

  /** Chunk independence: cutting the text anywhere changes nothing. */
  lemma {:induction false} OccurrencesSplit(patterns: seq<string>, before: string, a: string, b: string)
    ensures Occurrences(patterns, before, a + b)
         == Occurrences(patterns, before, a) + Occurrences(patterns, before + a, b)
    decreases |a|
  {
    if a == "" {
      assert a + b == b && before + a == before;
    } else {
      var t := before + [a[0]];
      assert (a + b)[1..] == a[1..] + b;
      assert t + a[1..] == before + a;
      OccurrencesSplit(patterns, t, a[1..], b);
    }
  }

  /** What successive calls of Push report, one result after the other. */
  function PushAll(patterns: seq<string>, before: string, chunks: seq<string>): seq<ScanMatch>
    decreases |chunks|
  {
    if chunks == [] then []
    else Occurrences(patterns, before, chunks[0]) + PushAll(patterns, before + chunks[0], chunks[1..])
  }

  /** Any history of pushes reports what one push of the whole text reports. */
  lemma {:induction false} ChunkIndependence(patterns: seq<string>, before: string, chunks: seq<string>)
    ensures PushAll(patterns, before, chunks) == Occurrences(patterns, before, Concat(chunks))
    decreases |chunks|
  {
    if chunks != [] {
      ChunkIndependence(patterns, before + chunks[0], chunks[1..]);
      OccurrencesSplit(patterns, before, chunks[0], Concat(chunks[1..]));
    }
  }

  /** index[k] is the pattern of the k-th match, which ends the text up to its offset. */
  ghost predicate Sound(patterns: seq<string>, text: string, from: nat,
                        matches: seq<ScanMatch>, index: seq<nat>)
  {
    && |index| == |matches|
    && forall k {:trigger index[k]} {:trigger matches[k]} :: 0 <= k < |index| ==>
         && index[k] < |patterns| && matches[k].pattern == patterns[index[k]]
         && from < matches[k].endOffset <= |text|
         && EndsWith(text[..matches[k].endOffset], matches[k].pattern)
  }

  predicate Before(m: ScanMatch, i: nat, n: ScanMatch, j: nat) {
    m.endOffset < n.endOffset || (m.endOffset == n.endOffset && i < j)
  }

  /** Matches come in strictly increasing order of (end offset, pattern index). */
  ghost predicate Ordered(matches: seq<ScanMatch>, index: seq<nat>) {
    && |index| == |matches|
    && forall j, k :: 0 <= j < k < |index| ==> Before(matches[j], index[j], matches[k], index[k])
  }

  ghost predicate Reported(matches: seq<ScanMatch>, index: seq<nat>, i: nat, e: nat) {
    exists k :: 0 <= k < |index| && k < |matches| && index[k] == i && matches[k].endOffset == e
  }

  ghost predicate Complete(patterns: seq<string>, text: string, from: nat,
                           matches: seq<ScanMatch>, index: seq<nat>)
  {
    forall i, e :: 0 <= i < |patterns| && from < e <= |text| && EndsWith(text[..e], patterns[i]) ==>
      Reported(matches, index, i, e)
  }

  /** index[k] is the pattern of the k-th match; all patterns from i on that t ends with are
      there, in order. */
  ghost predicate Listed(patterns: seq<string>, t: string, i: nat, matches: seq<ScanMatch>, index: seq<nat>) {
    && |index| == |matches|
    && (forall k {:trigger index[k]} {:trigger matches[k]} :: 0 <= k < |index| ==>
        && i <= index[k] < |patterns|
        && matches[k] == ScanMatch(patterns[index[k]], |t|) && EndsWith(t, patterns[index[k]]))
    && (forall j, k :: 0 <= j < k < |index| ==> index[j] < index[k])
    && forall p :: i <= p < |patterns| && EndsWith(t, patterns[p]) ==> p in index
  }

  lemma ListedExtends(patterns: seq<string>, t: string, i: nat, matches: seq<ScanMatch>, index: seq<nat>)
    requires i < |patterns| && Listed(patterns, t, i + 1, matches, index)
    ensures
      if EndsWith(t, patterns[i]) then Listed(patterns, t, i, [ScanMatch(patterns[i], |t|)] + matches, [i] + index)
            else Listed(patterns, t, i, matches, index)
  {}

  lemma {:induction false} EndingAtExact(patterns: seq<string>, t: string, i: nat) returns (index: seq<nat>)
    requires i <= |patterns|
    ensures Listed(patterns, t, i, EndingAt(patterns, t, i), index)
    decreases |patterns| - i
  {
    if i == |patterns| {
      index := [];
    } else {
      index := EndingAtExact(patterns, t, i + 1);
      ListedExtends(patterns, t, i, EndingAt(patterns, t, i + 1), index);
      if EndsWith(t, patterns[i]) {
        index := [i] + index;
      } else {
        assert [] + EndingAt(patterns, t, i + 1) == EndingAt(patterns, t, i + 1);
      }
    }
  }

  /** Scanner exactness: the report lists, in order and each once, exactly the pairs of a
      pattern and an end offset such that the text up to there ends with the pattern. */
  lemma {:induction false} ScannerExact(patterns: seq<string>, before: string, chunk: string)
    returns (index: seq<nat>)
    ensures Sound(patterns, before + chunk, |before|, Occurrences(patterns, before, chunk), index)
    ensures Ordered(Occurrences(patterns, before, chunk), index)
    ensures Complete(patterns, before + chunk, |before|, Occurrences(patterns, before, chunk), index)
    decreases |chunk|
  {
    if chunk == "" {
      index := [];
    } else {
      var t, text := before + [chunk[0]], before + chunk;
      var head := EndingAtExact(patterns, t, 0);
      var tail := ScannerExact(patterns, t, chunk[1..]);
      assert t + chunk[1..] == text && text[..|t|] == t;
      index := head + tail;
      var first, rest := EndingAt(patterns, t, 0), Occurrences(patterns, t, chunk[1..]);
      SoundExtends(patterns, text, |t|, head, tail, first, rest);
      OrderedExtends(|t|, head, tail, first, rest);
      CompleteExtends(patterns, text, |t|, head, tail, first, rest);
    }
  }

  lemma SoundExtends(patterns: seq<string>, text: string, e: nat, head: seq<nat>, tail: seq<nat>,
                     first: seq<ScanMatch>, rest: seq<ScanMatch>)
    requires 0 < e <= |text| && |head| == |first|
    requires forall k {:trigger head[k]} :: 0 <= k < |head| ==>
      head[k] < |patterns| && first[k] == ScanMatch(patterns[head[k]], e) && EndsWith(text[..e], patterns[head[k]])
    requires Sound(patterns, text, e, rest, tail)
    ensures Sound(patterns, text, e - 1, first + rest, head + tail)
    ensures forall k {:trigger first[k]} :: 0 <= k < |first| ==> first[k].endOffset == e
    ensures forall k {:trigger rest[k]} :: 0 <= k < |rest| ==> e < rest[k].endOffset
  {
    forall k | 0 <= k < |first|
      ensures first[k] == ScanMatch(patterns[head[k]], e)
    {}
  }

  lemma OrderedExtends(e: nat, head: seq<nat>, tail: seq<nat>, first: seq<ScanMatch>, rest: seq<ScanMatch>)
    requires |head| == |first|
    requires forall k {:trigger first[k]} :: 0 <= k < |first| ==> first[k].endOffset == e
    requires forall j, k :: 0 <= j < k < |head| ==> head[j] < head[k]
    requires Ordered(rest, tail)
    requires forall k {:trigger rest[k]} :: 0 <= k < |rest| ==> e < rest[k].endOffset
    ensures Ordered(first + rest, head + tail)
  {}

  lemma CompleteExtends(patterns: seq<string>, text: string, e: nat, head: seq<nat>, tail: seq<nat>,
                        first: seq<ScanMatch>, rest: seq<ScanMatch>)
    requires 0 < e <= |text| && |head| == |first| && |tail| == |rest|
    requires forall k {:trigger first[k]} :: 0 <= k < |first| ==> first[k].endOffset == e
    requires forall p :: 0 <= p < |patterns| && EndsWith(text[..e], patterns[p]) ==> p in head
    requires Complete(patterns, text, e, rest, tail)
    ensures Complete(patterns, text, e - 1, first + rest, head + tail)
  {
    var index, matches := head + tail, first + rest;
    forall i, d | 0 <= i < |patterns| && e - 1 < d <= |text| && EndsWith(text[..d], patterns[i])
      ensures Reported(matches, index, i, d)
    {
      if d == e {
        var k :| 0 <= k < |head| && head[k] == i;
        assert index[k] == i && matches[k].endOffset == d;
      } else {
        assert Reported(rest, tail, i, d);
        var k :| 0 <= k < |tail| && tail[k] == i && rest[k].endOffset == d;
        assert index[|head| + k] == i && matches[|head| + k].endOffset == d;
      }
    }
  }
}
