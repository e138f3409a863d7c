/** The writing side of the audit log. Each operation is the code between two awaits, so
    any sequence of these steps is an interleaving the program can show. */
module AuditLogs {
  import opened Wrappers
  import opened Sequences
  import opened Sorting
  import opened AuditRecords
  import opened AuditVerifier

  /** What the log holds: tail is the observational tail, handed is everything given to the
      committer in order, history is every record ever created in order. */
  datatype LogState = LogState(
    shards: Shards, crossLinks: seq<CrossLink>,
    tail: seq<RecordEvent>, handed: seq<RecordEvent>, history: seq<RecordEvent>)

  const EMPTY_LOG := LogState(Shards([], map[]), [], [], [], [])

  datatype Step =
    | AppendStep(draft: Draft)
    | FlushStep
    /** The part of crossLink after its flush was awaited. */
    | LinkStep(id: string, timestamp: string, recordId: string, recordTimestamp: string)

  // ---------------------------------------------------------------- the steps as functions

  function Shard(shards: Shards, key: string): seq<RecordEvent> {
    if key in shards.records then shards.records[key] else []
  }

  function Created(h: Hash, s: LogState, draft: Draft): RecordEvent {
    var shard := Shard(s.shards, ShardKey(draft));
    CreateAuditRecord(h, draft, Predecessor(shard, |shard|))
  }

  function WithRecord(shards: Shards, key: string, record: RecordEvent): Shards {
    Shards(if key in shards.records then shards.order else shards.order + [key],
           shards.records[key := Shard(shards, key) + [record]])
  }

  function Flushed(s: LogState): LogState {
    s.(tail := [], handed := s.handed + s.tail)
  }

  function Appended(h: Hash, limit: int, s: LogState, draft: Draft): LogState {
    var record := Created(h, s, draft);
    var t := s.(shards := WithRecord(s.shards, ShardKey(draft), record), history := s.history + [record]);
    if draft.durability.EffectGating? then t.(handed := t.handed + [record])
    else
      var u := t.(tail := t.tail + [record]);
      if |u.tail| >= limit then Flushed(u) else u
  }

  /** The heads and the lengths of the non-empty shards, in the order of keys. */
  function SealHeads(records: map<string, seq<RecordEvent>>, keys: seq<string>): seq<(string, Digest)> {
    if keys == [] then []
    else if keys[0] in records && records[keys[0]] != [] then
      var shard := records[keys[0]];
      [(keys[0], shard[|shard| - 1].digest)] + SealHeads(records, keys[1..])
    else SealHeads(records, keys[1..])
  }

  function SealLengths(records: map<string, seq<RecordEvent>>, keys: seq<string>): seq<(string, int)> {
    if keys == [] then []
    else if keys[0] in records && records[keys[0]] != [] then
      [(keys[0], |records[keys[0]]|)] + SealLengths(records, keys[1..])
    else SealLengths(records, keys[1..])
  }

  function Values(entries: seq<(string, Digest)>): (values: seq<Digest>)
    ensures |values| == |entries| && forall i :: 0 <= i < |entries| ==> values[i] == entries[i].1
  {
    seq(|entries|, i requires 0 <= i < |entries| => entries[i].1)
  }

  function LinkOver(h: Hash, le: (string, string) -> bool, shards: Shards, previousRoot: Option<Digest>,
                    id: string, timestamp: string): CrossLink
  {
    var keys := Sort(le, shards.order);
    var heads, lengths := SealHeads(shards.records, keys), SealLengths(shards.records, keys);
    var root := MerkleRoot(h, Values(heads));
    CrossLink(id, timestamp, heads, lengths, root, previousRoot,
              h(LinkImage(id, timestamp, heads, lengths, root, previousRoot)))
  }

  function LinkDraft(link: CrossLink, recordId: string, recordTimestamp: string): Draft {
    Draft(recordId, "audit.crosslink", "organization", "audit-root", EffectGating, "internal",
          recordTimestamp, CrossLinkPayload(link.id, link.merkleRoot, link.digest))
  }

  function Linked(h: Hash, le: (string, string) -> bool, limit: int, s: LogState, step: Step): LogState
    requires step.LinkStep?
  {
    var link := LinkOver(h, le, s.shards, PreviousRoot(s.crossLinks, |s.crossLinks|), step.id, step.timestamp);
    Appended(h, limit, s.(crossLinks := s.crossLinks + [link]), LinkDraft(link, step.recordId, step.recordTimestamp))
  }

  function Apply(h: Hash, le: (string, string) -> bool, limit: int, s: LogState, step: Step): LogState {
    match step
    case AppendStep(draft) => Appended(h, limit, s, draft)
    case FlushStep => Flushed(s)
    case LinkStep(_, _, _, _) => Linked(h, le, limit, s, step)
  }

  function Run(h: Hash, le: (string, string) -> bool, limit: int, steps: seq<Step>): LogState {
    if steps == [] then EMPTY_LOG
    else Apply(h, le, limit, Run(h, le, limit, steps[..|steps| - 1]), steps[|steps| - 1])
  }

  // ---------------------------------------------------------------- the log itself

  /** Collects the heads of the sorted shards and chains the result to the previous link. */
  method BuildCrossLink(h: Hash, le: (string, string) -> bool, shards: Shards, previousLink: Option<CrossLink>,
                        id: string, timestamp: string)
    returns (link: CrossLink)
    ensures
      var previous := if previousLink.Some? then Some(previousLink.value.digest) else None;
      link == LinkOver(h, le, shards, previous, id, timestamp)
  {
    var shardHeads: seq<(string, Digest)> := [];
    var shardLengths: seq<(string, int)> := [];
    var keys := Sort(le, shards.order);
    assert keys[0..] == keys;
    for i := 0 to |keys|
      invariant shardHeads + SealHeads(shards.records, keys[i..]) == SealHeads(shards.records, keys)
      invariant shardLengths + SealLengths(shards.records, keys[i..]) == SealLengths(shards.records, keys)
    {
      var key := keys[i];
      assert keys[i..][0] == key && keys[i..][1..] == keys[i + 1..];
      if key !in shards.records || shards.records[key] == [] {
        continue;
      }
      var head := shards.records[key][|shards.records[key]| - 1];
      shardHeads := shardHeads + [(key, head.digest)];
      shardLengths := shardLengths + [(key, |shards.records[key]|)];
    }
    assert keys[|keys|..] == [];
    assert shardHeads == SealHeads(shards.records, keys) && shardLengths == SealLengths(shards.records, keys);
    var root := MerkleRoot(h, Values(shardHeads));
    var previousRoot := if previousLink.Some? then Some(previousLink.value.digest) else None;
    link := CrossLink(id, timestamp, shardHeads, shardLengths, root, previousRoot,
                      h(LinkImage(id, timestamp, shardHeads, shardLengths, root, previousRoot)));
  }

  class AuditLog {
    const hash: Hash
    const le: (string, string) -> bool
    const observationalTail: int
    var shards: Shards
    var crossLinks: seq<CrossLink>
    var observational: seq<RecordEvent>
    /** Everything enqueued with the group committer. */
    var committed: seq<RecordEvent>
    ghost var history: seq<RecordEvent>

    ghost function State(): LogState
      reads this
    {
      LogState(shards, crossLinks, observational, committed, history)
    }

    constructor (hash: Hash, le: (string, string) -> bool, observationalTail: int := 128)
      ensures State() == EMPTY_LOG
      ensures this.hash == hash && this.le == le && this.observationalTail == observationalTail
    {
      this.hash, this.le, this.observationalTail := hash, le, observationalTail;
      shards, crossLinks, observational, committed, history := Shards([], map[]), [], [], [], [];
    }

    method Append(draft: Draft) returns (record: RecordEvent)
      modifies this
      ensures State() == Appended(hash, observationalTail, old(State()), draft)
      ensures record == Created(hash, old(State()), draft)
    {
      var key := ShardKey(draft);
      var shard := if key in shards.records then shards.records[key] else [];
      record := CreateAuditRecord(hash, draft, if shard == [] then None else Some(shard[|shard| - 1].digest));
      shards := Shards(if key in shards.records then shards.order else shards.order + [key],
                       shards.records[key := shard + [record]]);
      history := history + [record];
      if draft.durability == EffectGating {
        committed := committed + [record];
      } else {
        observational := observational + [record];
        if |observational| >= observationalTail {
          FlushObservational();
        }
      }
    }

    method FlushObservational()
      modifies this
      ensures State() == Flushed(old(State()))
    {
      var pending := observational;
      observational := [];
      if |pending| > 0 {
        committed := committed + pending;
      }
    }

    /** crossLink from the point where its flush has been awaited. */
    method CrossLinkResume(step: Step) returns (link: CrossLink)
      requires step.LinkStep?
      modifies this
      ensures State() == Linked(hash, le, observationalTail, old(State()), step)
      ensures crossLinks == old(crossLinks) + [link]
    {
      var previousLink := if crossLinks == [] then None else Some(crossLinks[|crossLinks| - 1]);
      link := BuildCrossLink(hash, le, shards, previousLink, step.id, step.timestamp);
      crossLinks := crossLinks + [link];
      var _ := Append(LinkDraft(link, step.recordId, step.recordTimestamp));
    }

    /** A snapshot of a log that is in order, which every run of the log is, is one that the
        verifier accepts. */
    method TakeSnapshot() returns (snapshot: Snapshot)
      ensures snapshot == Snapshot(shards, crossLinks)
      ensures LogInv(hash, le, State()) ==> snapshot.shards.WellFormed() && Accepts(hash, le, snapshot)
    {
      snapshot := Snapshot(shards, crossLinks);
    }
  }

  // ---------------------------------------------------------------- completeness

  /** Shards only grow. */
  ghost predicate Grows(a: map<string, seq<RecordEvent>>, b: map<string, seq<RecordEvent>>) {
    forall key :: key in a ==> key in b && a[key] <= b[key]
  }

  lemma SealSurvivesGrowth(h: Hash, le: (string, string) -> bool, a: map<string, seq<RecordEvent>>,
                           b: map<string, seq<RecordEvent>>, link: CrossLink)
    requires Grows(a, b) && LinkSealed(h, le, a, link)
    ensures LinkSealed(h, le, b, link)
  {
    var entries := Sort(ByKey(le), link.shardLengths);
    forall i | 0 <= i < |entries|
      ensures HeadAt(a, entries[i]) == HeadAt(b, entries[i])
    {
      assert Heads(a, entries)[i] != None;
    }
    assert LinkHeads(le, a, link) == LinkHeads(le, b, link);
  }

  lemma ChainExtends(h: Hash, chain: seq<RecordEvent>, draft: Draft)
    requires ChainValid(h, chain)
    ensures ChainValid(h, chain + [CreateAuditRecord(h, draft, Predecessor(chain, |chain|))])
  {
    var longer := chain + [CreateAuditRecord(h, draft, Predecessor(chain, |chain|))];
    forall i {:trigger Predecessor(longer, i)} | 0 <= i < |longer|
      ensures VerifyAuditRecord(h, longer[i], Predecessor(longer, i))
    {
      assert Predecessor(longer, i) == Predecessor(chain, i);
    }
  }

  lemma {:induction false} SealAligned(records: map<string, seq<RecordEvent>>, keys: seq<string>)
    ensures |SealHeads(records, keys)| == |SealLengths(records, keys)|
    ensures forall i {:trigger SealLengths(records, keys)[i]} :: 0 <= i < |SealLengths(records, keys)| ==>
      && SealLengths(records, keys)[i].0 in keys
      && HeadAt(records, SealLengths(records, keys)[i]) == Some(SealHeads(records, keys)[i].1)
  {
    if keys != [] {
      SealAligned(records, keys[1..]);
    }
  }

  lemma {:induction false} SealSorted(le: (string, string) -> bool, records: map<string, seq<RecordEvent>>,
                                      keys: seq<string>)
    requires SortedBy(le, keys)
    ensures SortedBy(ByKey(le), SealLengths(records, keys))
  {
    if keys != [] {
      SealSorted(le, records, keys[1..]);
      SealAligned(records, keys[1..]);
      assert forall k :: k in keys[1..] ==> le(keys[0], k);
    }
  }

  lemma PresentOfSome(heads: seq<Option<Digest>>, values: seq<Digest>)
    requires |heads| == |values| && forall i :: 0 <= i < |heads| ==> heads[i] == Some(values[i])
    ensures None !in heads && Present(heads) == values
  {}

  /** A link built over the shards is sealed by those shards. */
  lemma LinkOverSealed(h: Hash, le: (string, string) -> bool, shards: Shards, previousRoot: Option<Digest>,
                       id: string, timestamp: string)
    requires TotalOrder(le)
    ensures LinkSealed(h, le, shards.records, LinkOver(h, le, shards, previousRoot, id, timestamp))
    ensures LinkChained(h, LinkOver(h, le, shards, previousRoot, id, timestamp), previousRoot)
  {
    var keys := Sort(le, shards.order);
    var heads, lengths := SealHeads(shards.records, keys), SealLengths(shards.records, keys);
    SortSorted(le, shards.order);
    SealSorted(le, shards.records, keys);
    SortOfSorted(ByKey(le), lengths);
    SealAligned(shards.records, keys);
    PresentOfSome(Heads(shards.records, lengths), Values(heads));
  }

  /** The verifier accepts what the log holds. */
  ghost predicate LogInv(h: Hash, le: (string, string) -> bool, s: LogState) {
    s.shards.WellFormed() && Accepts(h, le, Snapshot(s.shards, s.crossLinks))
  }

  lemma AppendKeeps(h: Hash, le: (string, string) -> bool, limit: int, s: LogState, draft: Draft)
    requires LogInv(h, le, s)
    ensures LogInv(h, le, Appended(h, limit, s, draft))
    ensures Grows(s.shards.records, Appended(h, limit, s, draft).shards.records)
  {
    var t := Appended(h, limit, s, draft);
    var a, b := s.shards.records, t.shards.records;
    var key := ShardKey(draft);
    assert b == a[key := Shard(s.shards, key) + [Created(h, s, draft)]];
    ChainExtends(h, Shard(s.shards, key), draft);
    assert Grows(a, b);
    forall i | 0 <= i < |s.crossLinks|
      ensures LinkSealed(h, le, b, s.crossLinks[i])
    {
      SealSurvivesGrowth(h, le, a, b, s.crossLinks[i]);
    }
  }

  lemma LinkKeeps(h: Hash, le: (string, string) -> bool, s: LogState, link: CrossLink)
    requires LogInv(h, le, s)
    requires LinkSealed(h, le, s.shards.records, link)
    requires LinkChained(h, link, PreviousRoot(s.crossLinks, |s.crossLinks|))
    ensures LogInv(h, le, s.(crossLinks := s.crossLinks + [link]))
  {
    var links := s.crossLinks + [link];
    forall i {:trigger PreviousRoot(links, i)} | 0 <= i < |links|
      ensures LinkChained(h, links[i], PreviousRoot(links, i))
    {
      assert PreviousRoot(links, i) == PreviousRoot(s.crossLinks, i);
    }
  }

  lemma StepKeeps(h: Hash, le: (string, string) -> bool, limit: int, s: LogState, step: Step)
    requires TotalOrder(le) && LogInv(h, le, s)
    ensures LogInv(h, le, Apply(h, le, limit, s, step))
    ensures Grows(s.shards.records, Apply(h, le, limit, s, step).shards.records)
  {
    match step
    case AppendStep(draft) => AppendKeeps(h, le, limit, s, draft);
    case FlushStep =>
    case LinkStep(id, timestamp, recordId, recordTimestamp) =>
      var root := PreviousRoot(s.crossLinks, |s.crossLinks|);
      var link := LinkOver(h, le, s.shards, root, id, timestamp);
      LinkOverSealed(h, le, s.shards, root, id, timestamp);
      LinkKeeps(h, le, s, link);
      AppendKeeps(h, le, limit, s.(crossLinks := s.crossLinks + [link]), LinkDraft(link, recordId, recordTimestamp));
  }

  /** Log completeness: after any interleaving of the operations the verifier has nothing
      to report. No property of the hash is needed. */
  lemma {:induction false} LogComplete(h: Hash, le: (string, string) -> bool, limit: int, steps: seq<Step>)
    requires TotalOrder(le)
    ensures Run(h, le, limit, steps).shards.WellFormed()
    ensures Accepts(h, le, Snapshot(Run(h, le, limit, steps).shards, Run(h, le, limit, steps).crossLinks))
    decreases |steps|
  {
    if steps != [] {
      LogComplete(h, le, limit, steps[..|steps| - 1]);
      StepKeeps(h, le, limit, Run(h, le, limit, steps[..|steps| - 1]), steps[|steps| - 1]);
    }
  }

  // ---------------------------------------------------------------- conservation

  function OfDurability(d: Durability, records: seq<RecordEvent>): seq<RecordEvent> {
    if records == [] then []
    else (if records[0].draft.durability == d then [records[0]] else []) + OfDurability(d, records[1..])
  }

  function OfShard(key: string, records: seq<RecordEvent>): seq<RecordEvent> {
    if records == [] then []
    else (if ShardKey(records[0].draft) == key then [records[0]] else []) + OfShard(key, records[1..])
  }

  lemma {:induction false} OfDurabilityConcat(d: Durability, a: seq<RecordEvent>, b: seq<RecordEvent>)
    ensures OfDurability(d, a + b) == OfDurability(d, a) + OfDurability(d, b)
  {
    if a == [] {
      assert a + b == b;
    } else {
      var all, rest := a + b, a[1..];
      assert all[0] == a[0] && all[1..] == rest + b;
      OfDurabilityConcat(d, rest, b);
      Regroup(if a[0].draft.durability == d then [a[0]] else [], OfDurability(d, rest), OfDurability(d, b));
    }
  }

  lemma {:induction false} OfShardConcat(key: string, a: seq<RecordEvent>, b: seq<RecordEvent>)
    ensures OfShard(key, a + b) == OfShard(key, a) + OfShard(key, b)
  {
    if a == [] {
      assert a + b == b;
    } else {
      var all, rest := a + b, a[1..];
      assert all[0] == a[0] && all[1..] == rest + b;
      OfShardConcat(key, rest, b);
      Regroup(if ShardKey(a[0].draft) == key then [a[0]] else [], OfShard(key, rest), OfShard(key, b));
    }
  }

  lemma RecordAdded(records: seq<RecordEvent>, r: RecordEvent)
    ensures r.draft.durability.EffectGating? ==>
      && OfDurability(EffectGating, records + [r]) == OfDurability(EffectGating, records) + [r]
      && OfDurability(Observational, records + [r]) == OfDurability(Observational, records)
    ensures r.draft.durability.Observational? ==>
      && OfDurability(Observational, records + [r]) == OfDurability(Observational, records) + [r]
      && OfDurability(EffectGating, records + [r]) == OfDurability(EffectGating, records)
  {
    OfDurabilityConcat(EffectGating, records, [r]);
    OfDurabilityConcat(Observational, records, [r]);
    assert [r][1..] == [];
  }

  /** Every record created is in its shard, in order; effect-gating records have all been
      handed to the committer, observational ones handed or still in the tail, each once
      and in order. */
  ghost predicate Conserved(s: LogState) {
    && (forall key :: Shard(s.shards, key) == OfShard(key, s.history))
    && OfDurability(EffectGating, s.handed) == OfDurability(EffectGating, s.history)
    && OfDurability(Observational, s.handed) + s.tail == OfDurability(Observational, s.history)
    && OfDurability(Observational, s.tail) == s.tail && OfDurability(EffectGating, s.tail) == []
  }

  lemma FlushConserves(s: LogState)
    requires Conserved(s)
    ensures Conserved(Flushed(s))
  {
    OfDurabilityConcat(EffectGating, s.handed, s.tail);
    OfDurabilityConcat(Observational, s.handed, s.tail);
    assert Flushed(s).shards == s.shards;
  }

  lemma AppendConserves(h: Hash, limit: int, s: LogState, draft: Draft)
    requires Conserved(s)
    ensures Conserved(Appended(h, limit, s, draft))
  {
    var record := Created(h, s, draft);
    var t := s.(shards := WithRecord(s.shards, ShardKey(draft), record), history := s.history + [record]);
    forall key ensures Shard(t.shards, key) == OfShard(key, t.history) {
      OfShardConcat(key, s.history, [record]);
      assert OfShard(key, [record]) == if ShardKey(draft) == key then [record] else [];
    }
    RecordAdded(s.history, record);
    RecordAdded(s.handed, record);
    RecordAdded(s.tail, record);
    if draft.durability.Observational? {
      var u := t.(tail := t.tail + [record]);
      calc {
        OfDurability(Observational, u.handed) + u.tail;
        OfDurability(Observational, s.handed) + s.tail + [record];
        OfDurability(Observational, u.history);
      }
      assert Conserved(u);
      FlushConserves(u);
    } else {
      assert Conserved(t.(handed := t.handed + [record]));
    }
  }

  /** Conservation over every interleaving. */
  lemma {:induction false} LogConserves(h: Hash, le: (string, string) -> bool, limit: int, steps: seq<Step>)
    ensures Conserved(Run(h, le, limit, steps))
    decreases |steps|
  {
    if steps != [] {
      var s, step := Run(h, le, limit, steps[..|steps| - 1]), steps[|steps| - 1];
      LogConserves(h, le, limit, steps[..|steps| - 1]);
      match step
      case AppendStep(draft) => AppendConserves(h, limit, s, draft);
      case FlushStep => FlushConserves(s);
      case LinkStep(id, timestamp, recordId, recordTimestamp) =>
        var link := LinkOver(h, le, s.shards, PreviousRoot(s.crossLinks, |s.crossLinks|), id, timestamp);
        assert Conserved(s.(crossLinks := s.crossLinks + [link]));
        AppendConserves(h, limit, s.(crossLinks := s.crossLinks + [link]), LinkDraft(link, recordId, recordTimestamp));
    }
  }
}
