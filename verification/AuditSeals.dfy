/** What a cross-link seals, over every run of the log: every record that exists when the link is
    built. And which shard, and which of tail and committer, a record goes to. */
module AuditSeals {
  import opened Wrappers
  import opened Sequences
  import opened Sorting
  import opened AuditRecords
  import opened AuditVerifier
  import opened AuditLogs

  // ---------------------------------------------------------------- the entries of a link

  /** The entries are exactly those of the non-empty shards among the keys. */
  lemma {:induction false} SealedExactly(records: map<string, seq<RecordEvent>>, keys: seq<string>)
    ensures |SealHeads(records, keys)| == |SealLengths(records, keys)| <= |keys|
    ensures forall i :: 0 <= i < |SealLengths(records, keys)| ==>
      && SealLengths(records, keys)[i].0 in keys && SealLengths(records, keys)[i].0 in records
      && SealLengths(records, keys)[i].1 == |records[SealLengths(records, keys)[i].0]| > 0
      && SealHeads(records, keys)[i].0 == SealLengths(records, keys)[i].0
      && SealHeads(records, keys)[i].1
         == records[SealLengths(records, keys)[i].0][SealLengths(records, keys)[i].1 - 1].digest
    ensures forall key :: key in keys && key in records && records[key] != [] ==>
      (key, |records[key]|) in SealLengths(records, keys)
  {
    if keys != [] {
      SealedExactly(records, keys[1..]);
      assert keys == [keys[0]] + keys[1..];
    }
  }

  lemma {:induction false} SealedInOrder(le: (string, string) -> bool, records: map<string, seq<RecordEvent>>,
                                         keys: seq<string>)
    requires SortedBy(le, keys) && Distinct(keys)
    ensures forall i, k :: 0 <= i < k < |SealLengths(records, keys)| ==>
      && SealLengths(records, keys)[i].0 != SealLengths(records, keys)[k].0
      && le(SealLengths(records, keys)[i].0, SealLengths(records, keys)[k].0)
  {
    if keys != [] {
      var rest := keys[1..];
      assert forall i :: 0 <= i < |rest| ==> rest[i] == keys[i + 1];
      SealedInOrder(le, records, rest);
      SealedExactly(records, rest);
      assert forall key :: key in rest ==> key != keys[0] && le(keys[0], key);
    }
  }

  lemma SortedDistinct(le: (string, string) -> bool, order: seq<string>)
    requires TotalOrder(le) && Distinct(order)
    ensures SortedBy(le, Sort(le, order)) && Distinct(Sort(le, order))
    ensures forall key :: key in Sort(le, order) <==> key in order
  {
    var keys := Sort(le, order);
    SortSorted(le, order);
    SortMultiset(le, order);
    SameMembers(keys, order);
    DistinctOnce(order);
    OnceDistinct(keys);
  }

  lemma {:induction false} DistinctOnce(s: seq<string>)
    requires Distinct(s)
    ensures forall x :: multiset(s)[x] <= 1
  {
    if s != [] {
      var init, last := s[..|s| - 1], s[|s| - 1];
      DistinctOnce(init);
      assert s == init + [last];
      assert last !in init;
    }
  }

  lemma {:induction false} OnceDistinct(s: seq<string>)
    requires forall x :: multiset(s)[x] <= 1
    ensures Distinct(s)
  {
    if s != [] {
      var init, last := s[..|s| - 1], s[|s| - 1];
      assert s == init + [last];
      assert forall x :: multiset(init)[x] <= multiset(s)[x];
      OnceDistinct(init);
      assert multiset(init)[last] == 0;
      assert last !in init;
    }
  }

  /** The entries of the link, in terms of the records: one for each shard that has records,
      in the order of the keys, with its length and the digest of its last record. */
  ghost predicate SealsAll(le: (string, string) -> bool, records: map<string, seq<RecordEvent>>, link: CrossLink) {
    && (forall key, n :: (key, n) in link.shardLengths <==> key in records && n == |records[key]| > 0)
    && (forall i, k :: 0 <= i < k < |link.shardLengths| ==>
          && link.shardLengths[i].0 != link.shardLengths[k].0
          && le(link.shardLengths[i].0, link.shardLengths[k].0))
    && |link.shardHeads| == |link.shardLengths|
    && forall i :: 0 <= i < |link.shardHeads| ==> HeadOf(records, link.shardLengths[i], link.shardHeads[i])
  }

  predicate HeadOf(records: map<string, seq<RecordEvent>>, length: (string, int), head: (string, Digest)) {
    && length.0 in records && 0 < length.1 <= |records[length.0]|
    && head == (length.0, records[length.0][length.1 - 1].digest)
  }

  /** The link that a LinkStep adds to what was there. */
  lemma LinkAdded(h: Hash, le: (string, string) -> bool, limit: int, s: LogState, step: Step) returns (link: CrossLink)
    requires step.LinkStep?
    ensures link == LinkOver(h, le, s.shards, PreviousRoot(s.crossLinks, |s.crossLinks|), step.id, step.timestamp)
    ensures Apply(h, le, limit, s, step).crossLinks == s.crossLinks + [link]
  {
    link := LinkOver(h, le, s.shards, PreviousRoot(s.crossLinks, |s.crossLinks|), step.id, step.timestamp);
  }

  lemma EntriesSealAll(le: (string, string) -> bool, shards: Shards, keys: seq<string>,
                       heads: seq<(string, Digest)>, lengths: seq<(string, int)>, key: string, n: int)
    requires TotalOrder(le) && shards.WellFormed() && keys == Sort(le, shards.order)
    requires heads == SealHeads(shards.records, keys) && lengths == SealLengths(shards.records, keys)
    ensures (key, n) in lengths <==> key in shards.records && n == |shards.records[key]| > 0
    ensures |heads| == |lengths| && forall i :: 0 <= i < |heads| ==> HeadOf(shards.records, lengths[i], heads[i])
    ensures forall i, k :: 0 <= i < k < |lengths| ==>
      lengths[i].0 != lengths[k].0 && le(lengths[i].0, lengths[k].0)
  {
    SortedDistinct(le, shards.order);
    SealedExactly(shards.records, keys);
    SealedInOrder(le, shards.records, keys);
    if (key, n) in lengths {
      var i :| 0 <= i < |lengths| && lengths[i] == (key, n);
    }
  }

  lemma LinkSealsAll(h: Hash, le: (string, string) -> bool, shards: Shards, previousRoot: Option<Digest>,
                     id: string, timestamp: string, link: CrossLink)
    requires TotalOrder(le) && shards.WellFormed() && link == LinkOver(h, le, shards, previousRoot, id, timestamp)
    ensures SealsAll(le, shards.records, link)
  {
    forall key, n
      ensures (key, n) in link.shardLengths <==> key in shards.records && n == |shards.records[key]| > 0
    {
      EntriesSealAll(le, shards, Sort(le, shards.order), link.shardHeads, link.shardLengths, key, n);
    }
    EntriesSealAll(le, shards, Sort(le, shards.order), link.shardHeads, link.shardLengths, "", 0);
  }

  /** Over every run: a cross-link seals every shard that has records when it is built, at its
      whole length, and is chained to the link before. */
  lemma LinkStepSeals(h: Hash, le: (string, string) -> bool, limit: int, steps: seq<Step>, step: Step)
    returns (link: CrossLink)
    requires TotalOrder(le) && step.LinkStep?
    ensures var s := Run(h, le, limit, steps);
      && Apply(h, le, limit, s, step).crossLinks == s.crossLinks + [link]
      && SealsAll(le, s.shards.records, link) && link.id == step.id && link.timestamp == step.timestamp
      && link.previousRoot == (if s.crossLinks == [] then None else Some(s.crossLinks[|s.crossLinks| - 1].digest))
  {
    var s := Run(h, le, limit, steps);
    LogComplete(h, le, limit, steps);
    link := LinkAdded(h, le, limit, s, step);
    LinkSealsAll(h, le, s.shards, PreviousRoot(s.crossLinks, |s.crossLinks|), step.id, step.timestamp, link);
  }

  // ---------------------------------------------------------------- what the link protects

  lemma {:induction false} RunGrows(h: Hash, le: (string, string) -> bool, limit: int, steps: seq<Step>, n: nat)
    requires TotalOrder(le) && n <= |steps|
    ensures Grows(Run(h, le, limit, steps[..n]).shards.records, Run(h, le, limit, steps).shards.records)
    ensures Run(h, le, limit, steps[..n]).crossLinks <= Run(h, le, limit, steps).crossLinks
    decreases |steps|
  {
    if n == |steps| {
      assert steps[..n] == steps;
    } else {
      var init, last := steps[..|steps| - 1], steps[|steps| - 1];
      assert init[..n] == steps[..n];
      RunGrows(h, le, limit, init, n);
      LogComplete(h, le, limit, init);
      StepKeeps(h, le, limit, Run(h, le, limit, init), last);
    }
  }

  /** Over every run with an injective hash: once a link is built, nobody can pass another
      snapshot with the same last link for the log's own unless it has every record that
      existed when the link was built, unchanged and at its place. */
  lemma LinkProtects(h: Hash, le: (string, string) -> bool, limit: int, steps: seq<Step>, n: nat, other: Snapshot,
                     key: string, i: nat)
    requires TotalOrder(le) && Injective(h) && n < |steps| && steps[n].LinkStep?
    requires Accepts(h, le, other) && other.crossLinks != []
    requires var links := Run(h, le, limit, steps).crossLinks;
      links != [] ==> links[|links| - 1].digest == other.crossLinks[|other.crossLinks| - 1].digest
    requires key in Run(h, le, limit, steps[..n]).shards.records
    requires i < |Run(h, le, limit, steps[..n]).shards.records[key]|
    ensures key in other.shards.records && i < |other.shards.records[key]|
    ensures other.shards.records[key][i] == Run(h, le, limit, steps[..n]).shards.records[key][i]
  {
    var all := Run(h, le, limit, steps);
    LogComplete(h, le, limit, steps);
    RunGrows(h, le, limit, steps, n);
    var entry := SealedLater(h, le, limit, steps, n, key);
    SealedAgree(h, le, Snapshot(all.shards, all.crossLinks), other, entry);
    RecordAgrees(Run(h, le, limit, steps[..n]).shards.records, all.shards.records, other.shards.records, key, i);
  }

  lemma SealedAgree(h: Hash, le: (string, string) -> bool, a: Snapshot, b: Snapshot, entry: (string, int))
    requires Injective(h) && Accepts(h, le, a) && Accepts(h, le, b) && b.crossLinks != []
    requires a.crossLinks != [] ==>
      a.crossLinks[|a.crossLinks| - 1].digest == b.crossLinks[|b.crossLinks| - 1].digest
    requires exists link :: link in a.crossLinks && entry in link.shardLengths
    ensures AgreeUpTo(a.shards.records, b.shards.records, entry)
  {
    TamperEvidence(h, le, a, b);
  }

  lemma RecordAgrees(before: map<string, seq<RecordEvent>>, a: map<string, seq<RecordEvent>>,
                     b: map<string, seq<RecordEvent>>, key: string, i: nat)
    requires Grows(before, a) && key in before && i < |before[key]|
    requires AgreeUpTo(a, b, (key, |before[key]|))
    ensures key in b && i < |b[key]| && b[key][i] == before[key][i]
  {
    assert before[key] <= a[key];
  }

  /** Some link of the final log has the shard with the length it had before step n. */
  lemma SealedLater(h: Hash, le: (string, string) -> bool, limit: int, steps: seq<Step>, n: nat, key: string)
    returns (entry: (string, int))
    requires TotalOrder(le) && n < |steps| && steps[n].LinkStep?
    requires var records := Run(h, le, limit, steps[..n]).shards.records; key in records && records[key] != []
    ensures entry == (key, |Run(h, le, limit, steps[..n]).shards.records[key]|)
    ensures exists link :: link in Run(h, le, limit, steps).crossLinks && entry in link.shardLengths
  {
    entry := (key, |Run(h, le, limit, steps[..n]).shards.records[key]|);
    var link := LinkStepSeals(h, le, limit, steps[..n], steps[n]);
    assert steps[..n + 1][..n] == steps[..n];
    RunGrows(h, le, limit, steps, n + 1);
    assert link in Run(h, le, limit, steps[..n + 1]).crossLinks;
    PrefixMembers(Run(h, le, limit, steps[..n + 1]).crossLinks, Run(h, le, limit, steps).crossLinks, link);
  }

  lemma PrefixMembers<T>(a: seq<T>, b: seq<T>, x: T)
    requires a <= b && x in a
    ensures x in b
  {}

  // ---------------------------------------------------------------- where a record goes

  /** The class of a record is its type up to the first dot. */
  lemma {:induction false} ClassIs(name: string, rest: string)
    requires '.' !in name
    ensures ShardClass(name) == name && ShardClass(name + "." + rest) == name
  {
    var dotted := name + "." + rest;
    if name == "" {
      assert dotted[0] == '.';
    } else {
      assert dotted[0] == name[0] && dotted[1..] == name[1..] + "." + rest;
      ClassIs(name[1..], rest);
    }
  }

  /** The type of a record is name, or name and more after a dot. */
  predicate HasClass(draft: Draft, name: string) {
    '.' !in name && (draft.recordType == name || name + "." <= draft.recordType)
  }

  lemma KeyIs(draft: Draft, name: string)
    requires HasClass(draft, name)
    ensures ShardKey(draft) == draft.scopeLevel + ":" + draft.scopeId + ":" + name
  {
    if draft.recordType == name {
      ClassIs(name, "");
    } else {
      var rest := draft.recordType[|name| + 1..];
      assert draft.recordType == name + "." + rest;
      ClassIs(name, rest);
    }
  }

  /** Over every run, an appended record goes to the shard of its scope and of its type up to
      the first dot, behind the records there, and to no other; it is handed over at once if it
      gates an effect, else it joins the tail, and the tail is handed over when it is full. */
  lemma AppendGoes(h: Hash, le: (string, string) -> bool, limit: int, steps: seq<Step>, draft: Draft, name: string)
    requires HasClass(draft, name)
    ensures var s, t := Run(h, le, limit, steps), Apply(h, le, limit, Run(h, le, limit, steps), AppendStep(draft));
      var key := draft.scopeLevel + ":" + draft.scopeId + ":" + name;
      var before := if key in s.shards.records then s.shards.records[key] else [];
      && key in t.shards.records && |t.shards.records[key]| == |before| + 1 && before <= t.shards.records[key]
      && var r := t.shards.records[key][|before|];
      && r.draft == draft && r.previousDigest == (if before == [] then None else Some(before[|before| - 1].digest))
      && (forall other :: other != key ==>
            && (other in t.shards.records <==> other in s.shards.records)
            && (other in s.shards.records ==> t.shards.records[other] == s.shards.records[other]))
      && (draft.durability == EffectGating ==> t.handed == s.handed + [r] && t.tail == s.tail)
      && (draft.durability == Observational && |s.tail| + 1 < limit ==>
            t.handed == s.handed && t.tail == s.tail + [r])
      && (draft.durability == Observational && |s.tail| + 1 >= limit ==>
            t.handed == s.handed + s.tail + [r] && t.tail == [])
  {
    KeyIs(draft, name);
    var s := Run(h, le, limit, steps);
    Regroup(s.handed, s.tail, [Created(h, s, draft)]);
  }

  /** In every run the tail is shorter than the limit, or empty. */
  lemma {:induction false} TailBounded(h: Hash, le: (string, string) -> bool, limit: int, steps: seq<Step>)
    ensures var s := Run(h, le, limit, steps); |s.tail| < limit || s.tail == []
    decreases |steps|
  {
    if steps != [] {
      TailBounded(h, le, limit, steps[..|steps| - 1]);
    }
  }

  /** The record that a link leaves in the log names its root and its digest and gates effects. */
  lemma LinkRecorded(h: Hash, le: (string, string) -> bool, limit: int, steps: seq<Step>, step: Step)
    requires step.LinkStep?
    ensures var s, t := Run(h, le, limit, steps), Apply(h, le, limit, Run(h, le, limit, steps), step);
      && |t.crossLinks| == |s.crossLinks| + 1 && |t.handed| == |s.handed| + 1 && t.tail == s.tail
      && var link, draft := t.crossLinks[|s.crossLinks|], t.handed[|s.handed|].draft;
      && draft.payload == CrossLinkPayload(link.id, link.merkleRoot, link.digest)
      && draft.recordType == "audit.crosslink" && draft.scopeLevel == "organization" && draft.scopeId == "audit-root"
      && draft.durability == EffectGating && draft.id == step.recordId
  {}
}
