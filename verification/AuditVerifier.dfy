/** The sharded audit log: per-shard hash chains, cross-links that seal the shard heads
    under a chained Merkle root, and the verifier that replays both. */
module AuditVerifier {
  import opened Wrappers
  import opened Sorting
  import opened AuditRecords

  datatype CrossLink = CrossLink(
    id: string, timestamp: string, shardHeads: seq<(string, Digest)>, shardLengths: seq<(string, int)>,
    merkleRoot: Digest, previousRoot: Option<Digest>, digest: Digest)

  /** Shards by key, and the keys in the order they were first used. */
  datatype Shards = Shards(order: seq<string>, records: map<string, seq<RecordEvent>>) {
    ghost predicate WellFormed() {
      Distinct(order) && forall key :: key in order <==> key in records
    }
  }

  datatype Snapshot = Snapshot(shards: Shards, crossLinks: seq<CrossLink>)

  datatype AuditError =
    | InvalidRecord(id: string, key: string)
    | MissingHead(link: string)
    | RootMismatch(link: string)
    | ChainMismatch(link: string)

  // ---------------------------------------------------------------- what a snapshot must satisfy

  function ByKey<V>(le: (string, string) -> bool): ((string, V), (string, V)) -> bool {
    (a: (string, V), b: (string, V)) => le(a.0, b.0)
  }

  /** The digest of the last of the first length records of a shard, if there is one. */
  function HeadAt(records: map<string, seq<RecordEvent>>, entry: (string, int)): Option<Digest> {
    if entry.0 in records && 0 < entry.1 <= |records[entry.0]|
    then Some(records[entry.0][entry.1 - 1].digest)
    else None
  }

  function Heads(records: map<string, seq<RecordEvent>>, entries: seq<(string, int)>): (heads: seq<Option<Digest>>)
    ensures |heads| == |entries|
    ensures forall i :: 0 <= i < |entries| ==> heads[i] == HeadAt(records, entries[i])
  {
    seq(|entries|, i requires 0 <= i < |entries| => HeadAt(records, entries[i]))
  }

  function Present(heads: seq<Option<Digest>>): (present: seq<Digest>)
    ensures None !in heads ==> |present| == |heads| && forall i :: 0 <= i < |heads| ==> heads[i] == Some(present[i])
  {
    if heads == [] then []
    else (if heads[0].Some? then [heads[0].value] else []) + Present(heads[1..])
  }

  function LinkHeads(le: (string, string) -> bool, records: map<string, seq<RecordEvent>>, link: CrossLink)
    : seq<Option<Digest>>
  {
    Heads(records, Sort(ByKey(le), link.shardLengths))
  }

  function LinkDigest(h: Hash, link: CrossLink, previousRoot: Option<Digest>): Digest {
    h(LinkImage(link.id, link.timestamp, link.shardHeads, link.shardLengths, link.merkleRoot, previousRoot))
  }

  /** The link names its predecessor and its digest covers all its fields. */
  predicate LinkChained(h: Hash, link: CrossLink, previousRoot: Option<Digest>) {
    link.previousRoot == previousRoot && link.digest == LinkDigest(h, link, previousRoot)
  }

  /** The Merkle root of the link is that of the shard heads at the lengths it records. */
  predicate LinkSealed(h: Hash, le: (string, string) -> bool, records: map<string, seq<RecordEvent>>, link: CrossLink) {
    && None !in LinkHeads(le, records, link)
    && MerkleRoot(h, Present(LinkHeads(le, records, link))) == link.merkleRoot
  }

  function PreviousRoot(links: seq<CrossLink>, i: nat): Option<Digest>
    requires i <= |links|
  {
    if i == 0 then None else Some(links[i - 1].digest)
  }

  ghost predicate ChainsValid(h: Hash, records: map<string, seq<RecordEvent>>) {
    forall key :: key in records ==> ChainValid(h, records[key])
  }

  ghost predicate ChainedUpTo(h: Hash, links: seq<CrossLink>, n: nat)
    requires n <= |links|
  {
    forall i {:trigger PreviousRoot(links, i)} :: 0 <= i < n ==> LinkChained(h, links[i], PreviousRoot(links, i))
  }

  ghost predicate SealedUpTo(h: Hash, le: (string, string) -> bool, records: map<string, seq<RecordEvent>>,
                             links: seq<CrossLink>, n: nat)
    requires n <= |links|
  {
    forall i :: 0 <= i < n ==> LinkSealed(h, le, records, links[i])
  }

  /** Every shard is a valid hash chain and every cross-link fits the shards and the
      cross-link before it. */
  ghost predicate Accepts(h: Hash, le: (string, string) -> bool, snapshot: Snapshot) {
    && ChainsValid(h, snapshot.shards.records)
    && ChainedUpTo(h, snapshot.crossLinks, |snapshot.crossLinks|)
    && SealedUpTo(h, le, snapshot.shards.records, snapshot.crossLinks, |snapshot.crossLinks|)
  }

  // ---------------------------------------------------------------- the verifier

  /** One error for each of the first n records that does not fit the chain, in order. */
  function ChainErrors(h: Hash, key: string, chain: seq<RecordEvent>, n: nat): seq<AuditError>
    requires n <= |chain|
  {
    if n == 0 then []
    else
      ChainErrors(h, key, chain, n - 1)
      + if VerifyAuditRecord(h, chain[n - 1], Predecessor(chain, n - 1)) then []
        else [InvalidRecord(chain[n - 1].draft.id, key)]
  }

  /** The errors of the shards of the first n keys. */
  ghost function ShardErrors(h: Hash, shards: Shards, n: nat): seq<AuditError>
    requires shards.WellFormed() && n <= |shards.order|
  {
    if n == 0 then []
    else
      var key := shards.order[n - 1];
      ShardErrors(h, shards, n - 1) + ChainErrors(h, key, shards.records[key], |shards.records[key]|)
  }

  /** Reports no error exactly for the snapshots that satisfy Accepts; the record errors
      are those of ShardErrors, whose members RecordErrorsExact describes. */
  method Verify(h: Hash, le: (string, string) -> bool, snapshot: Snapshot) returns (errors: seq<AuditError>)
    requires snapshot.shards.WellFormed()
    ensures errors == [] <==> Accepts(h, le, snapshot)
    ensures ShardErrors(h, snapshot.shards, |snapshot.shards.order|) <= errors
    ensures forall e :: e in errors && e.InvalidRecord? ==>
      e in ShardErrors(h, snapshot.shards, |snapshot.shards.order|)
  {
    var order, records := snapshot.shards.order, snapshot.shards.records;
    errors := [];
    for k := 0 to |order|
      invariant errors == ShardErrors(h, snapshot.shards, k)
    {
      var found := VerifyChain(h, order[k], records[order[k]]);
      errors := errors + found;
    }
    NoShardErrors(h, snapshot.shards);
    var linkErrors := VerifyCrossLinks(h, le, records, snapshot.crossLinks);
    errors := errors + linkErrors;
  }

  method VerifyChain(h: Hash, key: string, chain: seq<RecordEvent>) returns (errors: seq<AuditError>)
    ensures errors == ChainErrors(h, key, chain, |chain|)
  {
    errors := [];
    var previous: Option<Digest> := None;
    for i := 0 to |chain|
      invariant previous == Predecessor(chain, i)
      invariant errors == ChainErrors(h, key, chain, i)
    {
      if !VerifyAuditRecord(h, chain[i], previous) {
        errors := errors + [InvalidRecord(chain[i].draft.id, key)];
      }
      previous := Some(chain[i].digest);
    }
  }

  method VerifyCrossLinks(h: Hash, le: (string, string) -> bool, records: map<string, seq<RecordEvent>>,
                          links: seq<CrossLink>)
    returns (errors: seq<AuditError>)
    ensures errors == [] <==> ChainedUpTo(h, links, |links|) && SealedUpTo(h, le, records, links, |links|)
    ensures forall e :: e in errors ==> !e.InvalidRecord?
  {
    errors := [];
    var previousRoot: Option<Digest> := None;
    for i := 0 to |links|
      invariant errors == [] ==> previousRoot == PreviousRoot(links, i)
      invariant errors == [] <==> ChainedUpTo(h, links, i) && SealedUpTo(h, le, records, links, i)
      invariant forall e :: e in errors ==> !e.InvalidRecord?
    {
      var found := VerifyCrossLink(h, le, records, links[i], previousRoot);
      errors := errors + found;
      UpToStep(h, le, records, links, i);
      if MissingHead(links[i].id) !in found {
        previousRoot := Some(links[i].digest);
      }
    }
  }

  lemma UpToStep(h: Hash, le: (string, string) -> bool, records: map<string, seq<RecordEvent>>,
                 links: seq<CrossLink>, i: nat)
    requires i < |links|
    ensures ChainedUpTo(h, links, i + 1)
      <==> ChainedUpTo(h, links, i) && LinkChained(h, links[i], PreviousRoot(links, i))
    ensures SealedUpTo(h, le, records, links, i + 1)
      <==> SealedUpTo(h, le, records, links, i) && LinkSealed(h, le, records, links[i])
  {}

  /** The checks of one cross-link: a missing head hides the other two checks. */
  method VerifyCrossLink(h: Hash, le: (string, string) -> bool, records: map<string, seq<RecordEvent>>,
                         link: CrossLink, previousRoot: Option<Digest>)
    returns (errors: seq<AuditError>)
    ensures errors == [] <==> LinkChained(h, link, previousRoot) && LinkSealed(h, le, records, link)
    ensures None in LinkHeads(le, records, link) ==> errors == [MissingHead(link.id)]
    ensures None !in LinkHeads(le, records, link) ==>
      && (RootMismatch(link.id) in errors <==> !LinkSealed(h, le, records, link))
      && (ChainMismatch(link.id) in errors <==> !LinkChained(h, link, previousRoot))
    ensures forall e :: e in errors ==> !e.InvalidRecord? && e.link == link.id
  {
    errors := [];
    var heads := LinkHeads(le, records, link);
    if None in heads {
      return [MissingHead(link.id)];
    }
    if MerkleRoot(h, Present(heads)) != link.merkleRoot {
      errors := errors + [RootMismatch(link.id)];
    }
    if !LinkChained(h, link, previousRoot) {
      errors := errors + [ChainMismatch(link.id)];
    }
  }

  lemma {:induction false} NoChainErrors(h: Hash, key: string, chain: seq<RecordEvent>, n: nat)
    requires n <= |chain|
    ensures ChainErrors(h, key, chain, n) == []
      <==> forall i {:trigger Predecessor(chain, i)} :: 0 <= i < n ==>
        VerifyAuditRecord(h, chain[i], Predecessor(chain, i))
  {
    if n > 0 {
      NoChainErrors(h, key, chain, n - 1);
    }
  }

  lemma {:induction false} NoShardErrorsUpTo(h: Hash, shards: Shards, n: nat)
    requires shards.WellFormed() && n <= |shards.order|
    ensures ShardErrors(h, shards, n) == []
      <==> forall k :: 0 <= k < n ==> ChainValid(h, shards.records[shards.order[k]])
  {
    if n > 0 {
      var chain := shards.records[shards.order[n - 1]];
      NoShardErrorsUpTo(h, shards, n - 1);
      NoChainErrors(h, shards.order[n - 1], chain, |chain|);
    }
  }

  lemma NoShardErrors(h: Hash, shards: Shards)
    requires shards.WellFormed()
    ensures ShardErrors(h, shards, |shards.order|) == [] <==> ChainsValid(h, shards.records)
  {
    NoShardErrorsUpTo(h, shards, |shards.order|);
    if forall k :: 0 <= k < |shards.order| ==> ChainValid(h, shards.records[shards.order[k]]) {
      forall key | key in shards.records ensures ChainValid(h, shards.records[key]) {
        assert key in shards.order;
      }
    }
  }

  ghost predicate BadAt(h: Hash, chain: seq<RecordEvent>, id: string, i: int) {
    0 <= i < |chain| && chain[i].draft.id == id && !VerifyAuditRecord(h, chain[i], Predecessor(chain, i))
  }

  lemma {:induction false} ChainErrorsExact(h: Hash, key: string, chain: seq<RecordEvent>, n: nat, e: AuditError)
    requires n <= |chain|
    ensures e in ChainErrors(h, key, chain, n)
      <==> e.InvalidRecord? && e.key == key && exists i :: i < n && BadAt(h, chain, e.id, i)
  {
    if n > 0 {
      ChainErrorsExact(h, key, chain, n - 1, e);
      if e == InvalidRecord(chain[n - 1].draft.id, key) {
        assert VerifyAuditRecord(h, chain[n - 1], Predecessor(chain, n - 1)) || BadAt(h, chain, e.id, n - 1);
      }
    }
  }

  /** The verifier names exactly the records, with their shards, that do not fit the chain. */
  lemma {:induction false} RecordErrorsExact(h: Hash, shards: Shards, n: nat, id: string, key: string)
    requires shards.WellFormed() && n <= |shards.order|
    ensures InvalidRecord(id, key) in ShardErrors(h, shards, n)
      <==> key in shards.order[..n] && exists i :: BadAt(h, shards.records[key], id, i)
  {
    if n > 0 {
      var last := shards.order[n - 1];
      var chain := shards.records[last];
      assert shards.order[..n] == shards.order[..n - 1] + [last];
      RecordErrorsExact(h, shards, n - 1, id, key);
      ChainErrorsExact(h, last, chain, |chain|, InvalidRecord(id, key));
    }
  }

  // ---------------------------------------------------------------- tamper evidence

  lemma EqualLinks(h: Hash, a: CrossLink, p: Option<Digest>, b: CrossLink, q: Option<Digest>)
    requires Injective(h) && LinkChained(h, a, p) && LinkChained(h, b, q) && a.digest == b.digest
    ensures a == b && p == q
  {}

  lemma {:induction false} LinksAgree(h: Hash, a: seq<CrossLink>, i: nat, b: seq<CrossLink>, j: nat)
    requires Injective(h) && ChainedUpTo(h, a, |a|) && ChainedUpTo(h, b, |b|)
    requires i < |a| && j < |b| && a[i].digest == b[j].digest
    ensures i == j && forall k :: 0 <= k <= i ==> a[k] == b[k]
    decreases i
  {
    EqualLinks(h, a[i], PreviousRoot(a, i), b[j], PreviousRoot(b, j));
    if i > 0 {
      LinksAgree(h, a, i - 1, b, j - 1);
    }
  }

  /** Two shards agree on the first length records. */
  ghost predicate AgreeUpTo(a: map<string, seq<RecordEvent>>, b: map<string, seq<RecordEvent>>, entry: (string, int)) {
    && entry.0 in a && entry.0 in b
    && 0 < entry.1 <= |a[entry.0]| && entry.1 <= |b[entry.0]|
    && forall k :: 0 <= k < entry.1 ==> a[entry.0][k] == b[entry.0][k]
  }

  lemma SealedShardsAgree(h: Hash, le: (string, string) -> bool, a: Snapshot, b: Snapshot,
                          link: CrossLink, entry: (string, int))
    requires Injective(h) && ChainsValid(h, a.shards.records) && ChainsValid(h, b.shards.records)
    requires LinkSealed(h, le, a.shards.records, link) && LinkSealed(h, le, b.shards.records, link)
    requires entry in link.shardLengths
    ensures AgreeUpTo(a.shards.records, b.shards.records, entry)
  {
    var entries := Sort(ByKey(le), link.shardLengths);
    var x, y := LinkHeads(le, a.shards.records, link), LinkHeads(le, b.shards.records, link);
    MerkleInjective(h, Present(x), Present(y));
    SortMultiset(ByKey(le), link.shardLengths);
    SameMembers(entries, link.shardLengths);
    var i :| 0 <= i < |entries| && entries[i] == entry;
    assert x[i] != None && y[i] != None && x[i] == y[i];
    var ra, rb := a.shards.records[entry.0], b.shards.records[entry.0];
    ChainsAgree(h, ra, entry.1 - 1, rb, entry.1 - 1);
  }

  /** Tamper evidence: if the verifier accepts two snapshots whose last cross-links have
      equal digests, their cross-links are the same, and every shard that any of them
      sealed agrees record for record up to the sealed length. */
  lemma TamperEvidence(h: Hash, le: (string, string) -> bool, a: Snapshot, b: Snapshot)
    requires Injective(h) && Accepts(h, le, a) && Accepts(h, le, b)
    requires a.crossLinks != [] && b.crossLinks != []
    requires a.crossLinks[|a.crossLinks| - 1].digest == b.crossLinks[|b.crossLinks| - 1].digest
    ensures a.crossLinks == b.crossLinks
    ensures forall link, entry :: link in a.crossLinks && entry in link.shardLengths ==>
      AgreeUpTo(a.shards.records, b.shards.records, entry)
  {
    LinksAgree(h, a.crossLinks, |a.crossLinks| - 1, b.crossLinks, |b.crossLinks| - 1);
    assert a.crossLinks == b.crossLinks;
    forall link, entry | link in a.crossLinks && entry in link.shardLengths
      ensures AgreeUpTo(a.shards.records, b.shards.records, entry)
    {
      var i :| 0 <= i < |a.crossLinks| && a.crossLinks[i] == link;
      SealedShardsAgree(h, le, a, b, link, entry);
    }
  }

  /** Each length that the link records is still there. */
  ghost predicate LengthsFit(records: map<string, seq<RecordEvent>>, link: CrossLink) {
    forall entry :: entry in link.shardLengths ==> entry.0 in records && entry.1 <= |records[entry.0]|
  }

  /** Where the protection ends: cutting accepted shards back to prefixes (or dropping them)
      goes unnoticed if and only if no sealed length is cut. */
  lemma TruncationDetected(h: Hash, le: (string, string) -> bool, a: Snapshot, cut: map<string, seq<RecordEvent>>)
    requires Accepts(h, le, a)
    requires forall key :: key in cut ==> key in a.shards.records && cut[key] <= a.shards.records[key]
    ensures Accepts(h, le, Snapshot(Shards(a.shards.order, cut), a.crossLinks))
      <==> forall i :: 0 <= i < |a.crossLinks| ==> LengthsFit(cut, a.crossLinks[i])
  {
    forall key | key in cut ensures ChainValid(h, cut[key]) {
      PrefixValid(h, a.shards.records[key], |cut[key]|);
      assert cut[key] == a.shards.records[key][..|cut[key]|];
    }
    forall i | 0 <= i < |a.crossLinks|
      ensures LinkSealed(h, le, cut, a.crossLinks[i]) <==> LengthsFit(cut, a.crossLinks[i])
    {
      CutLink(h, le, a.shards.records, cut, a.crossLinks[i]);
    }
  }

  lemma PrefixValid(h: Hash, chain: seq<RecordEvent>, n: nat)
    requires n <= |chain| && ChainValid(h, chain)
    ensures ChainValid(h, chain[..n])
  {
    var prefix := chain[..n];
    forall i {:trigger Predecessor(prefix, i)} | 0 <= i < n
      ensures VerifyAuditRecord(h, prefix[i], Predecessor(prefix, i))
    {
      assert Predecessor(prefix, i) == Predecessor(chain, i);
    }
  }

  lemma CutLink(h: Hash, le: (string, string) -> bool, records: map<string, seq<RecordEvent>>,
                cut: map<string, seq<RecordEvent>>, link: CrossLink)
    requires LinkSealed(h, le, records, link)
    requires forall key :: key in cut ==> key in records && cut[key] <= records[key]
    ensures LinkSealed(h, le, cut, link) <==> LengthsFit(cut, link)
  {
    var entries := Sort(ByKey(le), link.shardLengths);
    SortMultiset(ByKey(le), link.shardLengths);
    SameMembers(entries, link.shardLengths);
    var x, y := Heads(records, entries), Heads(cut, entries);
    forall i | 0 <= i < |entries|
      ensures y[i] == if entries[i].0 in cut && entries[i].1 <= |cut[entries[i].0]| then x[i] else None
    {
      assert x[i] != None;
    }
    if LengthsFit(cut, link) {
      forall i | 0 <= i < |entries| ensures y[i] == x[i] {
        assert entries[i] in link.shardLengths;
      }
      assert x == y;
    }
    if LinkSealed(h, le, cut, link) {
      forall entry | entry in link.shardLengths
        ensures entry.0 in cut && entry.1 <= |cut[entry.0]|
      {
        var i :| 0 <= i < |entries| && entries[i] == entry;
        assert y[i] != None;
      }
    }
  }
}
