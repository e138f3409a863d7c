/** Hash-chained audit records and Merkle roots over an arbitrary hash function. */
module AuditRecords {
  import opened Wrappers

  type Digest = string

  datatype Durability = EffectGating | Observational

  datatype Payload =
    | Data(json: string)
    | CrossLinkPayload(crossLinkId: string, merkleRoot: Digest, crossLinkDigest: Digest)

  /** A record draft whose id and timestamp have been filled in. */
  datatype Draft = Draft(
    id: string, recordType: string, scopeLevel: string, scopeId: string,
    durability: Durability, classification: string, timestamp: string, payload: Payload)

  datatype RecordEvent = RecordEvent(draft: Draft, previousDigest: Option<Digest>, digest: Digest)

  /** Everything that is ever hashed, one constructor for each JSON shape. */
  datatype Image =
    | RecordImage(draft: Draft, previousDigest: Option<Digest>)
    | EmptyImage
    | PairImage(left: Digest, right: Digest)
    | LinkImage(
        id: string, timestamp: string, shardHeads: seq<(string, Digest)>,
        shardLengths: seq<(string, int)>, root: Digest, previousRoot: Option<Digest>)

  type Hash = Image -> Digest

  ghost predicate Injective(h: Hash) {
    forall a, b :: h(a) == h(b) ==> a == b
  }

  // ---------------------------------------------------------------- records and their chain

  function ShardClass(recordType: string): string {
    if recordType == "" || recordType[0] == '.' then "" else [recordType[0]] + ShardClass(recordType[1..])
  }

  function ShardKey(draft: Draft): string {
    draft.scopeLevel + ":" + draft.scopeId + ":" + ShardClass(draft.recordType)
  }

  function CreateAuditRecord(h: Hash, draft: Draft, previous: Option<Digest>): RecordEvent {
    RecordEvent(draft, previous, h(RecordImage(draft, previous)))
  }

  predicate VerifyAuditRecord(h: Hash, record: RecordEvent, expectedPrevious: Option<Digest>) {
    && record.previousDigest == expectedPrevious
    && record.digest == h(RecordImage(record.draft, expectedPrevious))
  }

  /** The digest that the record at position i must name as its predecessor. */
  function Predecessor(records: seq<RecordEvent>, i: nat): Option<Digest>
    requires i <= |records|
  {
    if i == 0 then None else Some(records[i - 1].digest)
  }

  ghost predicate ChainValid(h: Hash, records: seq<RecordEvent>) {
    forall i {:trigger Predecessor(records, i)} ::
      0 <= i < |records| ==> VerifyAuditRecord(h, records[i], Predecessor(records, i))
  }

  lemma EqualDigests(h: Hash, r: RecordEvent, p: Option<Digest>, s: RecordEvent, q: Option<Digest>)
    requires Injective(h) && VerifyAuditRecord(h, r, p) && VerifyAuditRecord(h, s, q)
    requires r.digest == s.digest
    ensures r == s && p == q
  {}

  /** In two valid chains, records with equal digests stand at the same position and have
      the same history, record for record. */
  lemma {:induction false} ChainsAgree(h: Hash, a: seq<RecordEvent>, i: nat, b: seq<RecordEvent>, j: nat)
    requires Injective(h) && ChainValid(h, a) && ChainValid(h, b)
    requires i < |a| && j < |b| && a[i].digest == b[j].digest
    ensures i == j && forall k :: 0 <= k <= i ==> a[k] == b[k]
    decreases i
  {
    EqualDigests(h, a[i], Predecessor(a, i), b[j], Predecessor(b, j));
    if i > 0 {
      ChainsAgree(h, a, i - 1, b, j - 1);
    }
  }

  // ---------------------------------------------------------------- Merkle roots

  /** One level up: neighbours are hashed in pairs, an odd last one with itself. */
  function MerkleLevel(h: Hash, level: seq<Digest>): (next: seq<Digest>)
    ensures |next| == (|level| + 1) / 2
  {
    if level == [] then []
    else if |level| == 1 then [h(PairImage(level[0], level[0]))]
    else [h(PairImage(level[0], level[1]))] + MerkleLevel(h, level[2..])
  }

  function MerkleRoot(h: Hash, heads: seq<Digest>): Digest
    decreases |heads|
  {
    if heads == [] then h(EmptyImage)
    else if |heads| == 1 then heads[0]
    else MerkleRoot(h, MerkleLevel(h, heads))
  }

  lemma {:induction false} LevelInjective(h: Hash, a: seq<Digest>, b: seq<Digest>)
    requires Injective(h) && |a| == |b| && MerkleLevel(h, a) == MerkleLevel(h, b)
    ensures a == b
    decreases |a|
  {
    if |a| > 0 {
      var x := PairImage(a[0], if |a| == 1 then a[0] else a[1]);
      var y := PairImage(b[0], if |b| == 1 then b[0] else b[1]);
      assert MerkleLevel(h, a)[0] == h(x) && MerkleLevel(h, b)[0] == h(y);
      assert x == y;
      if |a| > 1 {
        assert MerkleLevel(h, a)[1..] == MerkleLevel(h, a[2..]);
        assert MerkleLevel(h, b)[1..] == MerkleLevel(h, b[2..]);
        LevelInjective(h, a[2..], b[2..]);
        assert a == [a[0], a[1]] + a[2..] && b == [b[0], b[1]] + b[2..];
      }
    }
  }

  /** For a fixed number of leaves the root determines every leaf. */
  lemma {:induction false} MerkleInjective(h: Hash, a: seq<Digest>, b: seq<Digest>)
    requires Injective(h) && |a| == |b| && MerkleRoot(h, a) == MerkleRoot(h, b)
    ensures a == b
    decreases |a|
  {
    if |a| > 1 {
      MerkleInjective(h, MerkleLevel(h, a), MerkleLevel(h, b));
      LevelInjective(h, a, b);
    }
  }

  /** The leaf count has to be fixed: three leaves and the same three with the last one
      repeated have the same root, whatever the hash. */
  lemma MerkleNeedsLeafCount(h: Hash, x: Digest, y: Digest, z: Digest)
    ensures MerkleRoot(h, [x, y, z]) == MerkleRoot(h, [x, y, z, z])
  {
    var xy, zz := h(PairImage(x, y)), h(PairImage(z, z));
    assert [x, y, z][2..] == [z] && [x, y, z, z][2..] == [z, z] && [z, z][2..] == [];
    assert MerkleLevel(h, [x, y, z]) == [xy, zz];
    assert MerkleLevel(h, [x, y, z, z]) == [xy, zz];
  }
}
