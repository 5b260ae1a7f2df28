/**
 The byte stream fed to the snapshot digest. SHA-256 is taken to be injective, so two digests
 agree exactly when the streams do; what matters is what equal streams say about the records.
 */
module Digest {
  import opened Control
  import opened Seqs
  import opened Text
  import opened Pages
  import opened Graph

  // The part of a record the digest covers; the owner counts only for partitioned records.
  datatype DigestKey = DigestKey(partition: int, sourceInstanceId: int, identity: string, owner: string)

  function KeyOf(record: EntityRecord): DigestKey {
    DigestKey(record.partition, record.sourceInstanceId, record.identity,
              if record.partition > 0 then record.ownerDeviceSn else "")
  }

  function KeysOf(records: seq<EntityRecord>): seq<DigestKey> {
    seq(|records|, i requires 0 <= i < |records| => KeyOf(records[i]))
  }

  // A 64-bit integer in big-endian two's complement.
  function Encoded(n: int): (r: seq<byte>)
    ensures |r| == 8
  {
    BigEndian(n % 0x1_0000_0000_0000_0000, 8)
  }

  function OwnerPart(record: EntityRecord): seq<byte> {
    if record.partition > 0 then Terminated(record.ownerDeviceSn) else []
  }

  function NamePart(record: EntityRecord): seq<byte> {
    Terminated(record.identity) + OwnerPart(record)
  }

  function InstancePart(record: EntityRecord): seq<byte> {
    Encoded(record.sourceInstanceId) + NamePart(record)
  }

  function Chunk(record: EntityRecord): seq<byte> {
    (if record.partition > 0 then Encoded(record.partition) else []) + InstancePart(record)
  }

  function Stream(records: seq<EntityRecord>): seq<byte> {
    FlatMap(Chunk, records)
  }

  method AppendRecord(digest: seq<byte>, record: EntityRecord) returns (now: seq<byte>)
    ensures now == digest + Chunk(record)
  {
    now := digest;
    if record.partition > 0 { now := now + Encoded(record.partition); }
    var partition := if record.partition > 0 then Encoded(record.partition) else [];
    assert now == digest + partition;
    now := now + Encoded(record.sourceInstanceId);
    now := now + Bytes(record.identity);
    now := now + [0];
    Assoc(digest + partition + Encoded(record.sourceInstanceId), Bytes(record.identity), [0]);
    if record.partition > 0 {
      now := now + Bytes(record.ownerDeviceSn);
      now := now + [0];
      Assoc(digest + partition + Encoded(record.sourceInstanceId) + Terminated(record.identity),
          Bytes(record.ownerDeviceSn), [0]);
    }
    assert now == digest + partition + Encoded(record.sourceInstanceId) + Terminated(record.identity) +
        OwnerPart(record);
    Assoc(digest + partition + Encoded(record.sourceInstanceId), Terminated(record.identity), OwnerPart(record));
    Assoc(digest + partition, Encoded(record.sourceInstanceId), NamePart(record));
    Assoc(digest, partition, InstancePart(record));
  }

  method WriteEntityIdentityDigest(digest: seq<byte>, records: seq<EntityRecord>) returns (now: seq<byte>)
    ensures now == digest + Stream(records)
  {
    now := digest;
    for i := 0 to |records|
      invariant now == digest + Stream(records[..i])
    {
      FlatMapExtend(Chunk, records, i);
      Assoc(digest, Stream(records[..i]), Chunk(records[i]));
      now := AppendRecord(now, records[i]);
    }
    assert records[..|records|] == records;
  }

  /** Where the page boundaries fall does not show in the stream. */
  lemma StreamOfSum(a: seq<EntityRecord>, b: seq<EntityRecord>)
    ensures Stream(a + b) == Stream(a) + Stream(b)
  {
    FlatMapSum(Chunk, a, b);
  }

  // ----- decodability -----

  ghost predicate Encodable(record: EntityRecord, entity: EntityType) {
    && PartitionOk(entity, record.partition)
    && 0 <= record.partition <= INT64_MAX && 0 <= record.sourceInstanceId <= INT64_MAX
    && NulFree(record.identity)
    && (entity == Interface ==> NulFree(record.ownerDeviceSn))
  }

  ghost predicate AllEncodable(records: seq<EntityRecord>, entity: EntityType) {
    forall i | 0 <= i < |records| :: Encodable(records[i], entity)
  }

  lemma EncodedInjective(n: nat, s: seq<byte>, m: nat, t: seq<byte>)
    requires n <= INT64_MAX && m <= INT64_MAX && Encoded(n) + s == Encoded(m) + t
    ensures n == m && s == t
  {
    SplitSum(Encoded(n), s, Encoded(m), t);
    BigEndianInjective(n, m, 8);
  }

  lemma OwnerPartInjective(r: EntityRecord, s: seq<byte>, q: EntityRecord, t: seq<byte>, entity: EntityType)
    requires Encodable(r, entity) && Encodable(q, entity) && OwnerPart(r) + s == OwnerPart(q) + t
    ensures KeyOf(r).owner == KeyOf(q).owner && s == t
  {
    if entity == Interface { TerminatedTextInjective(r.ownerDeviceSn, s, q.ownerDeviceSn, t); }
    else { SplitSum([], s, [], t); }
  }

  lemma NamePartInjective(r: EntityRecord, s: seq<byte>, q: EntityRecord, t: seq<byte>, entity: EntityType)
    requires Encodable(r, entity) && Encodable(q, entity) && NamePart(r) + s == NamePart(q) + t
    ensures r.identity == q.identity && KeyOf(r).owner == KeyOf(q).owner && s == t
  {
    Assoc(Terminated(r.identity), OwnerPart(r), s);
    Assoc(Terminated(q.identity), OwnerPart(q), t);
    TerminatedTextInjective(r.identity, OwnerPart(r) + s, q.identity, OwnerPart(q) + t);
    OwnerPartInjective(r, s, q, t, entity);
  }

  lemma InstancePartInjective(r: EntityRecord, s: seq<byte>, q: EntityRecord, t: seq<byte>, entity: EntityType)
    requires Encodable(r, entity) && Encodable(q, entity) && InstancePart(r) + s == InstancePart(q) + t
    ensures r.sourceInstanceId == q.sourceInstanceId && r.identity == q.identity && KeyOf(r).owner == KeyOf(q).owner
              && s == t
  {
    Assoc(Encoded(r.sourceInstanceId), NamePart(r), s);
    Assoc(Encoded(q.sourceInstanceId), NamePart(q), t);
    EncodedInjective(r.sourceInstanceId, NamePart(r) + s, q.sourceInstanceId, NamePart(q) + t);
    NamePartInjective(r, s, q, t, entity);
  }

  lemma ChunkInjective(r: EntityRecord, s: seq<byte>, q: EntityRecord, t: seq<byte>, entity: EntityType)
    requires Encodable(r, entity) && Encodable(q, entity) && Chunk(r) + s == Chunk(q) + t
    ensures KeyOf(r) == KeyOf(q) && s == t
  {
    if entity == Interface {
      Assoc(Encoded(r.partition), InstancePart(r), s);
      Assoc(Encoded(q.partition), InstancePart(q), t);
      EncodedInjective(r.partition, InstancePart(r) + s, q.partition, InstancePart(q) + t);
    } else {
      assert Chunk(r) == InstancePart(r) && Chunk(q) == InstancePart(q);
    }
    InstancePartInjective(r, s, q, t, entity);
  }

  // The same records, as far as the digest goes: in partition, instance and identity, and where there is a
  // partition in the owner, place by place.
  ghost predicate SameRecords(a: seq<EntityRecord>, b: seq<EntityRecord>) {
    |a| == |b| && forall i | 0 <= i < |a| :: SameRecord(a[i], b[i])
  }

  ghost predicate SameRecord(r: EntityRecord, q: EntityRecord) {
    && r.partition == q.partition && r.sourceInstanceId == q.sourceInstanceId && r.identity == q.identity
    && (r.partition > 0 ==> r.ownerDeviceSn == q.ownerDeviceSn)
  }

  lemma KeysSame(a: seq<EntityRecord>, b: seq<EntityRecord>)
    ensures KeysOf(a) == KeysOf(b) <==> SameRecords(a, b)
  {
    if KeysOf(a) == KeysOf(b) {
      assert |a| == |KeysOf(a)| == |KeysOf(b)| == |b|;
      forall i | 0 <= i < |a| ensures SameRecord(a[i], b[i]) {
        assert KeysOf(a)[i] == KeyOf(a[i]) && KeysOf(b)[i] == KeyOf(b[i]);
      }
    }
  }

  lemma {:induction false} SameStream(a: seq<EntityRecord>, b: seq<EntityRecord>)
    requires SameRecords(a, b)
    ensures Stream(a) == Stream(b)
    decreases |a|
  {
    if a != [] {
      var n := |a| - 1;
      SameStream(a[..n], b[..n]);
      assert SameRecord(a[n], b[n]);
    }
  }

  lemma {:induction false} StreamGivesKeys(a: seq<EntityRecord>, b: seq<EntityRecord>, entity: EntityType)
    requires AllEncodable(a, entity) && AllEncodable(b, entity)
    requires Stream(a) == Stream(b)
    ensures KeysOf(a) == KeysOf(b)
    decreases |a|
  {
    if a == [] {
    } else {
      FlatMapFront(Chunk, a);
      FlatMapFront(Chunk, b);
      ChunkInjective(a[0], Stream(a[1..]), b[0], Stream(b[1..]), entity);
      StreamGivesKeys(a[1..], b[1..], entity);
      KeysFront(a);
      KeysFront(b);
    }
  }

  /** The stream is uniquely decodable: NUL-free records have equal streams if and only if they are the same
      records, in partition, instance, identity and owner, in the same order. */
  lemma StreamDecodes(a: seq<EntityRecord>, b: seq<EntityRecord>, entity: EntityType)
    requires AllEncodable(a, entity) && AllEncodable(b, entity)
    ensures Stream(a) == Stream(b) <==> SameRecords(a, b)
  {
    KeysSame(a, b);
    if Stream(a) == Stream(b) { StreamGivesKeys(a, b, entity); }
    if SameRecords(a, b) { SameStream(a, b); }
  }

  lemma KeysFront(a: seq<EntityRecord>)
    requires a != []
    ensures KeysOf(a) == [KeyOf(a[0])] + KeysOf(a[1..])
  {
  }

  // So the same records have the same identities.
  lemma SameIdentities(a: seq<EntityRecord>, b: seq<EntityRecord>)
    requires SameRecords(a, b)
    ensures Identities(a) == Identities(b)
  {
    assert forall i | 0 <= i < |a| :: SameRecord(a[i], b[i]);
  }

  // ----- why NUL matters -----

  function Plain(id: int, identity: string): EntityRecord {
    EntityRecord(0, id, identity, "", map[])
  }

  // Seven NULs and the number itself: how a small instance id looks inside the stream.
  const SEVEN_NULS := "\0\0\0\0\0\0\0"

  // An identity that goes on, after a NUL, like the start of a further record.
  function Hidden(left: string, c: char, right: string): string {
    left + "\0" + SEVEN_NULS + [c] + right
  }

  // Two readings of the same bytes: which of the three names belongs to which instance is open.
  function FirstReading(id: int, a: string, n: char, b: string, m: char, c: string): seq<EntityRecord> {
    [Plain(id, a), Plain(n as int, Hidden(b, m, c))]
  }

  function SecondReading(id: int, a: string, n: char, b: string, m: char, c: string): seq<EntityRecord> {
    [Plain(id, Hidden(a, n, b)), Plain(m as int, c)]
  }

  const FIRST_READING := FirstReading(1, "a", '\U{2}', "b", '\U{3}', "c")

  const SECOND_READING := SecondReading(1, "a", '\U{2}', "b", '\U{3}', "c")

  lemma {:induction false} BytesOfSum(s: string, t: string)
    ensures Bytes(s + t) == Bytes(s) + Bytes(t)
    decreases |s|
  {
    if s == "" {
      assert s + t == t;
    } else {
      BytesOfSum(s[1..], t);
      assert (s + t)[1..] == s[1..] + t && (s + t)[0] == s[0];
    }
  }

  lemma {:induction false} BytesOfNuls(k: nat)
    ensures Bytes(seq(k, _ => '\0')) == seq(k, _ => 0)
    decreases k
  {
    var nuls, zeros := seq(k, _ => '\0'), seq(k, _ => 0);
    if k > 0 {
      BytesOfNuls(k - 1);
      assert nuls[1..] == seq(k - 1, _ => '\0') && nuls[0] == '\0';
      assert zeros == [0] + seq(k - 1, _ => 0);
    }
  }

  lemma SmallEncoded(n: nat, c: char)
    requires n < 0x80 && c as int == n
    ensures Encoded(n) == Bytes(SEVEN_NULS + [c])
  {
    forall i | 0 <= i < 8 ensures Encoded(n)[i] == if i == 7 then n else 0 {
      SmallDigits(n, 7 - i);
    }
    BytesOfSum(SEVEN_NULS, [c]);
    BytesOfNuls(7);
    assert SEVEN_NULS == seq(7, _ => '\0');
    assert Bytes([c]) == Utf8(c) + Bytes([]) == [n];
    assert Encoded(n) == seq(7, _ => 0) + [n];
  }

  lemma SplitByNul(left: string, right: string, c: char)
    requires c as int < 0x80
    ensures Terminated(Hidden(left, c, right)) == Terminated(left) + (Encoded(c as int) + Terminated(right))
  {
    var n := c as int;
    SmallEncoded(n, c);
    BytesOfSum(left + "\0" + SEVEN_NULS + [c], right);
    BytesOfSum(left + "\0", SEVEN_NULS + [c]);
    BytesOfSum(left, "\0");
    assert left + "\0" + SEVEN_NULS + [c] == (left + "\0") + (SEVEN_NULS + [c]);
    assert Utf8('\0') == [0] && Bytes("\0") == [0];
    Assoc(Terminated(left), Encoded(n), Bytes(right));
    Assoc(Terminated(left) + Encoded(n), Bytes(right), [0]);
    Assoc(Terminated(left), Encoded(n), Terminated(right));
  }

  // A record whose identity hides the start of another record reads like those two records.
  lemma HiddenRecord(id: int, left: string, right: string, c: char)
    requires c as int < 0x80
    ensures Chunk(Plain(id, Hidden(left, c, right))) == Chunk(Plain(id, left)) + Chunk(Plain(c as int, right))
  {
    hide Hidden;
    var r := Plain(id, Hidden(left, c, right));
    SplitByNul(left, right, c);
    Assoc(Encoded(id), Terminated(left), Chunk(Plain(c as int, right)));
  }

  lemma StreamOfTwo(r: EntityRecord, q: EntityRecord)
    ensures Stream([r, q]) == Chunk(r) + Chunk(q)
  {
    FlatMapFront(Chunk, [r, q]);
    FlatMapFront(Chunk, [q]);
    assert [r, q][1..] == [q] && [q][1..] == [];
  }

  lemma ReadingsAgree(id: int, a: string, n: char, b: string, m: char, c: string)
    requires n as int < 0x80 && m as int < 0x80
    ensures Stream(FirstReading(id, a, n, b, m, c)) == Stream(SecondReading(id, a, n, b, m, c))
  {
    hide Hidden, Chunk;
    var x, y, z := Plain(id, a), Plain(n as int, b), Plain(m as int, c);
    StreamOfTwo(x, Plain(n as int, Hidden(b, m, c)));
    StreamOfTwo(Plain(id, Hidden(a, n, b)), z);
    HiddenRecord(n as int, b, c, m);
    HiddenRecord(id, a, b, n);
    Assoc(Chunk(x), Chunk(y), Chunk(z));
  }

  /** Such identities always collide: whatever stands before and after, whatever the three names and the
      instance ids, the two readings have one stream and different keys. */
  lemma NulPassesCollide(before: seq<EntityRecord>, after: seq<EntityRecord>, id: int, a: string, n: char, b: string,
        m: char, c: string)
    requires n as int < 0x80 && m as int < 0x80
    ensures var first, second := FirstReading(id, a, n, b, m, c), SecondReading(id, a, n, b, m, c);
            && Stream(before + first + after) == Stream(before + second + after)
            && !SameRecords(before + first + after, before + second + after)
  {
    var first, second := FirstReading(id, a, n, b, m, c), SecondReading(id, a, n, b, m, c);
    var k := |before|;
    assert (before + first + after)[k] == Plain(id, a) && (before + second + after)[k] == Plain(id, Hidden(a, n, b));
    assert |Hidden(a, n, b)| > |a|;
    assert !SameRecord((before + first + after)[k], (before + second + after)[k]);
    hide FirstReading, SecondReading, Stream, KeysOf;
    ReadingsAgree(id, a, n, b, m, c);
    StreamOfSum(before, first);
    StreamOfSum(before, second);
    StreamOfSum(before + first, after);
    StreamOfSum(before + second, after);
  }

  /** With NULs allowed the digest cannot tell two passes apart that the worker accepts: these two both have
      two records with clean, distinct identities and increasing instance ids, and the same stream. */
  lemma NulBreaksDecoding()
    ensures Stream(FIRST_READING) == Stream(SECOND_READING)
    ensures !SameRecords(FIRST_READING, SECOND_READING)
    ensures CleanIdentities(FIRST_READING) && DistinctIdentities(FIRST_READING)
    ensures PageOk(FreshCursor("r", 1), EntityPage(FIRST_READING, 2, 2, true), Device)
    ensures PageOk(FreshCursor("r", 1), EntityPage(SECOND_READING, 2, 2, true), Device)
  {
    ReadingsAgree(1, "a", '\U{2}', "b", '\U{3}', "c");
    ReadingKeysDiffer();
    KeysSame(FIRST_READING, SECOND_READING);
    TwoAccepted(1, "a", 2, Hidden("b", '\U{3}', "c"));
    TwoAccepted(1, Hidden("a", '\U{2}', "b"), 3, "c");
    HiddenClean();
    hide Stream, KeysOf, Hidden, PageOk, CleanIdentities, DistinctIdentities, Clean, SameRecords;
  }

  lemma TwoAccepted(i: int, s: string, j: int, t: string)
    requires 0 < i < j
    ensures var records := [Plain(i, s), Plain(j, t)];
            && PageOk(FreshCursor("r", 1), EntityPage(records, 2, 2, true), Device)
            && (Clean(s) && Clean(t) ==> CleanIdentities(records)) && (s != t ==> DistinctIdentities(records))
  {
    hide Clean;
  }

  lemma ReadingKeysDiffer()
    ensures KeysOf(FIRST_READING) != KeysOf(SECOND_READING)
  {
    hide Hidden;
    assert KeysOf(FIRST_READING)[1].sourceInstanceId == 2 && KeysOf(SECOND_READING)[1].sourceInstanceId == 3;
  }

  lemma HiddenClean()
    ensures Clean("a") && Clean(Hidden("b", '\U{3}', "c")) && Hidden("b", '\U{3}', "c") != "a"
  {
    CleanMeans("a");
    CleanMeans(Hidden("b", '\U{3}', "c"));
  }
}
