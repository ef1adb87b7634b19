/** The index file: a magic, then little-endian records of 77 bytes (`encode`, `decode` in `src/index.rs`). */
module Codec {
  import opened Files
  import opened Model
  import opened Index

  /** `DUNIDX02`. */
  const MAGIC: Bytes := [68, 85, 78, 73, 68, 88, 48, 50]
  const RECORD_BYTES: nat := 77
  const U64: nat := 0x1_0000_0000_0000_0000
  /** The first second a `SystemTime` cannot hold. */
  const END_OF_TIME: nat := 0x8000_0000_0000_0000

  function ToLe(n: nat, k: nat): (r: Bytes)
    ensures |r| == k
  {
    if k == 0 then [] else [n % 256] + ToLe(n / 256, k - 1)
  }

  function FromLe(bytes: Bytes): nat {
    if bytes == [] then 0 else bytes[0] + 256 * FromLe(bytes[1..])
  }

  function Pow256(k: nat): nat {
    if k == 0 then 1 else 256 * Pow256(k - 1)
  }

  lemma {:induction false} LeRoundTrip(n: nat, k: nat)
    requires n < Pow256(k)
    ensures FromLe(ToLe(n, k)) == n
  {
    if k > 0 {
      LeRoundTrip(n / 256, k - 1);
      assert ToLe(n, k)[1..] == ToLe(n / 256, k - 1);
    }
  }

  lemma {:induction false} FromLeBound(bytes: Bytes)
    ensures FromLe(bytes) < Pow256(|bytes|)
  {
    if bytes != [] {
      FromLeBound(bytes[1..]);
    }
  }

  lemma U64RoundTrip(n: nat)
    requires n < U64
    ensures FromLe(ToLe(n, 8)) == n
  {
    assert Pow256(8) == 256 * (256 * (256 * (256 * Pow256(4))));
    assert Pow256(4) == 256 * (256 * (256 * (256 * Pow256(0))));
    LeRoundTrip(n, 8);
  }

  lemma U32RoundTrip(n: nat)
    requires n < 0x1_0000_0000
    ensures FromLe(ToLe(n, 4)) == n
  {
    assert Pow256(4) == 256 * (256 * (256 * (256 * Pow256(0))));
    LeRoundTrip(n, 4);
  }

  function Record(id: FileId, slot: Slot): (r: Bytes)
    requires slot.entry.mtime >= 0
    ensures |r| == RECORD_BYTES
  {
    ToLe(id.dev, 8) + (ToLe(id.ino, 8) + (ToLe(slot.entry.size, 8) + (ToLe(slot.entry.mtime / NANOS_PER_SEC, 8) +
    (ToLe(slot.entry.mtime % NANOS_PER_SEC, 4) + (slot.entry.hash + ([if slot.entry.shared then 1 else 0] +
    ToLe(slot.seen, 8)))))))
  }

  /** One record, field by field off the front; no time when the nanoseconds or the seconds are none. */
  function ParseRecord(r: Bytes): Option<(FileId, Slot)>
    requires |r| == RECORD_BYTES
  {
    var (dev, r1) := (FromLe(r[..8]), r[8..]);
    var (ino, r2) := (FromLe(r1[..8]), r1[8..]);
    var (size, r3) := (FromLe(r2[..8]), r2[8..]);
    var (secs, r4) := (FromLe(r3[..8]), r3[8..]);
    var (nanos, r5) := (FromLe(r4[..4]), r4[4..]);
    var (hash, r6) := (r5[..32], r5[32..]);
    var (shared, r7) := (r6[0] != 0, r6[1..]);
    var seen := FromLe(r7[..8]);
    if nanos >= NANOS_PER_SEC || secs >= END_OF_TIME then None
    else Some((FileId(dev, ino), Slot(Entry(size, secs * NANOS_PER_SEC + nanos, hash, shared), seen)))
  }

  /** `n` stands in the eight bytes from `k` on, the low byte first. */
  ghost predicate U64At(r: Bytes, k: nat, n: nat)
    requires k + 8 <= |r|
  {
    n == U32Of(r, k) + 0x1_0000_0000 * U32Of(r, k + 4)
  }

  ghost predicate U32At(r: Bytes, k: nat, n: nat)
    requires k + 4 <= |r|
  {
    n == U32Of(r, k)
  }

  ghost function U32Of(r: Bytes, k: nat): int
    requires k + 4 <= |r|
  {
    var b0: int, b1: int, b2: int, b3: int := r[k], r[k + 1], r[k + 2], r[k + 3];
    b0 + 0x100 * b1 + 0x1_0000 * b2 + 0x100_0000 * b3
  }

  lemma FourBytes(b: Bytes)
    requires |b| >= 4
    ensures FromLe(b) == U32Of(b, 0) + 0x1_0000_0000 * FromLe(b[4..])
  {
    assert b[1..][1..] == b[2..] && b[2..][1..] == b[3..] && b[3..][1..] == b[4..];
    assert FromLe(b[2..]) == b[2] + 256 * FromLe(b[3..]);
    assert FromLe(b[3..]) == b[3] + 256 * FromLe(b[4..]);
  }

  lemma U64Stands(front: Bytes, n: nat, tail: Bytes)
    requires n < U64
    ensures U64At(front + ToLe(n, 8) + tail, |front|, n)
  {
    var b := ToLe(n, 8);
    U64RoundTrip(n);
    FourBytes(b);
    FourBytes(b[4..]);
    assert b[4..][4..] == [];
    var r := front + b + tail;
    assert r[|front|..|front| + 8] == b;
  }

  lemma U32Stands(front: Bytes, n: nat, tail: Bytes)
    requires n < 0x1_0000_0000
    ensures U32At(front + ToLe(n, 4) + tail, |front|, n)
  {
    var b := ToLe(n, 4);
    U32RoundTrip(n);
    FourBytes(b);
    assert b[4..] == [];
    var r := front + b + tail;
    assert r[|front|..|front| + 4] == b;
  }

  /** A field and what is behind it. */
  lemma CutField(r: Bytes, n: nat, field: Bytes, rest: Bytes)
    requires n <= |r| && r[n..] == field + rest
    ensures n + |field| <= |r| && r[n + |field|..] == rest && r[n..n + |field|] == field
    ensures r == r[..n] + field + r[n + |field|..]
  {
    assert r[n..][|field|..] == rest && r[n..][..|field|] == field;
    assert r == r[..n] + r[n..];
  }

  /** Where each field of a record is: device, inode, size and seconds in eight bytes each, nanoseconds in four, the hash, one byte for
      shared, and when it was seen; all numbers with the low byte first. */
  lemma RecordLayout(id: FileId, slot: Slot)
    requires Representable(id, slot) && slot.entry.mtime >= 0
    ensures var r := Record(id, slot);
            && |r| == 77 && U64At(r, 0, id.dev) && U64At(r, 8, id.ino) && U64At(r, 16, slot.entry.size)
            && U64At(r, 24, slot.entry.mtime / 1_000_000_000) && U32At(r, 32, slot.entry.mtime % 1_000_000_000)
            && r[36..68] == slot.entry.hash && r[68] == (if slot.entry.shared then 1 else 0) && U64At(r, 69, slot.seen)
  {
    var e, r := slot.entry, Record(id, slot);
    var tail7 := ToLe(slot.seen, 8);
    var tail6 := [if e.shared then 1 else 0] + tail7;
    var tail5 := e.hash + tail6;
    var tail4 := ToLe(e.mtime % NANOS_PER_SEC, 4) + tail5;
    var tail3 := ToLe(e.mtime / NANOS_PER_SEC, 8) + tail4;
    var tail2 := ToLe(e.size, 8) + tail3;
    var tail1 := ToLe(id.ino, 8) + tail2;
    assert r[0..] == ToLe(id.dev, 8) + tail1;
    CutField(r, 0, ToLe(id.dev, 8), tail1);
    CutField(r, 8, ToLe(id.ino, 8), tail2);
    CutField(r, 16, ToLe(e.size, 8), tail3);
    CutField(r, 24, ToLe(e.mtime / NANOS_PER_SEC, 8), tail4);
    CutField(r, 32, ToLe(e.mtime % NANOS_PER_SEC, 4), tail5);
    CutField(r, 36, e.hash, tail6);
    CutField(r, 68, [if e.shared then 1 else 0], tail7);
    assert r[69..] == tail7 + [];
    CutField(r, 69, tail7, []);
    RecordStands(id, slot, r);
  }

  lemma RecordStands(id: FileId, slot: Slot, r: Bytes)
    requires Representable(id, slot) && slot.entry.mtime >= 0 && |r| == RECORD_BYTES
    requires var e := slot.entry;
             && r == r[..0] + ToLe(id.dev, 8) + r[8..] && r == r[..8] + ToLe(id.ino, 8) + r[16..]
             && r == r[..16] + ToLe(e.size, 8) + r[24..] && r == r[..24] + ToLe(e.mtime / NANOS_PER_SEC, 8) + r[32..]
             && r == r[..32] + ToLe(e.mtime % NANOS_PER_SEC, 4) + r[36..] && r == r[..69] + ToLe(slot.seen, 8) + r[77..]
    ensures U64At(r, 0, id.dev) && U64At(r, 8, id.ino) && U64At(r, 16, slot.entry.size) && U64At(r, 69, slot.seen)
    ensures U64At(r, 24, slot.entry.mtime / NANOS_PER_SEC) && U32At(r, 32, slot.entry.mtime % NANOS_PER_SEC)
  {
    var e := slot.entry;
    assert e.mtime / NANOS_PER_SEC < END_OF_TIME < U64;
    U64Stands(r[..0], id.dev, r[8..]);
    U64Stands(r[..8], id.ino, r[16..]);
    U64Stands(r[..16], e.size, r[24..]);
    U64Stands(r[..24], e.mtime / NANOS_PER_SEC, r[32..]);
    U32Stands(r[..32], e.mtime % NANOS_PER_SEC, r[36..]);
    U64Stands(r[..69], slot.seen, r[77..]);
  }

  /** What the types of the index hold: 64-bit numbers, and times up to the end of time. */
  ghost predicate Representable(id: FileId, slot: Slot) {
    && id.dev < U64 && id.ino < U64 && slot.entry.size < U64 && slot.seen < U64
    && slot.entry.mtime < END_OF_TIME * NANOS_PER_SEC
  }

  lemma CutFront(field: Bytes, rest: Bytes)
    ensures (field + rest)[..|field|] == field && (field + rest)[|field|..] == rest
  {}

  lemma RecordRoundTrip(id: FileId, slot: Slot)
    requires Representable(id, slot) && slot.entry.mtime >= 0
    ensures ParseRecord(Record(id, slot)) == Some((id, slot))
  {
    var e := slot.entry;
    var tail7 := ToLe(slot.seen, 8);
    var tail6 := [if e.shared then 1 else 0] + tail7;
    var tail5 := e.hash + tail6;
    var tail4 := ToLe(e.mtime % NANOS_PER_SEC, 4) + tail5;
    var tail3 := ToLe(e.mtime / NANOS_PER_SEC, 8) + tail4;
    var tail2 := ToLe(e.size, 8) + tail3;
    var tail1 := ToLe(id.ino, 8) + tail2;
    var r := Record(id, slot);
    CutFront(ToLe(id.dev, 8), tail1);
    CutFront(ToLe(id.ino, 8), tail2);
    CutFront(ToLe(e.size, 8), tail3);
    CutFront(ToLe(e.mtime / NANOS_PER_SEC, 8), tail4);
    CutFront(ToLe(e.mtime % NANOS_PER_SEC, 4), tail5);
    CutFront(e.hash, tail6);
    CutFront([if e.shared then 1 else 0], tail7);
    assert tail7[..8] == tail7;
    U64RoundTrip(id.dev); U64RoundTrip(id.ino); U64RoundTrip(e.size); U64RoundTrip(slot.seen);
    assert e.mtime / NANOS_PER_SEC < END_OF_TIME < U64;
    U64RoundTrip(e.mtime / NANOS_PER_SEC);
    U32RoundTrip(e.mtime % NANOS_PER_SEC);
  }

  /** The entries of whole records, a later one for the same file over an earlier one. */
  function ParseRecords(bytes: Bytes): Option<Entries> {
    if bytes == [] then Some(map[])
    else if |bytes| < RECORD_BYTES then None
    else
      var cut := |bytes| - RECORD_BYTES;
      match (ParseRecords(bytes[..cut]), ParseRecord(bytes[cut..]))
      case (Some(m), Some((id, slot))) => Some(m[id := slot])
      case _ => None
  }

  function Decoded(bytes: Bytes): Option<Entries> {
    if MAGIC <= bytes then ParseRecords(bytes[|MAGIC|..]) else None
  }

  /** The entries worth a record: those of files not modified before 1970. */
  function Cacheable(m: Entries): Entries {
    map id | id in m && m[id].entry.mtime >= 0 :: m[id]
  }

  function RecordAt(bytes: Bytes, k: nat): (r: Bytes)
    requires RECORD_BYTES * (k + 1) <= |bytes|
    ensures |r| == RECORD_BYTES
  {
    bytes[RECORD_BYTES * k..RECORD_BYTES * (k + 1)]
  }

  ghost predicate AllValid(bytes: Bytes) {
    forall k: nat :: RECORD_BYTES * (k + 1) <= |bytes| ==> ParseRecord(RecordAt(bytes, k)).Some?
  }

  lemma AllValidSplit(bytes: Bytes)
    requires |bytes| >= RECORD_BYTES && |bytes| % RECORD_BYTES == 0
    ensures AllValid(bytes) <==>
              AllValid(bytes[..|bytes| - RECORD_BYTES]) && ParseRecord(bytes[|bytes| - RECORD_BYTES..]).Some?
  {
    var cut := |bytes| - RECORD_BYTES;
    var last := |bytes| / RECORD_BYTES - 1;
    assert RecordAt(bytes, last) == bytes[cut..];
    forall k: nat | RECORD_BYTES * (k + 1) <= cut ensures RecordAt(bytes, k) == RecordAt(bytes[..cut], k) {}
    if AllValid(bytes[..cut]) && ParseRecord(bytes[cut..]).Some? {
      forall k: nat | RECORD_BYTES * (k + 1) <= |bytes| ensures ParseRecord(RecordAt(bytes, k)).Some? {
        assert k == last || RECORD_BYTES * (k + 1) <= cut;
      }
    }
  }

  lemma OneRecordLess(n: nat)
    requires n >= RECORD_BYTES
    ensures n % RECORD_BYTES == (n - RECORD_BYTES) % RECORD_BYTES
  {}

  /** Nothing but whole and valid records parses. */
  lemma {:induction false} ParsesIff(bytes: Bytes)
    ensures ParseRecords(bytes).Some? <==> |bytes| % RECORD_BYTES == 0 && AllValid(bytes)
  {
    if |bytes| < RECORD_BYTES {
      assert AllValid(bytes);
      assert |bytes| % RECORD_BYTES == |bytes|;
    } else {
      OneRecordLess(|bytes|);
      ParsesIff(bytes[..|bytes| - RECORD_BYTES]);
      if |bytes| % RECORD_BYTES == 0 {
        AllValidSplit(bytes);
      }
    }
  }

  /** Any file decodes or is refused, and it is refused unless it is the magic and whole, valid records. */
  lemma DecodesIff(bytes: Bytes)
    ensures Decoded(bytes).Some? <==>
              && MAGIC <= bytes
              && (|bytes| - |MAGIC|) % RECORD_BYTES == 0
              && AllValid(bytes[|MAGIC|..])
  {
    if MAGIC <= bytes {
      ParsesIff(bytes[|MAGIC|..]);
    }
  }

  lemma OneMoreRecord(body: Bytes, record: Bytes)
    requires |record| == RECORD_BYTES
    ensures ParseRecords(body + record) ==
            match (ParseRecords(body), ParseRecord(record))
            case (Some(m), Some((id, slot))) => Some(m[id := slot])
            case _ => None
  {
    var bytes := body + record;
    var cut := |bytes| - RECORD_BYTES;
    assert bytes[..cut] == body && bytes[cut..] == record;
  }

  lemma WrittenOneMore(entries: Entries, todo: set<FileId>, id: FileId, body: Bytes)
    requires id in entries && id in todo && Representable(id, entries[id])
    requires ParseRecords(body) == Some(Cacheable(entries - todo))
    ensures entries[id].entry.mtime < 0 ==> Cacheable(entries - (todo - {id})) == Cacheable(entries - todo)
    ensures entries[id].entry.mtime >= 0 ==>
              ParseRecords(body + Record(id, entries[id])) == Some(Cacheable(entries - (todo - {id})))
  {
    CacheableOneMore(entries, todo, id);
    if entries[id].entry.mtime >= 0 {
      RecordRoundTrip(id, entries[id]);
      OneMoreRecord(body, Record(id, entries[id]));
    }
  }

  lemma CacheableOneMore(entries: Entries, todo: set<FileId>, id: FileId)
    requires id in entries && id in todo
    ensures Cacheable(entries - (todo - {id})) ==
            if entries[id].entry.mtime < 0 then Cacheable(entries - todo) else Cacheable(entries - todo)[id := entries[id]]
  {}

  /** The record of one file, behind what is written already. */
  method Append(out: Bytes, entries: Entries, id: FileId, ghost todo: set<FileId>, ghost body: Bytes)
    returns (longer: Bytes, ghost more: Bytes)
    requires id in entries && id in todo && Representable(id, entries[id]) && entries[id].entry.mtime >= 0
    requires out == MAGIC + body && ParseRecords(body) == Some(Cacheable(entries - todo))
    ensures longer == MAGIC + more && ParseRecords(more) == Some(Cacheable(entries - (todo - {id})))
  {
    var record := Record(id, entries[id]);
    longer, more := out + record, body + record;
    WrittenOneMore(entries, todo, id, body);
    JoinAgain(MAGIC, body, record);
  }

  lemma JoinAgain(a: Bytes, b: Bytes, c: Bytes)
    ensures a + b + c == a + (b + c)
  {}

  lemma DecodedBody(body: Bytes)
    ensures Decoded(MAGIC + body) == ParseRecords(body)
  {
    assert (MAGIC + body)[|MAGIC|..] == body;
  }

  lemma BoundU64(bytes: Bytes)
    requires |bytes| == 8
    ensures FromLe(bytes) < U64
  {
    FromLeBound(bytes);
    assert Pow256(8) == 256 * (256 * (256 * (256 * Pow256(4))));
    assert Pow256(4) == 256 * (256 * (256 * (256 * Pow256(0))));
  }

  /** A record that parses is of an entry that can be written. */
  lemma ParsedFits(r: Bytes)
    requires |r| == RECORD_BYTES && ParseRecord(r).Some?
    ensures var (id, slot) := ParseRecord(r).value; Representable(id, slot) && slot.entry.mtime >= 0
  {
    BoundU64(r[..8]);
    BoundU64(r[8..][..8]);
    BoundU64(r[16..][..8]);
    BoundU64(r[69..][..8]);
    assert r[8..][8..] == r[16..] && r[16..][8..] == r[24..] && r[24..][8..] == r[32..] && r[32..][4..] == r[36..];
    assert r[36..][32..] == r[68..] && r[68..][1..] == r[69..];
  }

  /** What was decoded can be saved again, all of it. */
  lemma {:induction false} DecodedCanBeSaved(bytes: Bytes)
    requires ParseRecords(bytes).Some?
    ensures var m := ParseRecords(bytes).value; Cacheable(m) == m && forall id :: id in m ==> Representable(id, m[id])
  {
    if bytes != [] {
      var cut := |bytes| - RECORD_BYTES;
      DecodedCanBeSaved(bytes[..cut]);
      ParsedFits(bytes[cut..]);
    }
  }

  /** Whatever order the entries are written in, they read back one and all, but for those before 1970. */
  method Encode(index: HashIndex) returns (out: Bytes)
    requires forall id :: id in index.entries ==> Representable(id, index.entries[id])
    ensures Decoded(out) == Some(Cacheable(index.entries))
  {
    var entries := index.entries;
    out := MAGIC;
    ghost var body: Bytes := [];
    var todo := entries.Keys;
    assert Cacheable(entries - todo) == map[];
    while todo != {}
      invariant todo <= entries.Keys && out == MAGIC + body
      invariant ParseRecords(body) == Some(Cacheable(entries - todo))
      decreases todo
    {
      var id :| id in todo;
      if entries[id].entry.mtime >= 0 {
        out, body := Append(out, entries, id, todo, body);
      } else {
        WrittenOneMore(entries, todo, id, body);
      }
      todo := todo - {id};
    }
    DecodedBody(body);
    assert entries - {} == entries;
  }

  lemma PrefixOneMore(bytes: Bytes, k: nat)
    requires RECORD_BYTES * (k + 1) <= |bytes|
    ensures bytes[..RECORD_BYTES * (k + 1)] == bytes[..RECORD_BYTES * k] + RecordAt(bytes, k)
  {}

  lemma WholePrefix(bytes: Bytes, n: nat)
    requires |bytes| % RECORD_BYTES == 0 && n == |bytes| / RECORD_BYTES
    ensures RECORD_BYTES * n == |bytes| && bytes[..RECORD_BYTES * n] == bytes
  {}

  method Decode(bytes: Bytes) returns (r: Option<Entries>)
    ensures r == Decoded(bytes)
  {
    if !(MAGIC <= bytes) {
      return None;
    }
    var records := bytes[|MAGIC|..];
    ParsesIff(records);
    if |records| % RECORD_BYTES != 0 {
      return None;
    }
    var entries: Entries := map[];
    var n := |records| / RECORD_BYTES;
    assert records[..0] == [];
    for k := 0 to n
      invariant RECORD_BYTES * k <= |records|
      invariant ParseRecords(records[..RECORD_BYTES * k]) == Some(entries)
    {
      var record := RecordAt(records, k);
      PrefixOneMore(records, k);
      OneMoreRecord(records[..RECORD_BYTES * k], record);
      match ParseRecord(record) {
        case None =>
          return None;
        case Some((id, slot)) =>
          entries := entries[id := slot];
      }
    }
    WholePrefix(records, n);
    return Some(entries);
  }
}
