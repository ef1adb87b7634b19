/** The persistent content-hash cache (`src/index.rs`). */
module Index {
  import opened Files
  import opened Model

  type Hash = h: Bytes | |h| == 32 witness seq(32, _ => 0)

  /** SHA-256, as far as it matters: one hash for each content. */
  type Hasher = Bytes -> Hash

  datatype Entry = Entry(size: nat, mtime: int, hash: Hash, shared: bool)

  /** `seen` is when a run last asked for the entry, in seconds since the epoch. */
  datatype Slot = Slot(entry: Entry, seen: nat)

  type Entries = map<FileId, Slot>

  predicate Hits(m: Entries, stamp: Stamp) {
    stamp.id in m && m[stamp.id].entry.size == stamp.size && m[stamp.id].entry.mtime == stamp.mtime
  }

  /** The entry for exactly this version of a file. */
  function Lookup(m: Entries, stamp: Stamp): Option<Entry> {
    if Hits(m, stamp) then Some(m[stamp.id].entry) else None
  }

  function Touched(m: Entries, stamp: Stamp, now: nat): Entries {
    if Hits(m, stamp) then m[stamp.id := m[stamp.id].(seen := now)] else m
  }

  function PutIn(m: Entries, stamp: Stamp, hash: Hash, shared: bool, now: nat): Entries {
    m[stamp.id := Slot(Entry(stamp.size, stamp.mtime, hash, shared), now)]
  }

  function SharedIn(m: Entries, stamp: Stamp, now: nat): Entries {
    if Hits(m, stamp) then m[stamp.id := Slot(m[stamp.id].entry.(shared := true), now)] else m
  }

  function ExpiredFrom(m: Entries, idle: nat, now: nat): Entries {
    map id | id in m && m[id].seen >= (if now >= idle then now - idle else 0) :: m[id]
  }

  /** The index has this hash and mark for exactly this version of a file. */
  ghost predicate Answers(m: Entries, stamp: Stamp, hash: Hash, shared: bool) {
    stamp.id in m && m[stamp.id].entry == Entry(stamp.size, stamp.mtime, hash, shared)
  }

  lemma LookupAnswers(m: Entries, stamp: Stamp, hash: Hash, shared: bool)
    ensures Answers(m, stamp, hash, shared) <==>
              Lookup(m, stamp).Some? && Lookup(m, stamp).value.hash == hash && Lookup(m, stamp).value.shared == shared
  {}

  class HashIndex {
    var entries: Entries
    /** What a lookup stamps on an entry: the time the index was loaded. */
    var now: nat

    constructor (entries: Entries, now: nat)
      ensures this.entries == entries && this.now == now
    {
      this.entries := entries;
      this.now := now;
    }

    /** A hit counts as the entry being seen. */
    method Get(stamp: Stamp) returns (r: Option<Entry>)
      modifies this`entries
      ensures r == Lookup(old(entries), stamp) && entries == Touched(old(entries), stamp, now)
      ensures r.Some? ==> Answers(old(entries), stamp, r.value.hash, r.value.shared) && entries[stamp.id].seen == now
      ensures r.None? ==> forall hash, shared :: !Answers(old(entries), stamp, hash, shared)
      ensures entries.Keys == old(entries).Keys && forall id :: id in entries ==> entries[id].entry == old(entries)[id].entry
    {
      if !Hits(entries, stamp) {
        return None;
      }
      entries := entries[stamp.id := entries[stamp.id].(seen := now)];
      return Some(entries[stamp.id].entry);
    }

    method Put(stamp: Stamp, hash: Hash, shared: bool)
      modifies this`entries
      ensures entries == PutIn(old(entries), stamp, hash, shared, now)
      ensures Answers(entries, stamp, hash, shared) && entries[stamp.id].seen == now
      ensures entries - {stamp.id} == old(entries) - {stamp.id}
    {
      entries := entries[stamp.id := Slot(Entry(stamp.size, stamp.mtime, hash, shared), now)];
    }

    method MarkShared(stamp: Stamp)
      modifies this`entries
      ensures entries == SharedIn(old(entries), stamp, now)
      ensures forall hash, shared :: Answers(old(entries), stamp, hash, shared) ==> Answers(entries, stamp, hash, true)
    {
      if stamp.id in entries && entries[stamp.id].entry.size == stamp.size && entries[stamp.id].entry.mtime == stamp.mtime {
        entries := entries[stamp.id := Slot(entries[stamp.id].entry.(shared := true), now)];
      }
    }

    method Remove(stamp: Stamp)
      modifies this`entries
      ensures entries == old(entries) - {stamp.id}
    {
      entries := entries - {stamp.id};
    }

    /** Drops every entry no lookup has hit for longer than `idle` seconds. */
    method Expire(idle: nat)
      modifies this`entries
      ensures entries == ExpiredFrom(old(entries), idle, now)
    {
      var cutoff := if now >= idle then now - idle else 0;
      entries := map id | id in entries && entries[id].seen >= cutoff :: entries[id];
    }
  }

  /** `replaced`: the source is shared, the member's entry goes, the new inode has the source's hash. */
  function ReplacedIn(m: Entries, source: Stamp, member: Stamp, new_: Stamp, now: nat): Entries {
    match Lookup(m, source)
    case None => m
    case Some(entry) => PutIn(SharedIn(m, source, now) - {member.id}, new_, entry.hash, true, now)
  }

  /** `rewritten`: the content moved to an inode that shares nothing. */
  function RewrittenIn(m: Entries, before: Stamp, after: Stamp, now: nat): Entries {
    match Lookup(m, before)
    case None => m
    case Some(entry) => PutIn(m - {before.id}, after, entry.hash, false, now)
  }

  /** A replacement told to the index: where it knew the source's hash, it has it for the new file, shared, and for the source, shared as
      well; of the member it knows nothing any longer, and of every other file what it knew. Else nothing changes. */
  lemma ReplacedTells(m: Entries, source: Stamp, member: Stamp, new_: Stamp, now: nat, hash: Hash, shared: bool)
    ensures Answers(m, source, hash, shared) ==>
              var n := ReplacedIn(m, source, member, new_, now);
              && Answers(n, new_, hash, true) && n[new_.id].seen == now
              && (source.id != new_.id && source.id != member.id ==> Answers(n, source, hash, true) && n[source.id].seen == now)
              && (member.id != new_.id ==> member.id !in n)
              && n - {source.id, member.id, new_.id} == m - {source.id, member.id, new_.id}
    ensures (forall other, mark :: !Answers(m, source, other, mark)) ==> ReplacedIn(m, source, member, new_, now) == m
  {
    if Lookup(m, source).Some? {
      LookupAnswers(m, source, Lookup(m, source).value.hash, Lookup(m, source).value.shared);
    }
  }

  /** A compression told to the index: the hash it knew is now the new file's, which shares nothing, and the old one is forgotten. */
  lemma RewrittenTells(m: Entries, before: Stamp, after: Stamp, now: nat, hash: Hash, shared: bool)
    ensures Answers(m, before, hash, shared) ==>
              var n := RewrittenIn(m, before, after, now);
              && Answers(n, after, hash, false) && n[after.id].seen == now
              && (before.id != after.id ==> before.id !in n)
              && n - {before.id, after.id} == m - {before.id, after.id}
    ensures (forall other, mark :: !Answers(m, before, other, mark)) ==> RewrittenIn(m, before, after, now) == m
  {
    if Lookup(m, before).Some? {
      LookupAnswers(m, before, Lookup(m, before).value.hash, Lookup(m, before).value.shared);
    }
  }

  /** An entry that hits a live file has the hash of that file's bytes. */
  ghost predicate Sound(h: Hasher, m: Entries, nodes: map<FileId, Node>) {
    forall id :: id in nodes && Hits(m, StampOf(id, nodes[id])) ==> m[id].entry.hash == h(nodes[id].bytes)
  }

  /** The version of a file that an entry is about. */
  function KeyStamp(m: Entries, id: FileId): Stamp
    requires id in m
  {
    Stamp(id, m[id].entry.size, m[id].entry.mtime)
  }

  /** Every entry is about a version it was about in `m`, or one that some state from `begin` on had. */
  ghost predicate Dated(m: Entries, n: Entries, states: seq<Fs>, begin: nat) {
    forall id :: id in n ==> (id in m && KeyStamp(n, id) == KeyStamp(m, id)) || Lived(states, begin, KeyStamp(n, id))
  }

  ghost function Datings(m: Entries, states: seq<Fs>, begin: nat): iset<Entries> {
    iset n: Entries | Dated(m, n, states, begin)
  }

  lemma DatedAtStart(m: Entries, states: seq<Fs>, begin: nat)
    ensures m in Datings(m, states, begin)
  {}

  lemma DatedOn(m: Entries, n: Entries, states: seq<Fs>, more: seq<Fs>, begin: nat)
    requires n in Datings(m, states, begin) && Grown(states, more)
    ensures n in Datings(m, more, begin)
  {
    forall id | id in n ensures (id in m && KeyStamp(n, id) == KeyStamp(m, id)) || Lived(more, begin, KeyStamp(n, id)) {
      if Lived(states, begin, KeyStamp(n, id)) {
        LivedOn(states, more, begin, KeyStamp(n, id));
      }
    }
  }

  lemma DatedSooner(m: Entries, n: Entries, states: seq<Fs>, later: nat, begin: nat)
    requires n in Datings(m, states, later) && begin <= later
    ensures n in Datings(m, states, begin)
  {
    forall id | id in n && Lived(states, later, KeyStamp(n, id)) ensures Lived(states, begin, KeyStamp(n, id)) {
      var k :| later <= k < |states| && Live(states[k], KeyStamp(n, id));
    }
  }

  /** One stretch of states after another. */
  lemma DatedThrough(m: Entries, n: Entries, k: Entries, states: seq<Fs>, more: seq<Fs>, begin: nat, later: nat)
    requires n in Datings(m, states, begin) && Grown(states, more) && begin <= later && k in Datings(n, more, later)
    ensures k in Datings(m, more, begin)
  {
    DatedOn(m, n, states, more, begin);
    DatedSooner(n, k, more, later, begin);
  }

  /** An entry put for a version that there was. */
  lemma PutDated(m: Entries, n: Entries, more: Entries, states: seq<Fs>, begin: nat, stamp: Stamp)
    requires n in Datings(m, states, begin) && Lived(states, begin, stamp)
    requires forall id :: id in more ==> (id in n && KeyStamp(more, id) == KeyStamp(n, id)) || KeyStamp(more, id) == stamp
    ensures more in Datings(m, states, begin)
  {}

  lemma SameDated(m: Entries, n: Entries, more: Entries, states: seq<Fs>, begin: nat)
    requires n in Datings(m, states, begin) && forall id :: id in more ==> id in n && more[id].entry == n[id].entry
    ensures more in Datings(m, states, begin)
  {}

  lemma TouchedLooksTheSame(m: Entries, stamp: Stamp, now: nat, other: Stamp)
    ensures Lookup(Touched(m, stamp, now), other) == Lookup(m, other)
  {}

  lemma TouchedSound(h: Hasher, m: Entries, nodes: map<FileId, Node>, stamp: Stamp, now: nat)
    requires Sound(h, m, nodes)
    ensures Sound(h, Touched(m, stamp, now), nodes)
  {
    forall id | id in nodes { TouchedLooksTheSame(m, stamp, now, StampOf(id, nodes[id])); }
  }

  /** Storing a hash keeps the index sound if it is right for whatever the inode holds. */
  lemma PutSound(h: Hasher, m: Entries, nodes: map<FileId, Node>, stamp: Stamp, hash: Hash, shared: bool, now: nat)
    requires Sound(h, m, nodes)
    requires stamp.id in nodes ==> hash == h(nodes[stamp.id].bytes)
    ensures Sound(h, PutIn(m, stamp, hash, shared, now), nodes)
  {}

  lemma SharedSound(h: Hasher, m: Entries, nodes: map<FileId, Node>, stamp: Stamp, now: nat)
    requires Sound(h, m, nodes)
    ensures Sound(h, SharedIn(m, stamp, now), nodes)
  {}

  /** Expiring drops exactly what was not asked for in the time given; what this run has asked for stays. */
  lemma ExpiredAt(m: Entries, idle: nat, now: nat, stamp: Stamp)
    ensures stamp.id in ExpiredFrom(m, idle, now) <==> stamp.id in m && m[stamp.id].seen + idle >= now
    ensures Lookup(ExpiredFrom(Touched(m, stamp, now), idle, now), stamp) == Lookup(m, stamp)
  {}

  lemma RemovedSound(h: Hasher, m: Entries, nodes: map<FileId, Node>, ids: set<FileId>)
    requires Sound(h, m, nodes)
    ensures Sound(h, m - ids, nodes)
  {}
}
