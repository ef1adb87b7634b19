/** Filling a fresh checkout's build dir from a sibling's (`src/seed.rs`): the filtered copy, and the index told of it. */
module Seed {
  import opened Paths
  import opened Files
  import opened Model
  import opened Index
  import opened Scans

  /** Neither in a unit a build holds, nor volatile, private or a temp by any name on the way. */
  predicate Taken(p: Path, source: Path, busy: seq<Path>, left: Component -> bool) {
    && Under(p, source) && !LockedIn(p, busy)
    && forall i :: |source| <= i < |p| ==> !left(p[i]) && !IsTempName(p[i])
  }

  function Moved(p: Path, source: Path, target: Path): Path
    requires Under(p, source)
  {
    target + p[|source|..]
  }

  /** The file at `rest` below the source goes along: it is in no unit a build holds, and nothing on the way to it is left out by name or
      a temp. */
  ghost predicate GoesAlong(source: Path, rest: Path, busy: seq<Path>, left: Component -> bool) {
    && (forall u :: u in busy ==> !(u <= source + rest))
    && forall name :: name in rest ==> !left(name) && !IsTempName(name)
  }

  lemma TakenIfAlong(source: Path, rest: Path, target: Path, busy: seq<Path>, left: Component -> bool)
    ensures Taken(source + rest, source, busy, left) <==> GoesAlong(source, rest, busy, left)
    ensures Moved(source + rest, source, target) == target + rest
  {
    var p := source + rest;
    assert p[|source|..] == rest;
    if GoesAlong(source, rest, busy, left) {
      forall i | |source| <= i < |p| ensures !left(p[i]) && !IsTempName(p[i]) {
        assert p[i] == rest[i - |source|];
      }
      forall i | 0 <= i < |busy| ensures !Under(p, busy[i]) {
        assert busy[i] in busy;
      }
    }
    if Taken(p, source, busy, left) {
      forall name | name in rest ensures !left(name) && !IsTempName(name) {
        var i :| 0 <= i < |rest| && rest[i] == name;
        assert p[|source| + i] == name;
      }
      forall u | u in busy ensures !(u <= p) {
        var i :| 0 <= i < |busy| && busy[i] == u;
        assert !Under(p, busy[i]);
      }
    }
  }

  /** What a copy of a tree came to: what was there is as it was, and what is new below the target is what goes along. */
  ghost predicate CopiedTree(a: Fs, s: Fs, source: Path, target: Path, busy: seq<Path>, left: Component -> bool) {
    && (forall p :: a.Has(p) ==> s.Has(p) && s.names[p] == a.names[p] && s.At(p) == a.At(p))
    && (forall p :: p in s.names && p !in a.names ==>
          exists rest :: p == target + rest && source + rest in a.names && GoesAlong(source, rest, busy, left))
  }

  /** The whole tree: each file that goes along has a copy with its bytes. */
  ghost predicate WholeTree(a: Fs, s: Fs, source: Path, target: Path, busy: seq<Path>, left: Component -> bool) {
    forall rest :: a.Has(source + rest) && GoesAlong(source, rest, busy, left) ==>
      s.Has(target + rest) && s.At(target + rest).bytes == a.At(source + rest).bytes
  }

  lemma CopyingTree(a: Fs, s: Fs, source: Path, target: Path, busy: seq<Path>, left: Component -> bool)
    requires a.WellFormed() && Copying(a, s, source, target, busy, left)
    ensures CopiedTree(a, s, source, target, busy, left)
    ensures (forall q :: q in a.names && Taken(q, source, busy, left) ==> Copied(a, s, q, source, target)) ==>
              WholeTree(a, s, source, target, busy, left)
  {
    forall p | p in s.names && p !in a.names
      ensures exists rest :: p == target + rest && source + rest in a.names && GoesAlong(source, rest, busy, left)
    {
      var q :| q in a.names && Taken(q, source, busy, left) && p == Moved(q, source, target);
      assert q == source + q[|source|..];
      TakenIfAlong(source, q[|source|..], target, busy, left);
    }
    forall rest | a.Has(source + rest) && GoesAlong(source, rest, busy, left) {
      TakenIfAlong(source, rest, target, busy, left);
    }
  }

  /** The index is right about every file, and knows no identity that was not given out. */
  ghost predicate Trusted(h: Hasher, m: Entries, fs: Fs) {
    Sound(h, m, fs.nodes) && m.Keys <= fs.ever
  }

  /** Both sides of a clone hold the same bytes: the copy gets the source's hash, and both are shared. */
  method Register(disk: Disk, index: HashIndex, from: Stamp, copy: Path, ghost h: Hasher, ghost source: Path)
    requires disk.Valid() && Trusted(h, index.entries, disk.fs)
    requires disk.fs.Has(source) && from == StampOf(disk.fs.names[source], disk.fs.At(source))
    requires disk.fs.Has(copy) && disk.fs.At(copy).bytes == disk.fs.At(source).bytes
    modifies index`entries
    ensures Trusted(h, index.entries, disk.fs)
    ensures index.entries in Datings(old(index.entries), disk.states, |disk.states| - 1)
    ensures Hits(old(index.entries), from) ==> Hits(index.entries, from) && index.entries[from.id].entry.shared
    ensures !Hits(old(index.entries), from) ==> index.entries == old(index.entries)
    ensures !disk.faulty && Hits(old(index.entries), from) ==>
              var stamp := StampOf(disk.fs.names[copy], disk.fs.At(copy));
              Hits(index.entries, stamp) && index.entries[stamp.id].entry.shared
              && index.entries[stamp.id].entry.hash == old(index.entries)[from.id].entry.hash
  {
    ghost var known := index.entries;
    DatedAtStart(known, disk.states, |disk.states| - 1);
    var entry := index.Get(from);
    if entry.None? {
      return;
    }
    index.MarkShared(from);
    ghost var m := index.entries;
    var stamp := ReadStamp(disk, copy);
    if stamp.Done? {
      index.Put(stamp.value, entry.value.hash, true);
      PutSound(h, m, disk.fs.nodes, stamp.value, entry.value.hash, true, index.now);
      assert Live(disk.states[|disk.states| - 1], stamp.value);
      PutDated(known, known, index.entries, disk.states, |disk.states| - 1, stamp.value);
    }
  }

  /** What was there is as it was, and every other name is a copy. */
  ghost predicate Copying(a: Fs, s: Fs, source: Path, target: Path, busy: seq<Path>, left: Component -> bool) {
    && s.WellFormed() && a.ever <= s.ever
    && (forall p :: a.Has(p) ==> s.Has(p) && s.names[p] == a.names[p] && s.At(p) == a.At(p))
    && (forall p :: p in s.names && p !in a.names ==>
          exists q :: q in a.names && Taken(q, source, busy, left) && p == Moved(q, source, target))
  }

  /** The copy of `q` is whole. */
  ghost predicate Copied(a: Fs, s: Fs, q: Path, source: Path, target: Path)
    requires Under(q, source) && a.Has(q)
  {
    s.Has(Moved(q, source, target)) && s.At(Moved(q, source, target)).bytes == a.At(q).bytes
  }

  lemma MovedApart(q: Path, r: Path, source: Path, target: Path)
    requires Under(q, source) && Under(r, source) && Moved(q, source, target) == Moved(r, source, target)
    ensures q == r
  {
    assert q[|source|..] == Moved(q, source, target)[|target|..];
    assert r[|source|..] == Moved(r, source, target)[|target|..];
    assert q == source + q[|source|..] && r == source + r[|source|..];
  }

  /** What is copied, and what is still to do. */
  ghost predicate Seeding(a: Fs, s: Fs, all: set<Path>, todo: set<Path>, source: Path, target: Path, busy: seq<Path>,
                          left: Component -> bool) {
    && Copying(a, s, source, target, busy, left)
    && (forall q :: q in all ==> a.Has(q) && Taken(q, source, busy, left))
    && (forall q :: q in all && q !in todo ==> Copied(a, s, q, source, target))
    && (forall q :: q in todo ==> q in all && Moved(q, source, target) !in s.names)
  }

  /** A copy begun, whole or not. */
  lemma CopyOneMore(a: Fs, s: Fs, t: Fs, q: Path, source: Path, target: Path, busy: seq<Path>, left: Component -> bool)
    requires a.WellFormed() && s.WellFormed() && Copying(a, s, source, target, busy, left) && t.WellFormed()
    requires q in a.names && Taken(q, source, busy, left) && Created(s, t, Moved(q, source, target))
    ensures Copying(a, t, source, target, busy, left)
    ensures forall p :: s.Has(p) ==> t.Has(p) && t.At(p) == s.At(p)
  {
    forall p | s.Has(p) ensures t.Has(p) && t.At(p) == s.At(p) && t.names[p] == s.names[p] {
      assert s.names[p] in s.ever;
    }
  }

  lemma SeedOneMore(a: Fs, s: Fs, t: Fs, all: set<Path>, todo: set<Path>, q: Path, source: Path, target: Path, busy: seq<Path>,
                    left: Component -> bool)
    requires a.WellFormed() && s.WellFormed() && t.WellFormed() && Seeding(a, s, all, todo, source, target, busy, left) && q in todo
    requires Created(s, t, Moved(q, source, target)) && s.Has(q) && t.At(Moved(q, source, target)).bytes == s.At(q).bytes
    ensures Seeding(a, t, all, todo - {q}, source, target, busy, left)
  {
    CopyOneMore(a, s, t, q, source, target, busy, left);
    forall p | p in all && p !in todo ensures Copied(a, t, p, source, target) {
      assert Copied(a, s, p, source, target);
    }
    forall p | p in todo && p != q ensures Moved(p, source, target) !in t.names {
      if Moved(p, source, target) == Moved(q, source, target) {
        MovedApart(p, q, source, target);
      }
    }
  }

  /** One file cloned, and the index told of it. */
  method CopyFile(disk: Disk, q: Path, to: Path, clones: bool, index: HashIndex, ghost h: Hasher) returns (r: Io<()>)
    requires disk.Valid() && Trusted(h, index.entries, disk.fs) && to !in disk.fs.names
    modifies disk`fs, disk`states, index`entries
    ensures disk.Valid() && Trusted(h, index.entries, disk.fs) && Grown(old(disk.states), disk.states)
    ensures index.entries in Datings(old(index.entries), disk.states, |old(disk.states)| - 1)
    ensures disk.fs == old(disk.fs) || Created(old(disk.fs), disk.fs, to)
    ensures r.Done? ==> old(disk.fs).Has(q) && Created(old(disk.fs), disk.fs, to) && disk.fs.At(to).bytes == old(disk.fs).At(q).bytes
    ensures !disk.faulty && q in old(disk.fs).names ==> r.Done?
  {
    ghost var s, known, begin := disk.fs, index.entries, |disk.states| - 1;
    DatedAtStart(known, disk.states, begin);
    var from :- ReadStamp(disk, q);
    r := disk.CloneFile(q, to);
    DatedAtStart(known, disk.states, begin);
    if r.Done? && clones {
      assert s.names[q] in s.ever && disk.fs.Has(q) && disk.fs.At(q) == s.At(q);
      Register(disk, index, from, to, h, q);
      DatedSooner(known, index.entries, disk.states, |disk.states| - 1, begin);
    }
  }

  /** Copies every file that is taken, and nothing else. The source's build locks are held, and the target is not there yet. */
  method Seed(disk: Disk, source: Path, target: Path, busy: seq<Path>, left: Component -> bool, clones: bool, index: HashIndex,
              ghost h: Hasher)
    returns (r: Io<nat>)
    requires disk.Valid() && Trusted(h, index.entries, disk.fs)
    requires forall p :: p in disk.fs.names ==> !Under(p, target)
    modifies disk`fs, disk`states, index`entries
    ensures disk.Valid() && Copying(old(disk.fs), disk.fs, source, target, busy, left)
    ensures CopiedTree(old(disk.fs), disk.fs, source, target, busy, left)
    ensures r.Done? ==> WholeTree(old(disk.fs), disk.fs, source, target, busy, left)
    ensures Trusted(h, index.entries, disk.fs) && Grown(old(disk.states), disk.states)
    ensures index.entries in Datings(old(index.entries), disk.states, |old(disk.states)| - 1)
    ensures r.Done? ==> forall q :: q in old(disk.fs).names && Taken(q, source, busy, left) ==> Copied(old(disk.fs), disk.fs, q, source, target)
    ensures !disk.faulty ==> r.Done?
  {
    ghost var a, known, begin := disk.fs, index.entries, |disk.states| - 1;
    DatedAtStart(known, disk.states, begin);
    var todo := set p | p in disk.fs.names && Taken(p, source, busy, left);
    ghost var all := todo;
    var files := 0;
    forall q | q in todo ensures Moved(q, source, target) !in a.names {
      assert Under(Moved(q, source, target), target);
    }
    while todo != {}
      invariant disk.Valid() && Seeding(a, disk.fs, all, todo, source, target, busy, left)
      invariant Trusted(h, index.entries, disk.fs) && Grown(old(disk.states), disk.states)
      invariant index.entries in Datings(known, disk.states, begin)
      decreases todo
    {
      var q :| q in todo;
      ghost var s, states, m := disk.fs, disk.states, index.entries;
      var made := CopyFile(disk, q, Moved(q, source, target), clones, index, h);
      DatedThrough(known, m, index.entries, states, disk.states, begin, |states| - 1);
      if disk.fs != s {
        CopyOneMore(a, s, disk.fs, q, source, target, busy, left);
      }
      CopyingTree(a, disk.fs, source, target, busy, left);
      if made.Fail? {
        return Fail(made.error);
      }
      SeedOneMore(a, s, disk.fs, all, todo, q, source, target, busy, left);
      files := files + 1;
      todo := todo - {q};
    }
    CopyingTree(a, disk.fs, source, target, busy, left);
    return Done(files);
  }
}
