/** Compression of a batch: private copies, the backend, a second look, and the swap
    (`apply_compress`, `stage_copy`, `finish_compress` in `src/engine.rs`). */
module Staging {
  import opened Paths
  import opened Files
  import opened Model
  import opened Preserve
  import opened Swap
  import opened Apply

  /** A group whose copy is with the backend. */
  datatype Pending = Pending(member: Inode, copy: Path)

  datatype Outcome =
    | Compressed(member: Inode, after: Inode)
    | Refused(member: Inode, skip: Skip)

  /** `copy` is a temp of this run and the one name of a file made since `a`. */
  ghost predicate Private(a: Fs, s: Fs, copy: Path) {
    && s.Has(copy) && copy !in a.names && s.names[copy] !in a.ever
    && IsTemp(copy)
    && forall q :: q in s.names && s.names[q] == s.names[copy] ==> q == copy
  }

  /** The copy waits beside the group, and it has the bytes it was made with or a length that tells. */
  ghost predicate Waits(c: Rules, a: Fs, s: Fs, p: Pending, bytes: Bytes, hi: nat) {
    && Private(a, s, p.copy)
    && p.member.paths != []
    && Numbered(p.copy, c.pid, c.lo, hi) && p.copy == Sibling(p.member.paths[0], p.copy[|p.copy| - 1])
    && (s.At(p.copy).bytes == bytes || |s.At(p.copy).bytes| != |bytes|)
    && |bytes| == p.member.stamp.size
  }

  /** The state without a private copy, as if it had not been made yet. */
  function Erase(s: Fs, copy: Path): Fs
    requires s.Has(copy)
  {
    Fs(s.names - {copy}, s.nodes - {s.names[copy]}, s.ever - {s.names[copy]})
  }

  lemma EraseUndoesCreate(a: Fs, s: Fs, copy: Path)
    requires s.WellFormed() && Private(a, s, copy)
    ensures Erase(s, copy).WellFormed() && Created(Erase(s, copy), s, copy)
  {
    var e, id := Erase(s, copy), s.names[copy];
    assert s.NamesOf(id) == {copy};
    forall i | i in e.nodes ensures e.nodes[i].nlink == |e.NamesOf(i)| && e.nodes[i].nlink > 0 {
      assert e.NamesOf(i) == s.NamesOf(i);
    }
    assert s.names == e.names[copy := id];
    assert s.nodes == e.nodes[id := s.nodes[id].(nlink := 1)];
  }

  lemma EraseIsStep(c: Rules, a: Fs, s: Fs, copy: Path)
    requires s in Steps(c, a, {}) && Private(a, s, copy)
    ensures Erase(s, copy) in Steps(c, a, {})
  {
    EraseUndoesCreate(a, s, copy);
  }

  /** A name of a file one of the groups holds. */
  ghost predicate PathOf(moving: set<Inode>, p: Path, id: FileId) {
    exists m :: m in moving && p in m.paths && m.stamp.id == id
  }

  /** What a batch that moves these groups may have made of the names there were: each is where it was, or, a path of such a group,
      on a new file that is compressed. */
  ghost predicate Pressed(a: Fs, s: Fs, moving: set<Inode>) {
    forall p :: p in a.names ==>
      && s.Has(p)
      && (s.names[p] == a.names[p] || (s.names[p] !in a.ever && s.At(p).flags.compressed && PathOf(moving, p, a.names[p])))
  }

  ghost function Presses(a: Fs, moving: set<Inode>): iset<Fs> {
    iset s: Fs | Pressed(a, s, moving)
  }

  lemma PressedAtStart(a: Fs, moving: set<Inode>)
    requires a.WellFormed()
    ensures a in Presses(a, moving)
  {}

  lemma PressesGrow(a: Fs, s: Fs, moving: set<Inode>, more: set<Inode>)
    requires s in Presses(a, moving) && moving <= more
    ensures s in Presses(a, more)
  {
    forall p, id | PathOf(moving, p, id) ensures PathOf(more, p, id) {
      var m :| m in moving && p in m.paths && m.stamp.id == id;
    }
  }

  lemma PressCopying(a: Fs, s: Fs, t: Fs, copy: Path, moving: set<Inode>)
    requires s in Presses(a, moving) && s.WellFormed() && Copying(s, t, copy)
    ensures t in Presses(a, moving)
  {
    forall p | p in a.names ensures t.Has(p) && t.names[p] == s.names[p] && t.At(p).flags == s.At(p).flags {
      assert s.Has(p) && s.names[p] in s.ever;
    }
  }

  lemma PressRecopy(a: Fs, s: Fs, t: Fs, copy: Path, moving: set<Inode>)
    requires s in Presses(a, moving) && s.WellFormed() && Recopied(s, t, copy) && Private(a, s, copy)
    ensures t in Presses(a, moving)
  {
    RecopyTouchesOne(s, t, copy);
    forall p | p in a.names ensures t.Has(p) && t.names[p] == s.names[p] && t.At(p) == s.At(p) {
      assert s.Has(p) && p != copy && s.names[p] != s.names[copy];
    }
  }

  lemma PressUnlink(a: Fs, s: Fs, copy: Path, moving: set<Inode>)
    requires s in Presses(a, moving) && s.WellFormed() && s.Has(copy) && copy !in a.names
    ensures s.Unlink(copy) in Presses(a, moving)
  {
    var t := s.Unlink(copy);
    UnlinkWellFormed(s, copy);
    forall p | p in a.names ensures t.Has(p) && t.names[p] == s.names[p] && t.At(p).flags == s.At(p).flags {
      assert s.Has(p) && t.names[p] in t.nodes;
    }
  }

  /** Swapping a compressed copy in moves only paths of its group, and only onto the copy. */
  lemma PressSwap(a: Fs, s: Fs, t: Fs, p: Pending, g: Goal, pid: nat, lo: nat, moving: set<Inode>)
    requires s in Presses(a, moving) && s.WellFormed() && Private(a, s, p.copy) && a.ever <= Erase(s, p.copy).ever
    requires Mid(Erase(s, p.copy), t, g, pid, lo) && g.exact && g.compressed && g.paths == p.member.paths
    requires p.member in moving
    requires forall q :: q in p.member.paths ==> Stands(Erase(s, p.copy), q, p.member.stamp)
    ensures t in Presses(a, moving)
  {
    var e := Erase(s, p.copy);
    forall q | q in a.names
      ensures t.Has(q)
      ensures t.names[q] == a.names[q] || (t.names[q] !in a.ever && t.At(q).flags.compressed && PathOf(moving, q, a.names[q]))
    {
      assert s.Has(q) && q in e.names && e.names[q] == s.names[q] && e.names[q] in e.nodes;
      assert t.names[q] in t.nodes;
      if t.names[q] != e.names[q] {
        assert Stands(e, q, p.member.stamp);
      }
    }
  }

  /** `t` is `s`, but for a new file at `copy`, or for one that came and went. */
  ghost predicate Copying(s: Fs, t: Fs, copy: Path) {
    t.WellFormed() && (Created(s, t, copy) || (t.names == s.names && t.nodes == s.nodes && s.ever <= t.ever))
  }

  ghost predicate AllCopying(states: seq<Fs>, from: nat, s: Fs, copy: Path) {
    forall i :: from <= i < |states| ==> Copying(s, states[i], copy)
  }

  lemma CopyUndone(s: Fs, t: Fs, copy: Path)
    requires s.WellFormed() && Created(s, t, copy) && t.WellFormed()
    ensures Copying(s, t.Unlink(copy), copy)
  {
    UnlinkWellFormed(t, copy);
    assert t.Unlink(copy).names == s.names;
    assert t.names[copy] !in s.nodes;
    assert t.Unlink(copy).nodes == s.nodes;
  }

  lemma CopyingIsStep(c: Rules, a: Fs, s: Fs, t: Fs, copy: Path)
    requires s in Steps(c, a, {}) && Copying(s, t, copy)
    requires copy !in a.names && IsTemp(copy) && OwnTemp(copy, c.pid, c.lo) && LockedIn(copy, c.locked)
    ensures t in Steps(c, a, {})
  {
    if c.kept {
      forall p | a.Has(p) && !IsTemp(p) && !In(p, {}) ensures t.Has(p) && SameFile(a.At(p), t.At(p), c.exact) {
        assert s.Has(p) && s.names[p] in s.ever;
      }
    }
  }

  lemma CopyingHistory(c: Rules, a: Fs, s: Fs, states: seq<Fs>, from: nat, copy: Path)
    requires s in Steps(c, a, {}) && AllCopying(states, from, s, copy)
    requires copy !in a.names && IsTemp(copy) && OwnTemp(copy, c.pid, c.lo) && LockedIn(copy, c.locked)
    ensures states in Histories(from, c, a, {})
  {
    forall i | from <= i < |states| ensures Step(c, a, states[i], {}) {
      CopyingIsStep(c, a, s, states[i], copy);
    }
  }

  lemma RecopyTouchesOne(s: Fs, t: Fs, copy: Path)
    requires s.WellFormed() && Recopied(s, t, copy)
    ensures t.names == s.names[copy := t.names[copy]] && s.ever <= t.ever
    ensures forall id :: id in t.nodes && id != t.names[copy] ==>
              id in s.nodes && (id != s.names[copy] ==> t.nodes[id] == s.nodes[id])
    ensures forall p :: p in s.names && s.names[p] != s.names[copy] ==> t.Has(p) && t.At(p) == s.At(p)
  {
    assert s.names[copy] in s.nodes;
    forall p | p in s.names && s.names[p] != s.names[copy] ensures t.Has(p) && t.At(p) == s.At(p) {
      assert s.names[p] in s.ever && s.names[p] in s.Unlink(copy).nodes;
    }
  }

  lemma RecopyIsStable(a: Fs, s: Fs, t: Fs, copy: Path, exact: bool)
    requires s.WellFormed() && Stable(a, s, exact) && Recopied(s, t, copy) && Private(a, s, copy)
    ensures Stable(a, t, exact)
  {
    RecopyTouchesOne(s, t, copy);
    forall id | id in t.nodes && id in a.ever
      ensures id in a.nodes && SameFile(a.nodes[id], t.nodes[id], exact) && t.nodes[id].flags == a.nodes[id].flags
    {
      assert id in s.nodes;
    }
  }

  lemma RecopyIsStep(c: Rules, a: Fs, s: Fs, t: Fs, copy: Path)
    requires s in Steps(c, a, {}) && Recopied(s, t, copy) && t.WellFormed() && Private(a, s, copy)
    ensures t in Steps(c, a, {})
  {
    RecopyIsStable(a, s, t, copy, c.exact);
    RecopyTouchesOne(s, t, copy);
    assert Confined(a, t, c.locked, {}) && NewAreTemps(a, t, c.locked, c.pid, c.lo);
    if c.kept {
      forall p | a.Has(p) && !IsTemp(p) && !In(p, {}) ensures t.Has(p) && SameFile(a.At(p), t.At(p), c.exact) {
        assert s.Has(p) && s.names[p] != s.names[copy];
      }
    }
  }

  lemma RecopyStaysPrivate(a: Fs, s: Fs, t: Fs, copy: Path)
    requires s.WellFormed() && a.ever <= s.ever && Recopied(s, t, copy) && Private(a, s, copy)
    ensures Private(a, t, copy)
  {
    RecopyTouchesOne(s, t, copy);
  }

  /** What was there stays as it is, and what is new is new altogether. */
  ghost predicate Untouched(s: Fs, t: Fs) {
    && (forall p :: s.Has(p) ==> t.Has(p) && t.names[p] == s.names[p] && t.At(p).bytes == s.At(p).bytes)
    && (forall p :: p in t.names && p !in s.names ==> t.names[p] !in s.ever)
  }

  lemma CopyingUntouched(s: Fs, t: Fs, copy: Path)
    requires s.WellFormed() && Copying(s, t, copy)
    ensures Untouched(s, t)
  {
    forall p | s.Has(p) ensures t.Has(p) && t.names[p] == s.names[p] && t.At(p) == s.At(p) {
      assert s.names[p] in s.ever;
    }
  }

  /** Every other private copy is as it was. */
  ghost predicate SparesOthers(a: Fs, s: Fs, t: Fs, copy: Path) {
    forall q :: q != copy && Private(a, s, q) ==> Private(a, t, q) && t.names[q] == s.names[q] && t.At(q).bytes == s.At(q).bytes
  }

  lemma UntouchedSpares(a: Fs, s: Fs, t: Fs, copy: Path)
    requires s.WellFormed() && Untouched(s, t)
    ensures SparesOthers(a, s, t, copy)
  {
    forall q | q != copy && Private(a, s, q) ensures Private(a, t, q) {
      assert s.names[q] in s.ever;
      forall p | p in t.names && t.names[p] == t.names[q] ensures p == q {
        assert p in s.names ==> s.Has(p);
      }
    }
  }

  lemma RecopySpares(a: Fs, s: Fs, t: Fs, copy: Path)
    requires s.WellFormed() && Recopied(s, t, copy) && Private(a, s, copy)
    ensures SparesOthers(a, s, t, copy)
  {
    RecopyTouchesOne(s, t, copy);
    forall q | q != copy && Private(a, s, q)
      ensures Private(a, t, q) && t.names[q] == s.names[q] && t.At(q).bytes == s.At(q).bytes
    {
      assert s.names[q] != s.names[copy] && s.names[q] in s.ever;
    }
  }

  lemma SwapSpares(a: Fs, s: Fs, t: Fs, copy: Path, g: Goal, pid: nat, lo: nat)
    requires s.WellFormed() && Private(a, s, copy)
    requires Mid(Erase(s, copy), t, g, pid, lo) && g.exact
    requires forall p :: p in g.paths ==> !IsTemp(p)
    ensures SparesOthers(a, s, t, copy)
  {
    var e := Erase(s, copy);
    EraseUndoesCreate(a, s, copy);
    forall q | q != copy && Private(a, s, q)
      ensures Private(a, t, q) && t.names[q] == s.names[q] && t.At(q).bytes == s.At(q).bytes
    {
      assert q in e.names && e.names[q] == s.names[q] && q !in g.paths;
      assert e.names[q] in e.ever && t.names[q] in t.nodes;
    }
  }

  lemma GroupStands(fs: Fs, member: Inode, locked: seq<Path>)
    requires GroupSkip(fs, member, locked).None?
    ensures member.paths != [] && member.paths[0] in member.paths
    ensures forall p :: p in member.paths ==> LockedIn(p, locked) && Stands(fs, p, member.stamp) && p in fs.names
    ensures fs.names[member.paths[0]] == member.stamp.id && |fs.At(member.paths[0]).bytes| == member.stamp.size
  {
    assert member.paths[0] in member.paths;
    assert Stands(fs, member.paths[0], member.stamp);
  }

  lemma NewTempIsFree(c: Rules, a: Fs, s: Fs, q: Path, n: nat)
    requires Workable(s, c.locked, c.pid, n) && Workable(a, c.locked, c.pid, c.lo) && c.lo <= n
    requires s in Steps(c, a, {}) && q in s.names && !IsTemp(q) && LockedIn(q, c.locked)
    ensures TempOf(q, c.pid, n) !in s.names && TempOf(q, c.pid, n) !in a.names
    ensures IsTemp(TempOf(q, c.pid, n)) && OwnTemp(TempOf(q, c.pid, n), c.pid, c.lo) && LockedIn(TempOf(q, c.pid, n), c.locked)
  {
    TempIsBeside(q, c.locked, c.pid, n, s);
  }

  lemma CreatedWorkable(s: Fs, t: Fs, q: Path, locked: seq<Path>, pid: nat, n: nat)
    requires Workable(s, locked, pid, n) && t.names.Keys <= s.names.Keys + {TempOf(q, pid, n)}
    ensures Workable(t, locked, pid, n + 1)
  {}

  /** `clone_as`, and the copy removed again when it fails. */
  method MakeCopy(disk: Disk, source: Path, copy: Path, member: Inode) returns (r: Io<()>)
    requires disk.Valid() && copy !in disk.fs.names
    modifies disk`fs, disk`states
    ensures disk.Valid() && Grown(old(disk.states), disk.states)
    ensures AllCopying(disk.states, |old(disk.states)|, old(disk.fs), copy) && Copying(old(disk.fs), disk.fs, copy)
    ensures r.Done? ==> Created(old(disk.fs), disk.fs, copy) && old(disk.fs).Has(source)
    ensures r.Done? ==> disk.fs.At(copy).bytes == old(disk.fs).At(source).bytes
    ensures !disk.faulty && source in old(disk.fs).names ==> r.Done?
  {
    ghost var s := disk.fs;
    r := CloneAs(disk, source, copy, member);
    if r.Fail? {
      if disk.fs != s {
        CopyUndone(s, disk.fs, copy);
      }
      var _ := disk.RemoveFile(copy);
    }
  }

  /** The copy of `stage_copy`, the group checked. */
  method CopyGroup(disk: Disk, member: Inode, locked: seq<Path>, ghost c: Rules, ghost a: Fs)
    returns (r: Io<()>, copy: Path)
    requires disk.Valid() && Workable(disk.fs, locked, disk.pid, disk.serial) && Workable(a, locked, disk.pid, c.lo)
    requires c.locked == locked && c.pid == disk.pid && c.lo <= disk.serial && disk.fs in Steps(c, a, {})
    requires GroupSkip(disk.fs, member, locked).None? && !IsTemp(member.paths[0]) && disk.fs in Presses(a, {})
    modifies disk`fs, disk`states, disk`serial
    ensures disk.Valid() && Grown(old(disk.states), disk.states) && disk.serial >= old(disk.serial)
    ensures disk.fs in Steps(c, a, {}) && disk.states in Histories(|old(disk.states)|, c, a, {})
    ensures Workable(disk.fs, locked, disk.pid, disk.serial)
    ensures Untouched(old(disk.fs), disk.fs) && disk.fs in Presses(a, {})
    ensures r.Done? ==> IsCopy(c, a, old(disk.fs), disk.fs, member, copy, disk.serial)
    ensures !disk.faulty ==> r.Done?
  {
    ghost var s, from, serial := disk.fs, |disk.states|, disk.serial;
    CopyHasRoom(c, a, s, member, serial);
    copy := disk.SiblingTemp(member.paths[0]);
    assert disk.Valid() && copy !in disk.fs.names;
    r := MakeCopy(disk, member.paths[0], copy, member);
    CopyMade(c, a, s, disk.fs, member, serial, disk.states, from, r.Done?);
    PressCopying(a, s, disk.fs, copy, {});
  }

  lemma CopyHasRoom(c: Rules, a: Fs, s: Fs, member: Inode, n: nat)
    requires Workable(s, c.locked, c.pid, n) && Workable(a, c.locked, c.pid, c.lo) && c.lo <= n && s in Steps(c, a, {})
    requires GroupSkip(s, member, c.locked).None? && !IsTemp(member.paths[0])
    ensures member.paths[0] in s.names && TempOf(member.paths[0], c.pid, n) !in s.names
  {
    GroupStands(s, member, c.locked);
    NewTempIsFree(c, a, s, member.paths[0], n);
  }

  lemma CopyMade(c: Rules, a: Fs, s: Fs, t: Fs, member: Inode, n: nat, states: seq<Fs>, from: nat, done: bool)
    requires Workable(s, c.locked, c.pid, n) && Workable(a, c.locked, c.pid, c.lo) && c.lo <= n && s in Steps(c, a, {})
    requires GroupSkip(s, member, c.locked).None? && !IsTemp(member.paths[0])
    requires AllCopying(states, from, s, TempOf(member.paths[0], c.pid, n)) && Copying(s, t, TempOf(member.paths[0], c.pid, n))
    requires done ==> s.Has(member.paths[0]) && Created(s, t, TempOf(member.paths[0], c.pid, n))
    requires done ==> t.At(TempOf(member.paths[0], c.pid, n)).bytes == s.At(member.paths[0]).bytes
    ensures t in Steps(c, a, {}) && states in Histories(from, c, a, {})
    ensures Workable(t, c.locked, c.pid, n + 1) && Untouched(s, t)
    ensures done ==> IsCopy(c, a, s, t, member, TempOf(member.paths[0], c.pid, n), n + 1)
  {
    var copy := TempOf(member.paths[0], c.pid, n);
    GroupStands(s, member, c.locked);
    NewTempIsFree(c, a, s, member.paths[0], n);
    CopyingHistory(c, a, s, states, from, copy);
    CopyingIsStep(c, a, s, t, copy);
    CopyingUntouched(s, t, copy);
    CreatedWorkable(s, t, member.paths[0], c.locked, c.pid, n);
    if done {
      StagedWaits(c, a, s, t, member, n);
    }
  }

  /** `t` is `s` and a copy of the group at `copy`, ready to be compressed. */
  ghost predicate IsCopy(c: Rules, a: Fs, s: Fs, t: Fs, member: Inode, copy: Path, hi: nat) {
    && member.paths != [] && s.Has(member.paths[0]) && copy !in s.names
    && Waits(c, a, t, Pending(member, copy), s.At(member.paths[0]).bytes, hi)
    && t.At(copy).bytes == s.At(member.paths[0]).bytes
  }

  /** A private copy of the group's content beside its first path. */
  method StageCopy(disk: Disk, member: Inode, locked: seq<Path>, ghost c: Rules, ghost a: Fs)
    returns (r: Io<Option<Skip>>, copy: Path)
    requires disk.Valid() && Workable(disk.fs, locked, disk.pid, disk.serial) && Workable(a, locked, disk.pid, c.lo)
    requires c.locked == locked && c.pid == disk.pid && c.lo <= disk.serial && disk.fs in Steps(c, a, {})
    requires forall p :: p in member.paths ==> !IsTemp(p)
    requires disk.fs in Presses(a, {})
    modifies disk`fs, disk`states, disk`serial
    ensures disk.Valid() && Grown(old(disk.states), disk.states) && disk.serial >= old(disk.serial)
    ensures disk.fs in Steps(c, a, {}) && disk.states in Histories(|old(disk.states)|, c, a, {})
    ensures Workable(disk.fs, locked, disk.pid, disk.serial)
    ensures Untouched(old(disk.fs), disk.fs) && disk.fs in Presses(a, {})
    ensures r.Done? ==> r.value == GroupSkip(old(disk.fs), member, locked)
    ensures r == Done(None) ==> IsCopy(c, a, old(disk.fs), disk.fs, member, copy, disk.serial)
    ensures FilesAt(old(disk.fs), member.paths) && !disk.faulty ==> r.Done?
  {
    copy := [];
    r := CheckGroup(disk, member, locked);
    if r.Fail? || r.value.Some? {
      return;
    }
    assert member.paths[0] in member.paths;
    var made;
    made, copy := CopyGroup(disk, member, locked, c, a);
    if made.Fail? {
      r := Fail(made.error);
    }
  }

  lemma StagedWaits(c: Rules, a: Fs, s: Fs, t: Fs, member: Inode, n: nat)
    requires s in Steps(c, a, {}) && member.paths != [] && s.Has(member.paths[0]) && c.lo <= n
    requires Created(s, t, TempOf(member.paths[0], c.pid, n)) && TempOf(member.paths[0], c.pid, n) !in a.names
    requires IsTemp(TempOf(member.paths[0], c.pid, n))
    requires t.At(TempOf(member.paths[0], c.pid, n)).bytes == s.At(member.paths[0]).bytes
    requires |s.At(member.paths[0]).bytes| == member.stamp.size
    ensures Waits(c, a, t, Pending(member, TempOf(member.paths[0], c.pid, n)), s.At(member.paths[0]).bytes, n + 1)
  {
    forall q | q in s.names ensures s.names[q] in s.ever {
      assert s.names[q] in s.nodes;
    }
  }

  /** What the second look at a copy and its group says, when they can be looked at. */
  function FinishSkip(fs: Fs, member: Inode, copy: Path, locked: seq<Path>): Option<Skip>
    requires fs.Has(copy)
  {
    if !fs.At(copy).flags.compressed || |fs.At(copy).bytes| != member.stamp.size then Some(NotCompressed)
    else GroupSkip(fs, member, locked)
  }

  /** Swaps a compressed copy in, seen as a swap from the state without the copy: `try_finish_compress`. */
  method TryFinish(disk: Disk, member: Inode, copy: Path, locked: seq<Path>, ghost c: Rules, ghost a: Fs, ghost bytes: Bytes)
    returns (r: Io<Option<Skip>>, ghost g: Goal)
    requires disk.Valid() && Workable(disk.fs, locked, disk.pid, disk.serial)
    requires c.locked == locked && c.pid == disk.pid && c.lo <= disk.serial
    requires Waits(c, a, disk.fs, Pending(member, copy), bytes, disk.serial)
    requires forall p :: p in member.paths ==> !IsTemp(p)
    modifies disk`fs, disk`states, disk`serial
    ensures disk.Valid() && Grown(old(disk.states), disk.states) && disk.serial >= old(disk.serial)
    ensures g == Goal(member.paths, g.target, old(disk.fs).At(copy).bytes, member.stamp.mtime, member.mode, true,
                      old(disk.fs).At(copy).flags.compressed)
    ensures r.Done? ==> r.value == FinishSkip(old(disk.fs), member, copy, locked)
    ensures FinishSkip(old(disk.fs), member, copy, locked).Some? ==> disk.fs == old(disk.fs) && disk.states == old(disk.states)
    ensures FinishSkip(old(disk.fs), member, copy, locked).None? ==>
              && disk.states in Trails(|old(disk.states)|, Erase(old(disk.fs), copy), g, disk.pid, c.lo)
              && disk.fs in Ways(Erase(old(disk.fs), copy), g, disk.pid, c.lo, disk.serial)
    ensures r == Done(None) ==> disk.fs.Has(member.paths[0]) && disk.fs.names[member.paths[0]] == g.target
    ensures r == Done(None) ==> Holds(disk.fs.At(member.paths[0]), g) && g.target !in Erase(old(disk.fs), copy).ever
    ensures r == Done(None) ==> SwappedFrom(Erase(old(disk.fs), copy), disk.fs, g, disk.pid, old(disk.serial))
    ensures FilesAt(old(disk.fs), member.paths) && !disk.faulty ==> r.Done?
  {
    ghost var s := disk.fs;
    ghost var e := Erase(s, copy);
    EraseUndoesCreate(a, s, copy);
    g := Goal(member.paths, FileId(0, 0), s.At(copy).bytes, member.stamp.mtime, member.mode, true, s.At(copy).flags.compressed);
    var meta := disk.Stat(copy);
    if meta.Fail? {
      CopyIsOnTheWay(c, a, s, Pending(member, copy), bytes, g, disk.serial, disk.states);
      return Fail(meta.error), g;
    }
    if !meta.value.node.flags.compressed || |meta.value.node.bytes| != member.stamp.size {
      return Done(Some(NotCompressed)), g;
    }
    var group := CheckGroup(disk, member, locked);
    if group.Fail? || group.value.Some? {
      CopyIsOnTheWay(c, a, s, Pending(member, copy), bytes, g, disk.serial, disk.states);
      return group, g;
    }
    GroupStandsErased(a, s, member, copy, locked, disk.pid, disk.serial);
    var swapped, moved;
    swapped, moved, g := SwapIn(disk, copy, member, Restore, e, c.lo, copy[|copy| - 1].serial);
    r := if swapped.Done? then Done(None) else Fail(swapped.error);
  }

  /** The names after a swap that was carried through. */
  ghost predicate SwappedFrom(e: Fs, t: Fs, g: Goal, pid: nat, n: nat) {
    g.paths != [] && t.names == Joins(Moved(e.names, g.paths, 1, g.target), g.paths, |g.paths|, g.target, pid, n)
  }

  /** All paths of the group share the new inode, and no temp stays. */
  lemma WholeSwap(e: Fs, t: Fs, g: Goal, pid: nat, n: nat)
    requires SwappedFrom(e, t, g, pid, n) && NoRepeat(g.paths)
    requires forall p :: p in g.paths ==> p in e.names && e.names[p] != g.target
    ensures OnTarget(e, t, g.paths, g.target)
  {
    var paths := g.paths;
    JoinsLeaveNoTemp(e.names, paths, |paths|, g.target, pid, n);
    assert paths[..|paths|] == paths;
    forall p ensures p in t.names <==> p in e.names
             ensures p in e.names && p in paths ==> t.names[p] == g.target
             ensures p in e.names && p !in paths ==> t.names[p] == e.names[p] {
      MovedAt(e.names, paths, |paths|, g.target, p);
    }
  }

  lemma CopyIsOnTheWay(c: Rules, a: Fs, s: Fs, p: Pending, bytes: Bytes, g: Goal, hi: nat, states: seq<Fs>)
    requires s.WellFormed() && Waits(c, a, s, p, bytes, hi) && g.paths == p.member.paths && g.exact
    ensures s in Ways(Erase(s, p.copy), g, c.pid, c.lo, hi)
    ensures states in Trails(|states|, Erase(s, p.copy), g, c.pid, c.lo)
  {
    EraseUndoesCreate(a, s, p.copy);
    var n := p.copy[|p.copy| - 1].serial;
    assert p.copy == TempOf(g.paths[0], c.pid, n);
    StagedIsMid(Erase(s, p.copy), s, g, c.pid, c.lo, g.paths[0], n);
    StagedTempsBelow(Erase(s, p.copy), s, g, g.paths[0], c.pid, n, hi);
  }

  /** The group reads the same without the copy. */
  lemma GroupStandsErased(a: Fs, s: Fs, member: Inode, copy: Path, locked: seq<Path>, pid: nat, serial: nat)
    requires s.WellFormed() && Private(a, s, copy) && GroupSkip(s, member, locked).None?
    requires Workable(s, locked, pid, serial)
    requires forall p :: p in member.paths ==> !IsTemp(p)
    ensures member.paths != [] && member.paths[0] in Erase(s, copy).names
    ensures forall p :: p in member.paths ==>
              p in Erase(s, copy).names && LockedIn(p, locked) && Stands(Erase(s, copy), p, member.stamp)
    ensures Unused(Erase(s, copy), member.paths, pid, serial)
    ensures forall i :: 0 <= i < |locked| ==> locked[i] !in Erase(s, copy).names
  {
    GroupStands(s, member, locked);
    WorkableIsUnused(s, locked, pid, serial, member.paths);
    forall p | p in member.paths ensures Stands(Erase(s, copy), p, member.stamp) {
      assert Stands(s, p, member.stamp) && p != copy;
    }
  }

  /** The pass planned the group from the scanned state `seen`, and `bytes` is what it read as there. */
  ghost predicate Witnessed(seen: Fs, a: Fs, member: Inode, bytes: Bytes) {
    && seen.WellFormed() && Stable(seen, a, false)
    && Describes(seen, member) && seen.nodes[member.stamp.id].bytes == bytes
  }

  lemma WitnessedReads(c: Rules, a: Fs, s: Fs, seen: Fs, p: Pending, bytes: Bytes, hi: nat, g: Goal)
    requires s in Steps(c, a, {}) && Waits(c, a, s, p, bytes, hi) && Witnessed(seen, a, p.member, bytes)
    requires FinishSkip(s, p.member, p.copy, c.locked).None?
    requires forall q :: q in p.member.paths ==> Stands(Erase(s, p.copy), q, p.member.stamp)
    requires g == Goal(p.member.paths, g.target, s.At(p.copy).bytes, p.member.stamp.mtime, p.member.mode, true,
                       s.At(p.copy).flags.compressed)
    ensures ReadsAs(Erase(s, p.copy), g.paths, g)
  {
    var e := Erase(s, p.copy);
    StableTransitive(seen, a, s, false);
    forall q | q in g.paths
      ensures e.Has(q) && e.At(q).bytes == g.bytes && e.At(q).mode == g.mode && e.At(q).mtime == g.mtime
    {
      assert Stands(e, q, p.member.stamp);
      assert e.names[q] in s.nodes && e.names[q] in seen.ever;
    }
  }

  /** Swapping the copy in keeps the rules of the batch, in every state on the way. */
  lemma FinishIsStep(c: Rules, a: Fs, s: Fs, t: Fs, seen: Fs, p: Pending, bytes: Bytes, now: nat, hi: nat, g: Goal,
                     states: seq<Fs>, from: nat, moving: set<Inode>, done: bool)
    requires s in Presses(a, moving) && p.member in moving
    requires s in Steps(c, a, {}) && Waits(c, a, s, p, bytes, now) && Workable(s, c.locked, c.pid, now) && now <= hi
    requires FinishSkip(s, p.member, p.copy, c.locked).None?
    requires forall q :: q in p.member.paths ==> !IsTemp(q)
    requires c.kept ==> Witnessed(seen, a, p.member, bytes)
    requires g == Goal(p.member.paths, g.target, s.At(p.copy).bytes, p.member.stamp.mtime, p.member.mode, true,
                       s.At(p.copy).flags.compressed)
    requires t in Ways(Erase(s, p.copy), g, c.pid, c.lo, hi)
    requires states in Trails(from, Erase(s, p.copy), g, c.pid, c.lo)
    requires done ==> SwappedFrom(Erase(s, p.copy), t, g, c.pid, now) && g.target !in Erase(s, p.copy).ever
    ensures t in Steps(c, a, {}) && states in Histories(from, c, a, {})
    ensures Workable(t, c.locked, c.pid, hi)
    ensures SparesOthers(a, s, t, p.copy) && Stable(Erase(s, p.copy), t, true)
    ensures a.ever <= Erase(s, p.copy).ever && t in Presses(a, moving)
    ensures done && NoRepeat(p.member.paths) ==> OnTarget(Erase(s, p.copy), t, p.member.paths, g.target)
  {
    var e := Erase(s, p.copy);
    EraseUndoesCreate(a, s, p.copy);
    EraseIsStep(c, a, s, p.copy);
    GroupStandsErased(a, s, p.member, p.copy, c.locked, c.pid, now);
    if c.kept {
      WitnessedReads(c, a, s, seen, p, bytes, now, g);
    }
    SwapStep(c, e, t, g);
    StepThenStep(c, a, e, t, {}, {});
    SwapHistory(c, e, states, from, g);
    HistoryFromStart(states, from, c, c, a, e, {}, {});
    SwapIsConfined(e, c.locked, c.pid, c.lo, t, g);
    StaysWorkable(e, t, c.locked, c.pid, c.lo, now, hi);
    SwapSpares(a, s, t, p.copy, g, c.pid, c.lo);
    PressSwap(a, s, t, p, g, c.pid, c.lo, moving);
    if done && NoRepeat(p.member.paths) {
      SwappedOff(e, t, p.member, g, c.pid, now);
    }
  }

  lemma UnlinkIsStep(c: Rules, a: Fs, s: Fs, copy: Path)
    requires s in Steps(c, a, {}) && s.Has(copy) && copy !in a.names && IsTemp(copy)
    ensures s.Unlink(copy) in Steps(c, a, {})
  {
    UnlinkWellFormed(s, copy);
    UnlinkIsStable(a, s, c.exact, copy);
    var t := s.Unlink(copy);
    if c.kept {
      forall p | a.Has(p) && !IsTemp(p) && !In(p, {}) ensures t.Has(p) && SameFile(a.At(p), t.At(p), c.exact) {
        assert s.Has(p) && t.names[p] == s.names[p] && t.names[p] in t.nodes;
      }
    }
  }

  lemma UnlinkSpares(a: Fs, s: Fs, copy: Path)
    requires s.WellFormed() && s.Has(copy)
    ensures SparesOthers(a, s, s.Unlink(copy), copy)
  {}

  lemma SparesTransitive(a: Fs, s: Fs, t: Fs, u: Fs, copy: Path)
    requires SparesOthers(a, s, t, copy) && SparesOthers(a, t, u, copy)
    ensures SparesOthers(a, s, u, copy)
  {}

  /** The record a pass is told of is of the inode now at the group's first path, new since `a`. */
  ghost predicate Placed(a: Fs, t: Fs, member: Inode, after: Inode, bytes: Bytes) {
    && after.stamp.id in t.nodes && after.stamp.id !in a.ever
    && after.stamp == StampOf(after.stamp.id, t.nodes[after.stamp.id])
    && t.nodes[after.stamp.id].bytes == bytes
    && t.nodes[after.stamp.id].mtime == member.stamp.mtime && t.nodes[after.stamp.id].mode == member.mode
  }

  /** What the end of one group may have made of `s`: the other copies are spared, no file there was has changed, and if the group was
      compressed it is on the new inode, with all its paths. */
  ghost predicate EndedAs(a: Fs, s: Fs, t: Fs, member: Inode, copy: Path, bytes: Bytes, out: Outcome) {
    && s.Has(copy) && out.member == member
    && SparesOthers(a, s, t, copy) && Stable(Erase(s, copy), t, true)
    && (out.Compressed? ==> Placed(a, t, member, out.after, bytes) && out.after.stamp.id !in Erase(s, copy).ever)
    && (out.Compressed? && NoRepeat(member.paths) ==> OnTarget(Erase(s, copy), t, member.paths, out.after.stamp.id))
  }

  ghost function Ends(a: Fs, s: Fs, member: Inode, copy: Path, bytes: Bytes, out: Outcome): iset<Fs> {
    iset t: Fs | EndedAs(a, s, t, member, copy, bytes, out)
  }

  ghost function RecordAt(t: Fs, p: Path): Inode
    requires t.Has(p)
  {
    InodeOf(Metadata(t.names[p], t.At(p)), [p])
  }

  /** `try_finish_compress` with what it keeps. */
  method SwapCopy(disk: Disk, member: Inode, copy: Path, locked: seq<Path>, ghost c: Rules, ghost a: Fs, ghost seen: Fs,
                  ghost bytes: Bytes, ghost moving: set<Inode>)
    returns (r: Io<Option<Skip>>)
    requires disk.fs in Presses(a, moving) && member in moving
    requires disk.Valid() && Workable(disk.fs, locked, disk.pid, disk.serial)
    requires c.locked == locked && c.pid == disk.pid && c.lo <= disk.serial && disk.fs in Steps(c, a, {})
    requires Waits(c, a, disk.fs, Pending(member, copy), bytes, disk.serial)
    requires forall p :: p in member.paths ==> !IsTemp(p)
    requires c.kept ==> Witnessed(seen, a, member, bytes)
    modifies disk`fs, disk`states, disk`serial
    ensures disk.Valid() && Grown(old(disk.states), disk.states) && disk.serial >= old(disk.serial)
    ensures disk.fs in Steps(c, a, {}) && disk.states in Histories(|old(disk.states)|, c, a, {})
    ensures Workable(disk.fs, locked, disk.pid, disk.serial)
    ensures SparesOthers(a, old(disk.fs), disk.fs, copy) && Stable(Erase(old(disk.fs), copy), disk.fs, true)
    ensures r.Done? ==> r.value == FinishSkip(old(disk.fs), member, copy, locked)
    ensures r == Done(None) ==> member.paths != [] && disk.fs.Has(member.paths[0])
    ensures r == Done(None) ==> Placed(a, disk.fs, member, RecordAt(disk.fs, member.paths[0]), bytes)
    ensures r == Done(None) ==> disk.fs.names[member.paths[0]] !in Erase(old(disk.fs), copy).ever
    ensures r == Done(None) && NoRepeat(member.paths) ==>
              OnTarget(Erase(old(disk.fs), copy), disk.fs, member.paths, disk.fs.names[member.paths[0]])
    ensures disk.fs in Presses(a, moving)
    ensures FinishSkip(old(disk.fs), member, copy, locked).Some? ==> disk.fs == old(disk.fs)
    ensures FilesAt(old(disk.fs), member.paths) && !disk.faulty ==> r.Done?
  {
    ghost var s, from, now := disk.fs, |disk.states|, disk.serial;
    ghost var p := Pending(member, copy);
    ghost var g;
    r, g := TryFinish(disk, member, copy, locked, c, a, bytes);
    if FinishSkip(s, member, copy, locked).None? {
      FinishIsStep(c, a, s, disk.fs, seen, p, bytes, now, disk.serial, g, disk.states, from, moving, r == Done(None));
    } else {
      NothingSwapped(c, a, s, copy, disk.states);
    }
  }

  lemma SwappedOff(e: Fs, t: Fs, member: Inode, g: Goal, pid: nat, n: nat)
    requires e.WellFormed() && SwappedFrom(e, t, g, pid, n) && g.paths == member.paths && NoRepeat(member.paths) && g.target !in e.ever
    requires forall p :: p in member.paths ==> p in e.names
    ensures OnTarget(e, t, member.paths, g.target)
  {
    forall p | p in g.paths ensures e.names[p] != g.target {
      assert e.names[p] in e.nodes;
    }
    WholeSwap(e, t, g, pid, n);
  }

  lemma NothingSwapped(c: Rules, a: Fs, s: Fs, copy: Path, states: seq<Fs>)
    ensures SparesOthers(a, s, s, copy)
    ensures s.WellFormed() && Private(a, s, copy) ==> Stable(Erase(s, copy), s, true)
    ensures states in Histories(|states|, c, a, {})
  {}

  /** `let _ = fs::remove_file(copy)`. */
  method DiscardCopy(disk: Disk, copy: Path, ghost c: Rules, ghost a: Fs, ghost e: Fs, ghost moving: set<Inode>)
    requires disk.fs in Presses(a, moving)
    requires disk.Valid() && Stable(e, disk.fs, true) && disk.fs in Steps(c, a, {}) && copy !in a.names && IsTemp(copy)
    modifies disk`fs, disk`states
    ensures disk.Valid() && Grown(old(disk.states), disk.states)
    ensures disk.fs in Steps(c, a, {}) && disk.states in Histories(|old(disk.states)|, c, a, {})
    ensures SparesOthers(a, old(disk.fs), disk.fs, copy) && disk.fs.names.Keys <= old(disk.fs).names.Keys
    ensures Stable(e, disk.fs, true) && disk.fs in Presses(a, moving) && (!disk.faulty ==> copy !in disk.fs.names)
  {
    ghost var s, states := disk.fs, disk.states;
    NothingSwapped(c, a, s, copy, states);
    if copy in s.names {
      UnlinkIsStep(c, a, s, copy);
      UnlinkSpares(a, s, copy);
      UnlinkIsStable(e, s, true, copy);
      PressUnlink(a, s, copy, moving);
    }
    var gone := disk.RemoveFile(copy);
    if gone.Done? {
      HistoryOneMore(states, |states|, disk.fs, c, a, {});
    }
  }

  /** Swaps a compressed copy in, or removes the copy: `finish_compress`. A group that is refused is where it was, and on a disk
      without errors of its own its copy is gone. */
  method FinishCompress(disk: Disk, member: Inode, copy: Path, locked: seq<Path>, ghost c: Rules, ghost a: Fs, ghost seen: Fs,
                        ghost bytes: Bytes, ghost moving: set<Inode>)
    returns (out: Outcome)
    requires disk.fs in Presses(a, moving)
    requires disk.Valid() && Workable(disk.fs, locked, disk.pid, disk.serial)
    requires c.locked == locked && c.pid == disk.pid && c.lo <= disk.serial && disk.fs in Steps(c, a, {})
    requires Waits(c, a, disk.fs, Pending(member, copy), bytes, disk.serial)
    requires forall p :: p in member.paths ==> !IsTemp(p)
    requires c.kept ==> Witnessed(seen, a, member, bytes)
    modifies disk`fs, disk`states, disk`serial
    ensures disk.Valid() && Grown(old(disk.states), disk.states) && disk.serial >= old(disk.serial)
    ensures disk.fs in Steps(c, a, {}) && disk.states in Histories(|old(disk.states)|, c, a, {})
    ensures Workable(disk.fs, locked, disk.pid, disk.serial)
    ensures disk.fs in Ends(a, old(disk.fs), member, copy, bytes, out)
    ensures out.Refused? && !disk.faulty ==> copy !in disk.fs.names
    ensures out.Compressed? ==> FinishSkip(old(disk.fs), member, copy, locked).None? && Live(disk.fs, out.after.stamp)
    ensures old(disk.fs) in Grounds(locked, out)
    ensures disk.fs in Presses(a, if out.Compressed? || disk.faulty then moving + {member} else moving)
  {
    ghost var s, from := disk.fs, |disk.states|;
    PressesGrow(a, s, moving, moving + {member});
    if FinishSkip(s, member, copy, locked).None? {
      GroupStands(s, member, locked);
    }
    var r := SwapCopy(disk, member, copy, locked, c, a, seen, bytes, moving + {member});
    if r == Done(None) {
      var meta := disk.Stat(member.paths[0]);
      if meta.Done? {
        out := Compressed(member, InodeOf(meta.value, [member.paths[0]]));
        EndsCompressed(a, s, disk.fs, member, copy, locked, bytes, out.after);
        return;
      }
      r := Fail(meta.error);
    }
    out := Refused(member, if r.Done? then r.value.value else FailedAs(r.error));
    GroundsOf(s, member, copy, locked, r, out);
    GiveUp(disk, member, copy, locked, c, a, s, bytes, out.skip, if disk.faulty then moving + {member} else moving, from);
  }

  lemma EndsCompressed(a: Fs, s: Fs, t: Fs, member: Inode, copy: Path, locked: seq<Path>, bytes: Bytes, after: Inode)
    requires s.Has(copy) && SparesOthers(a, s, t, copy) && Stable(Erase(s, copy), t, true)
    requires Placed(a, t, member, after, bytes) && after.stamp.id !in Erase(s, copy).ever
    requires NoRepeat(member.paths) ==> OnTarget(Erase(s, copy), t, member.paths, after.stamp.id)
    ensures t in Ends(a, s, member, copy, bytes, Compressed(member, after)) && s in Grounds(locked, Compressed(member, after))
  {}

  lemma GroundsOf(s: Fs, member: Inode, copy: Path, locked: seq<Path>, r: Io<Option<Skip>>, out: Outcome)
    requires s.Has(copy) && IsTemp(copy) && r != Done(None)
    requires r.Done? ==> r.value == FinishSkip(s, member, copy, locked)
    requires out == Refused(member, if r.Done? then r.value.value else FailedAs(r.error))
    ensures s in Grounds(locked, out)
  {
    if r.Done? {
      SecondLookRefuses(s, locked, member, copy, r.value.value);
    }
    assert Because(s, locked, member, out.skip);
  }

  /** The copy of a group that is not swapped in goes, and whatever the swap spared is spared. */
  method GiveUp(disk: Disk, member: Inode, copy: Path, locked: seq<Path>, ghost c: Rules, ghost a: Fs, ghost s: Fs, ghost bytes: Bytes,
                ghost skip: Skip, ghost moving: set<Inode>, ghost from: nat)
    requires from <= |disk.states| && disk.states in Histories(from, c, a, {})
    requires disk.Valid() && disk.fs in Steps(c, a, {}) && disk.fs in Presses(a, moving) && copy !in a.names && IsTemp(copy)
    requires s.Has(copy) && Stable(Erase(s, copy), disk.fs, true) && SparesOthers(a, s, disk.fs, copy)
    requires Workable(disk.fs, locked, disk.pid, disk.serial)
    modifies disk`fs, disk`states
    ensures disk.Valid() && Grown(old(disk.states), disk.states)
    ensures disk.fs in Steps(c, a, {}) && disk.states in Histories(from, c, a, {}) && disk.fs in Presses(a, moving)
    ensures disk.fs in Ends(a, s, member, copy, bytes, Refused(member, skip))
    ensures Workable(disk.fs, locked, disk.pid, disk.serial) && (!disk.faulty ==> copy !in disk.fs.names)
  {
    ghost var t, states := disk.fs, disk.states;
    DiscardCopy(disk, copy, c, a, Erase(s, copy), moving);
    HistoryJoin(states, disk.states, from, c, a, {});
    SparesTransitive(a, s, t, disk.fs, copy);
    FewerNamesWorkable(t, disk.fs, locked, disk.pid, disk.serial);
  }

  lemma FewerNamesWorkable(s: Fs, t: Fs, locked: seq<Path>, pid: nat, serial: nat)
    requires Workable(s, locked, pid, serial) && t.names.Keys <= s.names.Keys
    ensures Workable(t, locked, pid, serial)
  {}

  /** The copies from `k` on wait, each under a name of its own. */
  ghost predicate WaitFrom(c: Rules, a: Fs, s: Fs, pending: seq<Pending>, contents: seq<Bytes>, k: nat, hi: nat) {
    && |contents| == |pending|
    && (forall j :: k <= j < |pending| ==> Waits(c, a, s, pending[j], contents[j], hi))
    && (forall i, j :: k <= i < j < |pending| ==> pending[i].copy != pending[j].copy)
  }

  ghost predicate AllWait(c: Rules, a: Fs, s: Fs, pending: seq<Pending>, contents: seq<Bytes>, hi: nat) {
    WaitFrom(c, a, s, pending, contents, 0, hi)
  }

  lemma SparedWait(c: Rules, a: Fs, s: Fs, t: Fs, p: Pending, bytes: Bytes, hi: nat, more: nat, copy: Path)
    requires SparesOthers(a, s, t, copy) && Waits(c, a, s, p, bytes, hi) && p.copy != copy && hi <= more
    ensures Waits(c, a, t, p, bytes, more) && t.names[p.copy] == s.names[p.copy] && t.At(p.copy).bytes == s.At(p.copy).bytes
  {}

  /** What the batch may assume of its groups: no path is a temp, and if the run is vouched for, each is a
      record of the scanned state. */
  ghost predicate Planned(seen: Fs, a: Fs, batch: seq<Inode>, kept: bool) {
    && (forall m, p :: m in batch && p in m.paths ==> !IsTemp(p))
    && (kept ==> seen.WellFormed() && Stable(seen, a, false) && forall m :: m in batch ==> Describes(seen, m))
  }

  /** What is known of the groups staged so far. */
  ghost predicate Batch(c: Rules, a: Fs, s: Fs, seen: Fs, batch: seq<Inode>, pending: seq<Pending>, refused: seq<Outcome>,
                        contents: seq<Bytes>, hi: nat) {
    && AllWait(c, a, s, pending, contents, hi)
    && (forall j :: 0 <= j < |pending| ==> s.At(pending[j].copy).bytes == contents[j] && pending[j].member in batch)
    && (c.kept ==> forall j :: 0 <= j < |pending| ==> Witnessed(seen, a, pending[j].member, contents[j]))
    && (forall o :: o in refused ==> o.Refused? && o.member in batch)
  }

  /** The states in which so much of a batch is staged. */
  ghost function Batches(c: Rules, a: Fs, seen: Fs, batch: seq<Inode>, pending: seq<Pending>, refused: seq<Outcome>,
                         contents: seq<Bytes>, hi: nat): iset<Fs> {
    iset s: Fs | Batch(c, a, s, seen, batch, pending, refused, contents, hi)
  }

  lemma BatchBegins(c: Rules, a: Fs, s: Fs, seen: Fs, batch: seq<Inode>, hi: nat)
    ensures s in Batches(c, a, seen, batch, [], [], [], hi)
  {}

  lemma BatchTells(c: Rules, a: Fs, s: Fs, seen: Fs, batch: seq<Inode>, pending: seq<Pending>, refused: seq<Outcome>,
                   contents: seq<Bytes>, hi: nat)
    requires s in Batches(c, a, seen, batch, pending, refused, contents, hi)
    ensures Batch(c, a, s, seen, batch, pending, refused, contents, hi)
  {}

  lemma RefusedOneMore(c: Rules, a: Fs, s: Fs, t: Fs, seen: Fs, batch: seq<Inode>, pending: seq<Pending>,
                       refused: seq<Outcome>, contents: seq<Bytes>, hi: nat, more: nat, o: Outcome)
    requires s.WellFormed() && s in Batches(c, a, seen, batch, pending, refused, contents, hi)
    requires Untouched(s, t) && hi <= more && o.Refused? && o.member in batch
    ensures t in Batches(c, a, seen, batch, pending, refused + [o], contents, more)
  {
    WaitOn(c, a, s, t, pending, contents, hi, more);
  }

  lemma StagedOneMore(c: Rules, a: Fs, s: Fs, t: Fs, seen: Fs, batch: seq<Inode>, pending: seq<Pending>,
                      refused: seq<Outcome>, contents: seq<Bytes>, hi: nat, more: nat, member: Inode, copy: Path)
    requires s in Steps(c, a, {}) && s in Batches(c, a, seen, batch, pending, refused, contents, hi)
    requires Untouched(s, t) && hi <= more && member in batch && Planned(seen, a, batch, c.kept)
    requires GroupSkip(s, member, c.locked).None? && IsCopy(c, a, s, t, member, copy, more)
    ensures t in Batches(c, a, seen, batch, pending + [Pending(member, copy)], refused, contents + [s.At(member.paths[0]).bytes], more)
  {
    WaitOn(c, a, s, t, pending, contents, hi, more);
    OneMoreWaits(c, a, s, t, pending, contents, member, copy, s.At(member.paths[0]).bytes, hi, more);
    if c.kept {
      StagedIsWitnessed(seen, a, s, member, c.locked, c);
    }
  }

  /** A check refused the group in this state: the first look, or the second one with the copy. */
  ghost predicate Fails(s: Fs, locked: seq<Path>, member: Inode, skip: Skip) {
    || GroupSkip(s, member, locked) == Some(skip)
    || exists copy :: s.Has(copy) && IsTemp(copy) && FinishSkip(s, member, copy, locked) == Some(skip)
  }

  /** The states in which a check refuses the group so. */
  ghost function Refusing(locked: seq<Path>, member: Inode, skip: Skip): iset<Fs> {
    iset s: Fs | Fails(s, locked, member, skip)
  }

  /** A group is refused for an I/O error or a check that fails. */
  ghost predicate Because(s: Fs, locked: seq<Path>, member: Inode, skip: Skip) {
    FromDisk(Some(skip)) || s in Refusing(locked, member, skip)
  }

  ghost predicate WithReason(s: Fs, locked: seq<Path>, o: Outcome) {
    forall skip :: o == Refused(o.member, skip) ==> Because(s, locked, o.member, skip)
  }

  /** The states from which a group may come to this outcome. */
  ghost function Grounds(locked: seq<Path>, o: Outcome): iset<Fs> {
    iset s: Fs | WithReason(s, locked, o)
  }

  lemma FirstLookRefuses(s: Fs, locked: seq<Path>, member: Inode, skip: Skip)
    requires GroupSkip(s, member, locked) == Some(skip)
    ensures s in Refusing(locked, member, skip)
  {}

  lemma SecondLookRefuses(s: Fs, locked: seq<Path>, member: Inode, copy: Path, skip: Skip)
    requires s.Has(copy) && IsTemp(copy) && FinishSkip(s, member, copy, locked) == Some(skip)
    ensures s in Refusing(locked, member, skip)
  {}

  ghost predicate Stood(states: seq<Fs>, begin: nat, locked: seq<Path>, member: Inode, skip: Skip) {
    exists k :: begin <= k < |states| && states[k] in Refusing(locked, member, skip)
  }

  /** Every refusal has its reason: an I/O error, or a check that failed in some state from `begin` on; and what a group is said to
      have become is a file that was there. */
  ghost predicate Reasoned(states: seq<Fs>, begin: nat, locked: seq<Path>, outcomes: seq<Outcome>) {
    forall o :: o in outcomes ==> Grounded(states, begin, locked, o)
  }

  ghost predicate Grounded(states: seq<Fs>, begin: nat, locked: seq<Path>, o: Outcome) {
    match o
    case Refused(member, skip) => FromDisk(Some(skip)) || Stood(states, begin, locked, member, skip)
    case Compressed(_, after) => Lived(states, begin, after.stamp)
  }

  ghost function Reasons(begin: nat, locked: seq<Path>, outcomes: seq<Outcome>): iset<seq<Fs>> {
    iset states: seq<Fs> | Reasoned(states, begin, locked, outcomes)
  }

  lemma NoReasonYet(states: seq<Fs>, begin: nat, locked: seq<Path>)
    ensures states in Reasons(begin, locked, [])
  {}

  lemma ReasonsGrow(states: seq<Fs>, more: seq<Fs>, begin: nat, locked: seq<Path>, outcomes: seq<Outcome>)
    requires states in Reasons(begin, locked, outcomes) && Grown(states, more)
    ensures more in Reasons(begin, locked, outcomes)
  {
    forall o | o in outcomes ensures Grounded(more, begin, locked, o) {
      assert Grounded(states, begin, locked, o);
      if o.Compressed? {
        LivedOn(states, more, begin, o.after.stamp);
      } else if !FromDisk(Some(o.skip)) {
        var k :| begin <= k < |states| && states[k] in Refusing(locked, o.member, o.skip);
        assert more[k] == states[k];
      }
    }
  }

  /** One more outcome; a refusal's reason was in the last state before it, what a group became is in the last state after it. */
  lemma OneMoreReason(states: seq<Fs>, more: seq<Fs>, s: Fs, begin: nat, locked: seq<Path>, outcomes: seq<Outcome>, o: Outcome)
    requires states in Reasons(begin, locked, outcomes) && Grown(states, more)
    requires states in EndingIn(s) && begin < |states|
    requires s in Grounds(locked, o)
    requires o.Compressed? ==> Live(more[|more| - 1], o.after.stamp)
    ensures more in Reasons(begin, locked, outcomes + [o])
  {
    ReasonsGrow(states, more, begin, locked, outcomes);
    assert o.Refused? ==> Because(s, locked, o.member, o.skip) && more[|states| - 1] == s;
    assert Grounded(more, begin, locked, o);
  }

  lemma ReasonsJoin(states: seq<Fs>, begin: nat, locked: seq<Path>, first: seq<Outcome>, second: seq<Outcome>)
    requires states in Reasons(begin, locked, first) && states in Reasons(begin, locked, second)
    ensures states in Reasons(begin, locked, first + second)
  {}

  function Groups(pending: seq<Pending>): seq<Inode> {
    seq(|pending|, i requires 0 <= i < |pending| => pending[i].member)
  }

  function Answered(outcomes: seq<Outcome>): seq<Inode> {
    seq(|outcomes|, i requires 0 <= i < |outcomes| => outcomes[i].member)
  }

  /** The groups that may have moved: those compressed, and where the disk may fail half way the others too. */
  ghost function Moving(outcomes: seq<Outcome>, faulty: bool): set<Inode> {
    set o | o in outcomes && (o.Compressed? || faulty) :: o.member
  }

  lemma MovingOneMore(outcomes: seq<Outcome>, o: Outcome, faulty: bool)
    ensures Moving(outcomes + [o], faulty) == Moving(outcomes, faulty) + if o.Compressed? || faulty then {o.member} else {}
  {
    assert forall x :: x in outcomes + [o] <==> x in outcomes || x == o;
  }

  lemma OneMoreGroup(batch: seq<Inode>, k: nat, pending: seq<Pending>, refused: seq<Outcome>, p: Pending, o: Outcome)
    requires k < |batch| && p.member == batch[k] && o.member == batch[k]
    requires multiset(Groups(pending)) + multiset(Answered(refused)) == multiset(batch[..k])
    ensures multiset(Groups(pending + [p])) + multiset(Answered(refused)) == multiset(batch[..k + 1])
    ensures multiset(Groups(pending)) + multiset(Answered(refused + [o])) == multiset(batch[..k + 1])
  {
    assert batch[..k + 1] == batch[..k] + [batch[k]];
    assert Groups(pending + [p]) == Groups(pending) + [p.member];
    assert Answered(refused + [o]) == Answered(refused) + [o.member];
  }

  /** Copies of all groups that stand, and a refusal for each other one. */
  method StageBatch(disk: Disk, batch: seq<Inode>, locked: seq<Path>, ghost c: Rules, ghost seen: Fs)
    returns (pending: seq<Pending>, refused: seq<Outcome>, ghost contents: seq<Bytes>)
    requires disk.Valid() && Workable(disk.fs, locked, disk.pid, disk.serial)
    requires c.locked == locked && c.pid == disk.pid && c.lo == disk.serial
    requires Planned(seen, disk.fs, batch, c.kept)
    modifies disk`fs, disk`states, disk`serial
    ensures disk.Valid() && Grown(old(disk.states), disk.states) && disk.serial >= old(disk.serial)
    ensures disk.fs in Steps(c, old(disk.fs), {}) && disk.states in Histories(|old(disk.states)|, c, old(disk.fs), {})
    ensures Workable(disk.fs, locked, disk.pid, disk.serial) && disk.fs in Presses(old(disk.fs), {})
    ensures disk.fs in Batches(c, old(disk.fs), seen, batch, pending, refused, contents, disk.serial)
    ensures multiset(Groups(pending)) + multiset(Answered(refused)) == multiset(batch)
    ensures disk.states in Reasons(|old(disk.states)| - 1, locked, refused)
  {
    ghost var a, from := disk.fs, |disk.states|;
    NoReasonYet(disk.states, from - 1, locked);
    pending, refused, contents := [], [], [];
    StepAtStart(c, a, {});
    PressedAtStart(a, {});
    BatchBegins(c, a, a, seen, batch, disk.serial);
    for k := 0 to |batch|
      invariant disk.Valid() && Grown(old(disk.states), disk.states) && disk.serial >= old(disk.serial)
      invariant disk.fs in Steps(c, a, {}) && disk.states in Histories(from, c, a, {})
      invariant Workable(disk.fs, locked, disk.pid, disk.serial) && disk.fs in Presses(a, {})
      invariant disk.fs in Batches(c, a, seen, batch, pending, refused, contents, disk.serial)
      invariant multiset(Groups(pending)) + multiset(Answered(refused)) == multiset(batch[..k])
      invariant |disk.states| >= from && disk.states in Reasons(from - 1, locked, refused)
    {
      var member := batch[k];
      ghost var s, states, serial := disk.fs, disk.states, disk.serial;
      var r, copy := StageCopy(disk, member, locked, c, a);
      GrownTransitive(old(disk.states), states, disk.states);
      HistoryJoin(states, disk.states, from, c, a, {});
      OneMoreGroup(batch, k, pending, refused, Pending(member, copy), Refused(member, Changed));
      if r == Done(None) {
        StagedOneMore(c, a, s, disk.fs, seen, batch, pending, refused, contents, serial, disk.serial, member, copy);
        pending, contents := pending + [Pending(member, copy)], contents + [s.At(member.paths[0]).bytes];
        ReasonsGrow(states, disk.states, from - 1, locked, refused);
      } else {
        var o := Refused(member, if r.Done? then r.value.value else FailedAs(r.error));
        OneMoreGroup(batch, k, pending, refused, Pending(member, copy), o);
        if r.Done? {
          FirstLookRefuses(s, locked, member, r.value.value);
        }
        RefusedOneMore(c, a, s, disk.fs, seen, batch, pending, refused, contents, serial, disk.serial, o);
        OneMoreReason(states, disk.states, s, from - 1, locked, refused, o);
        refused := refused + [o];
      }
    }
    assert batch[..|batch|] == batch;
  }

  lemma WaitOn(c: Rules, a: Fs, s: Fs, t: Fs, pending: seq<Pending>, contents: seq<Bytes>, hi: nat, more: nat)
    requires s.WellFormed() && Untouched(s, t) && AllWait(c, a, s, pending, contents, hi) && hi <= more
    requires forall j :: 0 <= j < |pending| ==> s.At(pending[j].copy).bytes == contents[j]
    ensures AllWait(c, a, t, pending, contents, more)
    ensures forall j :: 0 <= j < |pending| ==> t.At(pending[j].copy).bytes == contents[j]
  {
    forall j | 0 <= j < |pending|
      ensures Waits(c, a, t, pending[j], contents[j], more) && t.At(pending[j].copy).bytes == contents[j]
    {
      UntouchedSpares(a, s, t, []);
      SparedWait(c, a, s, t, pending[j], contents[j], hi, more, []);
    }
  }

  lemma OneMoreWaits(c: Rules, a: Fs, s: Fs, t: Fs, pending: seq<Pending>, contents: seq<Bytes>, member: Inode, copy: Path,
                     bytes: Bytes, hi: nat, more: nat)
    requires AllWait(c, a, s, pending, contents, hi) && AllWait(c, a, t, pending, contents, more)
    requires IsCopy(c, a, s, t, member, copy, more) && bytes == s.At(member.paths[0]).bytes
    ensures AllWait(c, a, t, pending + [Pending(member, copy)], contents + [bytes], more)
  {
    forall j | 0 <= j < |pending| ensures pending[j].copy != copy {
      assert Waits(c, a, s, pending[j], contents[j], hi);
    }
  }

  lemma StagedIsWitnessed(seen: Fs, a: Fs, s: Fs, member: Inode, locked: seq<Path>, c: Rules)
    requires seen.WellFormed() && Stable(seen, a, false) && Describes(seen, member)
    requires s in Steps(c, a, {}) && GroupSkip(s, member, locked).None?
    ensures member.paths != [] && s.Has(member.paths[0])
    ensures Witnessed(seen, a, member, s.At(member.paths[0]).bytes)
  {
    GroupStands(s, member, locked);
    StableTransitive(seen, a, s, false);
  }

  /** `pass.compress(&copies)`: the backend works on private copies only, and no name there was moves. */
  method CompressCopies(disk: Disk, pending: seq<Pending>, ghost contents: seq<Bytes>, ghost c: Rules, ghost a: Fs)
    requires disk.fs in Presses(a, {})
    requires disk.Valid() && disk.fs in Steps(c, a, {}) && AllWait(c, a, disk.fs, pending, contents, disk.serial)
    requires forall j :: 0 <= j < |pending| ==> disk.fs.At(pending[j].copy).bytes == contents[j]
    requires Workable(disk.fs, c.locked, c.pid, disk.serial)
    modifies disk`fs, disk`states
    ensures disk.Valid() && Grown(old(disk.states), disk.states)
    ensures disk.fs in Steps(c, a, {}) && disk.states in Histories(|old(disk.states)|, c, a, {})
    ensures AllWait(c, a, disk.fs, pending, contents, disk.serial)
    ensures Workable(disk.fs, c.locked, c.pid, disk.serial) && disk.fs in Presses(a, {})
  {
    ghost var from := |disk.states|;
    for k := 0 to |pending|
      invariant disk.Valid() && Grown(old(disk.states), disk.states)
      invariant disk.fs in Steps(c, a, {}) && disk.states in Histories(from, c, a, {})
      invariant AllWait(c, a, disk.fs, pending, contents, disk.serial)
      invariant forall j :: k <= j < |pending| ==> disk.fs.At(pending[j].copy).bytes == contents[j]
      invariant Workable(disk.fs, c.locked, c.pid, disk.serial) && disk.fs in Presses(a, {})
    {
      ghost var s, states := disk.fs, disk.states;
      PrivateName(a, s, pending[k].copy);
      disk.CompressFile(pending[k].copy);
      PressRecopy(a, s, disk.fs, pending[k].copy, {});
      GrownTransitive(old(disk.states), states, disk.states);
      CopyCompressed(c, a, s, disk.fs, pending, contents, k, disk.serial);
      RecopyHistory(c, a, s, disk.states, |states|, pending[k].copy);
      HistoryJoin(states, disk.states, from, c, a, {});
    }
  }

  lemma PrivateName(a: Fs, s: Fs, copy: Path)
    requires Private(a, s, copy)
    ensures s.NamesOf(s.names[copy]) == {copy}
  {}

  lemma RecopyHistory(c: Rules, a: Fs, s: Fs, states: seq<Fs>, from: nat, copy: Path)
    requires s in Steps(c, a, {}) && Private(a, s, copy)
    requires forall i :: from <= i < |states| ==> Recopied(s, states[i], copy) && states[i].WellFormed()
    ensures states in Histories(from, c, a, {})
  {
    forall i | from <= i < |states| ensures Step(c, a, states[i], {}) {
      RecopyIsStep(c, a, s, states[i], copy);
    }
  }

  lemma CopyCompressed(c: Rules, a: Fs, s: Fs, t: Fs, pending: seq<Pending>, contents: seq<Bytes>, k: nat, hi: nat)
    requires s in Steps(c, a, {}) && AllWait(c, a, s, pending, contents, hi) && k < |pending| && t.WellFormed()
    requires forall j :: k <= j < |pending| ==> s.At(pending[j].copy).bytes == contents[j]
    requires Recopied(s, t, pending[k].copy)
    requires t.At(pending[k].copy).bytes == contents[k] || |t.At(pending[k].copy).bytes| != |contents[k]|
    requires Workable(s, c.locked, c.pid, hi)
    ensures t in Steps(c, a, {}) && AllWait(c, a, t, pending, contents, hi)
    ensures forall j :: k < j < |pending| ==> t.At(pending[j].copy).bytes == contents[j]
    ensures Workable(t, c.locked, c.pid, hi)
  {
    var copy := pending[k].copy;
    RecopyIsStep(c, a, s, t, copy);
    RecopyStaysPrivate(a, s, t, copy);
    RecopySpares(a, s, t, copy);
    RecopyTouchesOne(s, t, copy);
    FewerNamesWorkable(s, t, c.locked, c.pid, hi);
    forall j | 0 <= j < |pending| && j != k
      ensures Waits(c, a, t, pending[j], contents[j], hi) && t.At(pending[j].copy).bytes == s.At(pending[j].copy).bytes
    {
      SparedWait(c, a, s, t, pending[j], contents[j], hi, hi, copy);
    }
  }

  /** An inode a pass was told of is new since `a`, and as long as it is there it has the group's bytes. */
  ghost predicate Told(a: Fs, t: Fs, seen: Fs, o: Outcome, kept: bool) {
    o.Compressed? ==>
      && o.after.stamp.id !in a.ever && o.after.stamp.id in t.ever
      && (kept && o.after.stamp.id in t.nodes ==>
            o.member.stamp.id in seen.nodes && t.nodes[o.after.stamp.id].bytes == seen.nodes[o.member.stamp.id].bytes)
  }

  /** The first `k` copies are finished and the others wait, on inodes no pass was told of. */
  ghost predicate Finishing(c: Rules, a: Fs, s: Fs, seen: Fs, pending: seq<Pending>, contents: seq<Bytes>,
                            finished: seq<Outcome>, k: nat, hi: nat) {
    && k <= |pending| && |finished| == k
    && WaitFrom(c, a, s, pending, contents, k, hi)
    && (forall j :: 0 <= j < k ==> finished[j].member == pending[j].member && Told(a, s, seen, finished[j], c.kept))
    && (forall i, j :: 0 <= i < k <= j < |pending| && finished[i].Compressed? && s.Has(pending[j].copy) ==>
          finished[i].after.stamp.id != s.names[pending[j].copy])
  }

  lemma OthersWait(c: Rules, a: Fs, s: Fs, t: Fs, pending: seq<Pending>, contents: seq<Bytes>, k: nat, hi: nat, more: nat)
    requires k < |pending| && WaitFrom(c, a, s, pending, contents, k, hi) && hi <= more
    requires SparesOthers(a, s, t, pending[k].copy)
    ensures WaitFrom(c, a, t, pending, contents, k + 1, more)
    ensures forall j :: k < j < |pending| ==>
              && s.Has(pending[j].copy) && t.Has(pending[j].copy)
              && t.names[pending[j].copy] == s.names[pending[j].copy] && s.names[pending[j].copy] != s.names[pending[k].copy]
  {
    forall j | k < j < |pending|
      ensures Waits(c, a, t, pending[j], contents[j], more) && t.names[pending[j].copy] == s.names[pending[j].copy]
      ensures s.names[pending[j].copy] != s.names[pending[k].copy]
    {
      SparedWait(c, a, s, t, pending[j], contents[j], hi, more, pending[k].copy);
      assert Waits(c, a, s, pending[k], contents[k], hi);
    }
  }

  lemma FinishedOneMore(c: Rules, a: Fs, s: Fs, t: Fs, seen: Fs, pending: seq<Pending>, contents: seq<Bytes>,
                        finished: seq<Outcome>, k: nat, hi: nat, more: nat, out: Outcome)
    requires s.WellFormed() && t.WellFormed() && k < |pending| && Finishing(c, a, s, seen, pending, contents, finished, k, hi)
    requires hi <= more && s.Has(pending[k].copy)
    requires SparesOthers(a, s, t, pending[k].copy) && Stable(Erase(s, pending[k].copy), t, true)
    requires out.member == pending[k].member && (out.Compressed? ==> Placed(a, t, out.member, out.after, contents[k]))
    requires out.Compressed? ==> out.after.stamp.id !in Erase(s, pending[k].copy).ever
    requires c.kept ==> Witnessed(seen, a, pending[k].member, contents[k])
    ensures Finishing(c, a, t, seen, pending, contents, finished + [out], k + 1, more)
  {
    var copy := pending[k].copy;
    OthersWait(c, a, s, t, pending, contents, k, hi, more);
    forall j | k < j < |pending| ensures s.names[pending[j].copy] in Erase(s, copy).ever {
      assert s.names[pending[j].copy] in s.ever;
    }
    forall j | 0 <= j < k ensures Told(a, t, seen, finished[j], c.kept) {
      StillTold(a, s, t, seen, finished[j], copy, c.kept);
    }
  }

  /** What a pass was told of stays true while another copy is swapped in. */
  lemma StillTold(a: Fs, s: Fs, t: Fs, seen: Fs, o: Outcome, copy: Path, kept: bool)
    requires s.WellFormed() && s.Has(copy) && Told(a, s, seen, o, kept) && Stable(Erase(s, copy), t, true)
    requires o.Compressed? ==> o.after.stamp.id != s.names[copy]
    ensures Told(a, t, seen, o, kept)
  {}

  /** The group holds every name of its inode. */
  ghost predicate WholeIn(a: Fs, member: Inode) {
    && NoRepeat(member.paths) && member.stamp.id in a.nodes
    && forall p :: p in a.names && a.names[p] == member.stamp.id ==> p in member.paths
  }

  /** Of a compressed group that was whole the old inode is gone. */
  ghost predicate GroupsGone(a: Fs, t: Fs, outcomes: seq<Outcome>, exact: bool) {
    forall o :: o in outcomes && o.Compressed? && exact && WholeIn(a, o.member) ==> o.member.stamp.id !in t.nodes
  }

  lemma GoneOneMore(c: Rules, a: Fs, s: Fs, t: Fs, copy: Path, finished: seq<Outcome>, out: Outcome)
    requires a.WellFormed() && s in Steps(c, a, {}) && t.WellFormed() && Private(a, s, copy)
    requires GroupsGone(a, s, finished, c.exact) && Stable(Erase(s, copy), t, true)
    requires out.Compressed? && NoRepeat(out.member.paths) ==> OnTarget(Erase(s, copy), t, out.member.paths, out.after.stamp.id)
    requires out.Compressed? ==> out.after.stamp.id !in a.ever
    ensures GroupsGone(a, t, finished + [out], c.exact)
  {
    var e := Erase(s, copy);
    forall o | o in finished && o.Compressed? && c.exact && WholeIn(a, o.member) ensures o.member.stamp.id !in t.nodes {
      assert o.member.stamp.id in a.ever && o.member.stamp.id in e.ever && o.member.stamp.id !in e.nodes;
    }
    if out.Compressed? && c.exact && WholeIn(a, out.member) {
      var id := out.member.stamp.id;
      assert id in a.ever;
      forall p | p in t.names ensures t.names[p] != id {
        assert p in e.names && (p !in out.member.paths ==> t.names[p] == s.names[p]);
      }
      assert t.NamesOf(id) == {};
      assert id in t.nodes ==> t.nodes[id].nlink == |t.NamesOf(id)|;
    }
  }

  /** What is to be seen of a batch half finished: of the copies, and of the groups. */
  datatype Aspect = OfCopies | OfGroups

  ghost predicate Shows(c: Rules, a: Fs, s: Fs, seen: Fs, pending: seq<Pending>, contents: seq<Bytes>, finished: seq<Outcome>, k: nat,
                        hi: nat, aspect: Aspect) {
    match aspect
    case OfCopies => Finishing(c, a, s, seen, pending, contents, finished, k, hi)
    case OfGroups => GroupsGone(a, s, finished, c.exact)
  }

  ghost predicate ShowsAll(c: Rules, a: Fs, s: Fs, seen: Fs, pending: seq<Pending>, contents: seq<Bytes>, finished: seq<Outcome>, k: nat,
                           hi: nat) {
    forall aspect :: Shows(c, a, s, seen, pending, contents, finished, k, hi, aspect)
  }

  /** The states in which the first `k` copies are finished and the others wait. */
  ghost function Finishes(c: Rules, a: Fs, seen: Fs, pending: seq<Pending>, contents: seq<Bytes>, finished: seq<Outcome>, k: nat,
                          hi: nat): iset<Fs> {
    iset s: Fs | ShowsAll(c, a, s, seen, pending, contents, finished, k, hi)
  }

  lemma FinishesTell(c: Rules, a: Fs, s: Fs, seen: Fs, pending: seq<Pending>, contents: seq<Bytes>, finished: seq<Outcome>, k: nat, hi: nat)
    requires s in Finishes(c, a, seen, pending, contents, finished, k, hi)
    ensures Finishing(c, a, s, seen, pending, contents, finished, k, hi) && GroupsGone(a, s, finished, c.exact)
  {
    assert Shows(c, a, s, seen, pending, contents, finished, k, hi, OfCopies);
    assert Shows(c, a, s, seen, pending, contents, finished, k, hi, OfGroups);
  }

  lemma NextWaits(c: Rules, a: Fs, s: Fs, seen: Fs, pending: seq<Pending>, contents: seq<Bytes>, finished: seq<Outcome>, k: nat, hi: nat)
    requires s in Finishes(c, a, seen, pending, contents, finished, k, hi) && k < |pending|
    ensures |contents| == |pending| && Waits(c, a, s, pending[k], contents[k], hi)
  {
    FinishesTell(c, a, s, seen, pending, contents, finished, k, hi);
  }

  lemma FinishesOneMore(c: Rules, a: Fs, s: Fs, t: Fs, seen: Fs, pending: seq<Pending>, contents: seq<Bytes>,
                        finished: seq<Outcome>, k: nat, hi: nat, more: nat, out: Outcome)
    requires a.WellFormed() && s in Steps(c, a, {}) && t in Steps(c, a, {}) && k < |pending| && |contents| == |pending|
    requires s in Finishes(c, a, seen, pending, contents, finished, k, hi) && hi <= more
    requires t in Ends(a, s, pending[k].member, pending[k].copy, contents[k], out)
    requires c.kept ==> Witnessed(seen, a, pending[k].member, contents[k])
    ensures t in Finishes(c, a, seen, pending, contents, finished + [out], k + 1, more)
  {
    FinishesTell(c, a, s, seen, pending, contents, finished, k, hi);
    NextWaits(c, a, s, seen, pending, contents, finished, k, hi);
    FinishedOneMore(c, a, s, t, seen, pending, contents, finished, k, hi, more, out);
    GoneOneMore(c, a, s, t, pending[k].copy, finished, out);
  }

  /** The next copy swapped in or thrown away. */
  method FinishNext(disk: Disk, pending: seq<Pending>, k: nat, locked: seq<Path>, ghost contents: seq<Bytes>, ghost c: Rules,
                    ghost a: Fs, ghost seen: Fs, ghost begin: nat, ghost finished: seq<Outcome>)
    returns (out: Outcome)
    requires k < |pending| && begin < |disk.states| && a.WellFormed()
    requires disk.fs in Presses(a, Moving(finished, disk.faulty)) && forall p :: p in pending[k].member.paths ==> !IsTemp(p)
    requires disk.Valid() && Workable(disk.fs, locked, disk.pid, disk.serial)
    requires c.locked == locked && c.pid == disk.pid && c.lo <= disk.serial && disk.fs in Steps(c, a, {})
    requires |contents| == |pending| && (c.kept ==> Witnessed(seen, a, pending[k].member, contents[k]))
    requires disk.fs in Finishes(c, a, seen, pending, contents, finished, k, disk.serial)
    requires disk.states in Reasons(begin, locked, finished)
    modifies disk`fs, disk`states, disk`serial
    ensures disk.Valid() && Grown(old(disk.states), disk.states) && disk.serial >= old(disk.serial)
    ensures disk.fs in Steps(c, a, {}) && disk.states in Histories(|old(disk.states)|, c, a, {})
    ensures Workable(disk.fs, locked, disk.pid, disk.serial) && disk.fs in Presses(a, Moving(finished + [out], disk.faulty))
    ensures disk.fs in Finishes(c, a, seen, pending, contents, finished + [out], k + 1, disk.serial)
    ensures disk.states in Reasons(begin, locked, finished + [out])
  {
    ghost var s, states, serial := disk.fs, disk.states, disk.serial;
    NextWaits(c, a, s, seen, pending, contents, finished, k, serial);
    out := FinishCompress(disk, pending[k].member, pending[k].copy, locked, c, a, seen, contents[k], Moving(finished, disk.faulty));
    FinishesOneMore(c, a, s, disk.fs, seen, pending, contents, finished, k, serial, disk.serial, out);
    ReasonedNext(a, s, disk.fs, pending[k].member, pending[k].copy, contents[k], finished, out, states, disk.states, begin, disk.faulty,
                 locked);
  }

  /** What comes of the next group, and how the disk came there. */
  lemma ReasonedNext(a: Fs, s: Fs, t: Fs, member: Inode, copy: Path, bytes: Bytes, finished: seq<Outcome>, out: Outcome, states: seq<Fs>,
                     later: seq<Fs>, begin: nat, faulty: bool, locked: seq<Path>)
    requires t in Ends(a, s, member, copy, bytes, out) && s in Grounds(locked, out)
    requires states in Reasons(begin, locked, finished) && Grown(states, later) && begin < |states|
    requires states in EndingIn(s) && later in EndingIn(t)
    requires t in Presses(a, if out.Compressed? || faulty then Moving(finished, faulty) + {member} else Moving(finished, faulty))
    ensures later in Reasons(begin, locked, finished + [out]) && t in Presses(a, Moving(finished + [out], faulty))
  {
    MovingOneMore(finished, out, faulty);
    OneMoreReason(states, later, s, begin, locked, finished, out);
  }

  /** Each copy swapped in or thrown away. */
  method FinishBatch(disk: Disk, pending: seq<Pending>, locked: seq<Path>, ghost contents: seq<Bytes>, ghost c: Rules,
                     ghost a: Fs, ghost seen: Fs, ghost begin: nat)
    returns (finished: seq<Outcome>)
    requires begin < |disk.states|
    requires a.WellFormed() && disk.fs in Presses(a, {})
    requires disk.Valid() && Workable(disk.fs, locked, disk.pid, disk.serial)
    requires c.locked == locked && c.pid == disk.pid && c.lo <= disk.serial && disk.fs in Steps(c, a, {})
    requires AllWait(c, a, disk.fs, pending, contents, disk.serial)
    requires forall j, p :: 0 <= j < |pending| && p in pending[j].member.paths ==> !IsTemp(p)
    requires c.kept ==> forall j :: 0 <= j < |pending| ==> Witnessed(seen, a, pending[j].member, contents[j])
    modifies disk`fs, disk`states, disk`serial
    ensures disk.Valid() && Grown(old(disk.states), disk.states) && disk.serial >= old(disk.serial)
    ensures disk.fs in Steps(c, a, {}) && disk.states in Histories(|old(disk.states)|, c, a, {})
    ensures Workable(disk.fs, locked, disk.pid, disk.serial) && disk.fs in Presses(a, Moving(finished, disk.faulty))
    ensures disk.fs in Finishes(c, a, seen, pending, contents, finished, |pending|, disk.serial)
    ensures disk.states in Reasons(begin, locked, finished)
  {
    ghost var from := |disk.states|;
    finished := [];
    NoReasonYet(disk.states, begin, locked);
    FinishBegins(c, a, disk.fs, seen, pending, contents, disk.serial);
    for k := 0 to |pending|
      invariant disk.Valid() && Grown(old(disk.states), disk.states) && disk.serial >= old(disk.serial)
      invariant disk.fs in Steps(c, a, {}) && disk.states in Histories(from, c, a, {})
      invariant Workable(disk.fs, locked, disk.pid, disk.serial) && disk.fs in Presses(a, Moving(finished, disk.faulty))
      invariant disk.fs in Finishes(c, a, seen, pending, contents, finished, k, disk.serial)
      invariant |disk.states| >= from && disk.states in Reasons(begin, locked, finished)
    {
      ghost var states := disk.states;
      var out := FinishNext(disk, pending, k, locked, contents, c, a, seen, begin, finished);
      GrownTransitive(old(disk.states), states, disk.states);
      HistoryJoin(states, disk.states, from, c, a, {});
      finished := finished + [out];
    }
  }

  lemma FinishBegins(c: Rules, a: Fs, s: Fs, seen: Fs, pending: seq<Pending>, contents: seq<Bytes>, hi: nat)
    requires AllWait(c, a, s, pending, contents, hi)
    ensures s in Finishes(c, a, seen, pending, contents, [], 0, hi)
  {}

  /** Every group of the batch came to one outcome. */
  lemma AllAnswered(c: Rules, a: Fs, s: Fs, seen: Fs, batch: seq<Inode>, pending: seq<Pending>, contents: seq<Bytes>,
                    refused: seq<Outcome>, finished: seq<Outcome>, hi: nat)
    requires s in Finishes(c, a, seen, pending, contents, finished, |pending|, hi)
    requires multiset(Groups(pending)) + multiset(Answered(refused)) == multiset(batch)
    requires forall j :: 0 <= j < |pending| ==> pending[j].member in batch
    requires forall o :: o in refused ==> o.Refused? && o.member in batch
    ensures multiset(Answered(refused + finished)) == multiset(batch)
    ensures forall o :: o in refused + finished ==> o.member in batch && Told(a, s, seen, o, c.kept)
    ensures GroupsGone(a, s, refused + finished, c.exact)
  {
    FinishesTell(c, a, s, seen, pending, contents, finished, |pending|, hi);
    assert Answered(finished) == Groups(pending);
    assert Answered(refused + finished) == Answered(refused) + Answered(finished);
  }

  /** A batch of groups compressed: `apply_compress`. Every group comes to one outcome, and on a disk without errors of its own only
      those compressed have moved. */
  method ApplyCompress(disk: Disk, batch: seq<Inode>, locked: seq<Path>, ghost c: Rules, ghost seen: Fs)
    returns (outcomes: seq<Outcome>)
    requires disk.Valid() && Workable(disk.fs, locked, disk.pid, disk.serial)
    requires c.locked == locked && c.pid == disk.pid && c.lo == disk.serial
    requires Planned(seen, disk.fs, batch, c.kept)
    modifies disk`fs, disk`states, disk`serial
    ensures disk.Valid() && Grown(old(disk.states), disk.states) && disk.serial >= old(disk.serial)
    ensures disk.fs in Steps(c, old(disk.fs), {}) && disk.states in Histories(|old(disk.states)|, c, old(disk.fs), {})
    ensures Workable(disk.fs, locked, disk.pid, disk.serial)
    ensures multiset(Answered(outcomes)) == multiset(batch)
    ensures forall o :: o in outcomes ==> o.member in batch && Told(old(disk.fs), disk.fs, seen, o, c.kept)
    ensures disk.fs in Presses(old(disk.fs), Moving(outcomes, disk.faulty)) && GroupsGone(old(disk.fs), disk.fs, outcomes, c.exact)
    ensures disk.states in Reasons(|old(disk.states)| - 1, locked, outcomes)
  {
    ghost var a, from, start := disk.fs, |disk.states|, disk.states;
    ghost var contents;
    var pending, refused;
    pending, refused, contents := StageBatch(disk, batch, locked, c, seen);
    BatchTells(c, a, disk.fs, seen, batch, pending, refused, contents, disk.serial);
    ghost var states, staged := disk.states, disk.states;
    CompressCopies(disk, pending, contents, c, a);
    GrownTransitive(start, states, disk.states);
    HistoryJoin(states, disk.states, from, c, a, {});
    states := disk.states;
    var finished := FinishBatch(disk, pending, locked, contents, c, a, seen, from - 1);
    GrownTransitive(start, states, disk.states);
    HistoryJoin(states, disk.states, from, c, a, {});
    outcomes := refused + finished;
    PressesGrow(a, disk.fs, Moving(finished, disk.faulty), Moving(outcomes, disk.faulty));
    ReasonsGrow(staged, disk.states, from - 1, locked, refused);
    ReasonsJoin(disk.states, from - 1, locked, refused, finished);
    AllAnswered(c, a, disk.fs, seen, batch, pending, contents, refused, finished, disk.serial);
  }
}
