/** One planned replacement, checked and applied (`check_group`, `try_replace` in `src/engine.rs`). */
module Apply {
  import opened Paths
  import opened Files
  import opened Model
  import opened Preserve
  import opened Swap

  /** How a replacement gets its bytes: a copy-on-write clone, or one inode under every name. */
  datatype Share = Clone | Link

  datatype Replace = Replace(source: Path, sourceStamp: Stamp, member: Inode, how: Share)

  /** Why a planned group was left alone. */
  datatype Skip =
    | Unlocked | ForeignLinks | ForeignFlags | CrossDevice | SameInode | SizeMismatch | ModeMismatch | Changed
    | NotCompressed | Unsure | Busy | Failed(kind: nat)

  /** A file in use is what a build without a lock looks like from outside. */
  function FailedAs(e: IoError): (skip: Skip)
    ensures skip == Busy <==> e == InUse
    ensures forall kind :: skip == Failed(kind) <==> e == Other(kind)
  {
    match e
    case InUse => Busy
    case Other(kind) => Failed(kind)
  }

  /** A skip that tells of an I/O error. */
  predicate FromDisk(skip: Option<Skip>) {
    skip.Some? && (skip.value.Failed? || skip.value.Busy?)
  }

  predicate Stands(fs: Fs, p: Path, stamp: Stamp) {
    fs.Has(p) && StampOf(fs.names[p], fs.At(p)) == stamp
  }

  /** What must hold for a group before any of its paths is replaced, and which check fails first. */
  function GroupSkip(fs: Fs, member: Inode, locked: seq<Path>): Option<Skip> {
    if member.paths == [] then Some(Changed)
    else if exists p :: p in member.paths && !LockedIn(p, locked) then Some(Unlocked)
    else if member.nlink != |member.paths| then Some(ForeignLinks)
    else if member.flags.other != 0 then Some(ForeignFlags)
    else if exists p :: p in member.paths && !Stands(fs, p, member.stamp) then Some(Changed)
    else None
  }

  ghost predicate FilesAt(fs: Fs, paths: seq<Path>) {
    forall p :: p in paths ==> p in fs.names
  }

  method CheckGroup(disk: Disk, member: Inode, locked: seq<Path>) returns (r: Io<Option<Skip>>)
    requires disk.Valid()
    ensures r.Done? ==> r.value == GroupSkip(disk.fs, member, locked)
    ensures FilesAt(disk.fs, member.paths) && !disk.faulty ==> r.Done?
  {
    if member.paths == [] {
      return Done(Some(Changed));
    }
    if exists p :: p in member.paths && !LockedIn(p, locked) {
      return Done(Some(Unlocked));
    }
    if member.nlink != |member.paths| {
      return Done(Some(ForeignLinks));
    }
    if member.flags.other != 0 {
      return Done(Some(ForeignFlags));
    }
    for k := 0 to |member.paths|
      invariant forall i :: 0 <= i < k ==> Stands(disk.fs, member.paths[i], member.stamp)
    {
      var stamp :- ReadStamp(disk, member.paths[k]);
      if stamp != member.stamp {
        assert !Stands(disk.fs, member.paths[k], member.stamp);
        return Done(Some(Changed));
      }
    }
    return Done(None);
  }

  /** The checks made for every way of sharing. */
  function SourceSkip(fs: Fs, r: Replace, locked: seq<Path>): Option<Skip> {
    if !LockedIn(r.source, locked) then Some(Unlocked)
    else if GroupSkip(fs, r.member, locked).Some? then GroupSkip(fs, r.member, locked)
    else if r.sourceStamp.id.dev != r.member.stamp.id.dev then Some(CrossDevice)
    else if r.sourceStamp.id.ino == r.member.stamp.id.ino then Some(SameInode)
    else if r.sourceStamp.size != r.member.stamp.size then Some(SizeMismatch)
    else if !Stands(fs, r.source, r.sourceStamp) then Some(Changed)
    else None
  }

  /** The skip of a replacement whose files can all be looked at. */
  function ReplaceSkip(fs: Fs, r: Replace, locked: seq<Path>): Option<Skip> {
    if SourceSkip(fs, r, locked).Some? then SourceSkip(fs, r, locked)
    else if r.how.Link? && fs.At(r.source).mode != r.member.mode then Some(ModeMismatch)
    else None
  }

  /** What is known of a replacement no check refuses. */
  lemma ReplaceStands(fs: Fs, r: Replace, locked: seq<Path>)
    requires SourceSkip(fs, r, locked).None?
    ensures r.member.paths != [] && LockedIn(r.source, locked) && Stands(fs, r.source, r.sourceStamp)
    ensures forall p :: p in r.member.paths ==> LockedIn(p, locked) && Stands(fs, p, r.member.stamp) && p in fs.names
    ensures r.member.paths[0] in fs.names && fs.names[r.member.paths[0]] == r.member.stamp.id
    ensures fs.names[r.source] == r.sourceStamp.id != r.member.stamp.id
  {
    assert r.member.paths[0] in r.member.paths;
  }

  /** Where the engine may work: its units are dirs, and the counter of temps is ahead of every temp there. */
  ghost predicate Workable(fs: Fs, locked: seq<Path>, pid: nat, serial: nat) {
    && (forall i :: 0 <= i < |locked| ==> locked[i] !in fs.names && !IsTemp(locked[i]))
    && (forall p :: p in fs.names && LockedIn(p, locked) && OwnTemp(p, pid, 0) ==> Numbered(p, pid, 0, serial))
  }

  lemma WorkableIsUnused(fs: Fs, locked: seq<Path>, pid: nat, serial: nat, paths: seq<Path>)
    requires Workable(fs, locked, pid, serial)
    requires forall q :: q in paths ==> LockedIn(q, locked) && q in fs.names
    ensures Unused(fs, paths, pid, serial)
  {
    forall q, n: nat | q in paths && n >= serial
      ensures TempOf(q, pid, n) !in fs.names
    {
      TempIsBeside(q, locked, pid, n, fs);
    }
  }

  lemma TempIsBeside(q: Path, locked: seq<Path>, pid: nat, n: nat, fs: Fs)
    requires LockedIn(q, locked) && q in fs.names
    requires forall i :: 0 <= i < |locked| ==> locked[i] !in fs.names
    ensures LockedIn(TempOf(q, pid, n), locked)
  {
    var i :| 0 <= i < |locked| && Under(q, locked[i]);
    assert locked[i] != q;
    assert locked[i] <= TempOf(q, pid, n);
  }

  ghost function SourceBytes(a: Fs, r: Replace): Bytes {
    if a.Has(r.source) then a.At(r.source).bytes else []
  }

  /** All that a replacement may have come to: untouched, on its way, or done. */
  ghost predicate ReplaceOutcome(a: Fs, r: Replace, locked: seq<Path>, pid: nat, lo: nat, hi: nat, b: Fs, g: Goal, skip: Option<Skip>) {
    && g.paths == r.member.paths && g.mtime == r.member.stamp.mtime && g.mode == r.member.mode && g.exact == r.how.Clone? && !g.compressed
    && g.bytes == SourceBytes(a, r)
    && b in Ways(a, g, pid, lo, hi)
    && (if ReplaceSkip(a, r, locked).Some? then b == a else r.how.Link? ==> g.target == SourceId(a, r.source))
    && (skip.None? ==>
          && ReplaceSkip(a, r, locked).None?
          && g.paths != [] && a.Has(r.source)
          && b.names == Joins(Moved(a.names, g.paths, 1, g.target), g.paths, |g.paths|, g.target, pid, lo + 1)
          && b.Has(g.paths[0]) && b.names[g.paths[0]] == g.target && Holds(b.At(g.paths[0]), g)
          && g.target.dev == a.names[r.source].dev
          && (if r.how.Clone? then g.target !in a.ever else g.target == a.names[r.source]))
  }

  /** The checks of `try_replace` before anything is made. */
  method CheckReplace(disk: Disk, replace: Replace, locked: seq<Path>) returns (r: Io<Option<Skip>>)
    requires disk.Valid()
    ensures r.Done? ==> r.value == SourceSkip(disk.fs, replace, locked)
    ensures FilesThere(disk.fs, replace) && !disk.faulty ==> r.Done?
  {
    var Replace(source, sourceStamp, member, _) := replace;
    if !LockedIn(source, locked) {
      return Done(Some(Unlocked));
    }
    var group :- CheckGroup(disk, member, locked);
    if group.Some? {
      return Done(group);
    }
    if sourceStamp.id.dev != member.stamp.id.dev {
      return Done(Some(CrossDevice));
    }
    if sourceStamp.id.ino == member.stamp.id.ino {
      return Done(Some(SameInode));
    }
    if sourceStamp.size != member.stamp.size {
      return Done(Some(SizeMismatch));
    }
    var stamp :- ReadStamp(disk, source);
    return Done(if stamp != sourceStamp then Some(Changed) else None);
  }

  ghost predicate FilesThere(fs: Fs, r: Replace) {
    r.source in fs.names && FilesAt(fs, r.member.paths)
  }

  method TryReplace(disk: Disk, replace: Replace, locked: seq<Path>) returns (r: Io<Option<Skip>>, ghost g: Goal)
    requires disk.Valid() && Workable(disk.fs, locked, disk.pid, disk.serial)
    modifies disk`fs, disk`states, disk`serial
    ensures disk.Valid() && Grown(old(disk.states), disk.states) && disk.serial >= old(disk.serial)
    ensures disk.states in Trails(|old(disk.states)|, old(disk.fs), g, disk.pid, old(disk.serial))
    ensures ReplaceOutcome(old(disk.fs), replace, locked, disk.pid, old(disk.serial), disk.serial, disk.fs, g,
                           if r.Done? then r.value else Some(Changed))
    ensures ReplaceSkip(old(disk.fs), replace, locked).Some? ==> disk.fs == old(disk.fs) && disk.states == old(disk.states)
    ensures r.Done? ==> r.value == ReplaceSkip(old(disk.fs), replace, locked)
    ensures FilesThere(old(disk.fs), replace) && !disk.faulty ==> r.Done?
  {
    var Replace(source, sourceStamp, member, how) := replace;
    ghost var a, lo := disk.fs, disk.serial;
    g := Goal(member.paths, SourceId(a, source), SourceBytes(a, replace), member.stamp.mtime, member.mode, how.Clone?, false);
    NothingYet(a, g, disk.pid, lo, disk.states);
    r := CheckReplace(disk, replace, locked);
    if r.Fail? || r.value.Some? {
      return;
    }
    ReplaceStands(a, replace, locked);
    WorkableIsUnused(a, locked, disk.pid, lo, member.paths);
    var temp := disk.SiblingTemp(member.paths[0]);
    if how.Link? {
      var meta := disk.Stat(source);
      if meta.Fail? {
        r := Fail(meta.error);
        return;
      }
      if meta.value.node.mode != member.mode {
        r := Done(Some(ModeMismatch));
        return;
      }
    }
    r, g := SwapReplace(disk, replace, locked, temp, a, lo);
  }

  /** The swap of a replacement that passed every check. */
  method SwapReplace(disk: Disk, replace: Replace, locked: seq<Path>, temp: Path, ghost a: Fs, ghost lo: nat)
    returns (r: Io<Option<Skip>>, ghost g: Goal)
    requires disk.Valid() && disk.fs == a && ReplaceSkip(a, replace, locked).None?
    requires temp == TempOf(replace.member.paths[0], disk.pid, lo) && temp !in a.names && disk.serial == lo + 1
    requires Unused(a, replace.member.paths, disk.pid, disk.serial)
    modifies disk`fs, disk`states, disk`serial
    ensures disk.Valid() && Grown(old(disk.states), disk.states) && disk.serial >= old(disk.serial)
    ensures disk.states in Trails(|old(disk.states)|, a, g, disk.pid, lo)
    ensures ReplaceOutcome(a, replace, locked, disk.pid, lo, disk.serial, disk.fs, g, if r.Done? then r.value else Some(Changed))
    ensures r.Done? ==> r.value == None
    ensures !disk.faulty ==> r.Done?
  {
    var Replace(source, sourceStamp, member, how) := replace;
    ReplaceStands(a, replace, locked);
    var prep := if how.Clone? then CloneFrom(source, sourceStamp) else LinkFrom(source);
    var swapped, moved;
    swapped, moved, g := SwapIn(disk, temp, member, prep, a, lo, lo);
    r := if swapped.Done? then Done(None) else if moved then Done(Some(Changed)) else Fail(swapped.error);
  }

  lemma NothingYet(a: Fs, g: Goal, pid: nat, lo: nat, states: seq<Fs>)
    requires a.WellFormed()
    ensures forall hi :: a in Ways(a, g, pid, lo, hi)
    ensures states in Trails(|states|, a, g, pid, lo)
  {
    MidAtStart(a, g, pid, lo);
  }

  /** Every name of the group's inode is one of its paths, once. */
  lemma NamesAreThePaths(a: Fs, member: Inode)
    requires a.WellFormed() && Describes(a, member) && NoRepeat(member.paths)
    requires member.nlink == |member.paths| && forall p :: p in member.paths ==> p in a.names && a.names[p] == member.stamp.id
    ensures a.NamesOf(member.stamp.id) == set p | p in member.paths
  {
    var named := a.NamesOf(member.stamp.id);
    PathsCount(member.paths, |member.paths|);
    var listed := set p | p in member.paths;
    assert listed == set i | 0 <= i < |member.paths| :: member.paths[i];
    assert listed <= named && |listed| == |named|;
    SubsetOfSameSize(listed, named);
  }

  lemma {:induction false} PathsCount(paths: seq<Path>, k: nat)
    requires NoRepeat(paths) && k <= |paths|
    ensures |set i | 0 <= i < k :: paths[i]| == k
  {
    if k > 0 {
      PathsCount(paths, k - 1);
      var before := set i | 0 <= i < k - 1 :: paths[i];
      assert (set i | 0 <= i < k :: paths[i]) == before + {paths[k - 1]};
      assert paths[k - 1] !in before;
    }
  }

  lemma {:induction false} SubsetOfSameSize<T>(a: set<T>, b: set<T>)
    requires a <= b && |a| == |b|
    ensures a == b
  {
    if a != b {
      var x :| x in b && x !in a;
      SubsetIsSmaller(a, b - {x});
    }
  }

  lemma {:induction false} SubsetIsSmaller<T>(a: set<T>, b: set<T>)
    requires a <= b
    ensures |a| <= |b|
  {
    if a != {} {
      var x :| x in a;
      SubsetIsSmaller(a - {x}, b - {x});
    }
  }

  /** `b` names what `a` names, with every one of `paths` on `target`. */
  ghost predicate OnTarget(a: Fs, b: Fs, paths: seq<Path>, target: FileId) {
    && b.names.Keys == a.names.Keys
    && (forall p :: p in a.names && p in paths ==> b.names[p] == target)
    && (forall p :: p in a.names && p !in paths ==> b.names[p] == a.names[p])
  }

  lemma SwappedNames(a: Fs, r: Replace, locked: seq<Path>, pid: nat, lo: nat, hi: nat, b: Fs, g: Goal)
    requires a.WellFormed() && ReplaceOutcome(a, r, locked, pid, lo, hi, b, g, None) && NoRepeat(r.member.paths)
    ensures OnTarget(a, b, r.member.paths, g.target)
  {
    var paths := r.member.paths;
    ReplaceStands(a, r, locked);
    forall p | p in g.paths ensures p in a.names && a.names[p] != g.target {}
    JoinsLeaveNoTemp(a.names, g.paths, |g.paths|, g.target, pid, lo + 1);
    assert paths[..|paths|] == paths;
    forall p ensures p in b.names <==> p in a.names
             ensures p in a.names && p in paths ==> b.names[p] == g.target
             ensures p in a.names && p !in paths ==> b.names[p] == a.names[p] {
      MovedAt(a.names, paths, |paths|, g.target, p);
    }
  }

  lemma CountsAfterMove(a: Fs, b: Fs, paths: seq<Path>, id: FileId, target: FileId)
    requires a.WellFormed() && b.WellFormed() && OnTarget(a, b, paths, target) && NoRepeat(paths) && paths != []
    requires a.NamesOf(id) == (set p | p in paths) && id != target
    ensures id !in b.nodes && target in b.nodes
    ensures b.nodes[target].nlink == |a.NamesOf(target)| + |paths|
  {
    var listed := set p | p in paths;
    PathsCount(paths, |paths|);
    assert listed == set i | 0 <= i < |paths| :: paths[i];
    forall p | p in b.names ensures b.names[p] != id {
      assert p in a.NamesOf(id) <==> p in paths;
    }
    assert b.NamesOf(id) == {};
    assert paths[0] in listed && paths[0] in a.NamesOf(id) && b.names[paths[0]] == target;
    assert b.NamesOf(target) == a.NamesOf(target) + listed;
    assert a.NamesOf(target) !! listed;
  }

  /** A group swapped whole: no name is new and none is gone, all paths share one inode, the old one has no
      name left, and a clone has exactly the group's links. */
  lemma GroupIntegrity(a: Fs, r: Replace, locked: seq<Path>, pid: nat, lo: nat, hi: nat, b: Fs, g: Goal)
    requires a.WellFormed() && ReplaceOutcome(a, r, locked, pid, lo, hi, b, g, None)
    requires Describes(a, r.member) && NoRepeat(r.member.paths)
    ensures OnTarget(a, b, r.member.paths, g.target)
    ensures r.member.stamp.id !in b.nodes && g.target in b.nodes
    ensures b.nodes[g.target].nlink == |r.member.paths| + if r.how.Clone? then 0 else a.At(r.source).nlink
  {
    ReplaceStands(a, r, locked);
    SwappedNames(a, r, locked, pid, lo, hi, b, g);
    NamesAreThePaths(a, r.member);
    CountsAfterMove(a, b, r.member.paths, r.member.stamp.id, g.target);
    if r.how.Clone? {
      assert a.NamesOf(g.target) == {};
    } else {
      assert a.nodes[g.target].nlink == |a.NamesOf(g.target)|;
    }
  }

  /** A path listed twice is the one way a temp outlives a swap that succeeds. */
  lemma {:induction false} RepeatLeavesTemp(names: map<Path, FileId>, paths: seq<Path>, k: nat, target: FileId, pid: nat, n: nat,
                                            i: nat, j: nat)
    requires i < j < k <= |paths| && paths[i] == paths[j]
    requires paths != [] && forall p :: p in paths ==> p in names
    ensures TempOf(paths[j], pid, n + j - 1) in Joins(Moved(names, paths, 1, target), paths, k, target, pid, n)
  {
    if k > j + 1 {
      RepeatLeavesTemp(names, paths, k - 1, target, pid, n, i, j);
    } else {
      JoinedIsOnTarget(names, paths, j, target, pid, n, i);
    }
  }

  lemma {:induction false} JoinedIsOnTarget(names: map<Path, FileId>, paths: seq<Path>, k: nat, target: FileId, pid: nat, n: nat, i: nat)
    requires i < k <= |paths|
    ensures paths[i] in Joins(Moved(names, paths, 1, target), paths, k, target, pid, n)
    ensures Joins(Moved(names, paths, 1, target), paths, k, target, pid, n)[paths[i]] == target
  {
    if k == 1 {
      assert Moved(names, paths, 1, target) == names[paths[0] := target];
    } else if i < k - 1 {
      JoinedIsOnTarget(names, paths, k - 1, target, pid, n, i);
    }
  }

  lemma RepeatedTempIsNew(a: Fs, locked: seq<Path>, paths: seq<Path>, target: FileId, pid: nat, lo: nat)
    requires Workable(a, locked, pid, lo) && paths != [] && !NoRepeat(paths)
    requires forall p :: p in paths ==> p in a.names && LockedIn(p, locked)
    ensures exists t :: t !in a.names && t in Joins(Moved(a.names, paths, 1, target), paths, |paths|, target, pid, lo + 1)
  {
    var i, j :| 0 <= i < j < |paths| && paths[i] == paths[j];
    RepeatLeavesTemp(a.names, paths, |paths|, target, pid, lo + 1, i, j);
    WorkableIsUnused(a, locked, pid, lo, paths);
    var t := TempOf(paths[j], pid, lo + j);
    assert t !in a.names;
  }

  /** After a swap that succeeded a temp is left if and only if the group lists a path twice. */
  lemma LeftoverIffRepeated(a: Fs, r: Replace, locked: seq<Path>, pid: nat, lo: nat, hi: nat, b: Fs, g: Goal)
    requires a.WellFormed() && ReplaceOutcome(a, r, locked, pid, lo, hi, b, g, None)
    requires Workable(a, locked, pid, lo)
    ensures b.names.Keys == a.names.Keys <==> NoRepeat(r.member.paths)
  {
    ReplaceStands(a, r, locked);
    if NoRepeat(r.member.paths) {
      SwappedNames(a, r, locked, pid, lo, hi, b, g);
    } else {
      RepeatedTempIsNew(a, locked, r.member.paths, g.target, pid, lo);
    }
  }

  /** What the planning pass knew: `seen` is the scanned state its records are of. */
  ghost predicate Vouched(seen: Fs, r: Replace) {
    && Describes(seen, r.member)
    && r.sourceStamp.id in seen.nodes
    && r.sourceStamp == StampOf(r.sourceStamp.id, seen.nodes[r.sourceStamp.id])
    && seen.nodes[r.sourceStamp.id].bytes == seen.nodes[r.member.stamp.id].bytes
  }

  /** Every path of the group reads what the new inode will hold. */
  ghost predicate ReadsAs(a: Fs, paths: seq<Path>, g: Goal) {
    forall p :: p in paths ==> a.Has(p) && a.At(p).bytes == g.bytes && a.At(p).mode == g.mode && a.At(p).mtime == g.mtime
  }

  /** In every state a crash may leave, such a swap has changed nothing a build reads. */
  lemma SwapKeeps(a: Fs, pid: nat, lo: nat, s: Fs, g: Goal)
    requires a.WellFormed() && ReadsAs(a, g.paths, g) && Mid(a, s, g, pid, lo)
    ensures Kept(a, s, {}, g.exact)
  {
    forall p | a.Has(p) && !IsTemp(p)
      ensures s.Has(p) && SameFile(a.At(p), s.At(p), g.exact)
    {
      assert s.names[p] in s.nodes;
      if s.names[p] == a.names[p] {
        assert s.names[p] in a.ever;
      }
    }
  }

  /** Nor has any swap of a locked group touched a name outside the locked units. */
  lemma SwapIsConfined(a: Fs, locked: seq<Path>, pid: nat, lo: nat, s: Fs, g: Goal)
    requires a.WellFormed() && forall i :: 0 <= i < |locked| ==> locked[i] !in a.names
    requires forall p :: p in g.paths ==> p in a.names && LockedIn(p, locked)
    requires Mid(a, s, g, pid, lo)
    ensures Confined(a, s, locked, {})
    ensures NewAreTemps(a, s, locked, pid, lo)
  {
    forall p: Path | p in s.names && p !in a.names
      ensures OwnTemp(p, pid, lo) && LockedIn(p, locked)
    {
      assert Beside(p, g.paths, pid, lo);
      var q: Path :| q in g.paths && p == Sibling(q, p[|p| - 1]);
      TempIsBeside(q, locked, pid, p[|p| - 1].serial, a);
    }
  }

  lemma SwapStep(c: Rules, a: Fs, s: Fs, g: Goal)
    requires a.WellFormed() && forall i :: 0 <= i < |c.locked| ==> c.locked[i] !in a.names
    requires forall p :: p in g.paths ==> p in a.names && LockedIn(p, c.locked)
    requires c.exact ==> g.exact
    requires c.kept ==> ReadsAs(a, g.paths, g)
    requires Mid(a, s, g, c.pid, c.lo)
    ensures s in Steps(c, a, {})
  {
    SwapIsConfined(a, c.locked, c.pid, c.lo, s, g);
    if c.kept {
      SwapKeeps(a, c.pid, c.lo, s, g);
    }
  }

  lemma SwapHistory(c: Rules, a: Fs, states: seq<Fs>, from: nat, g: Goal)
    requires a.WellFormed() && forall i :: 0 <= i < |c.locked| ==> c.locked[i] !in a.names
    requires forall p :: p in g.paths ==> p in a.names && LockedIn(p, c.locked)
    requires c.exact ==> g.exact
    requires c.kept ==> ReadsAs(a, g.paths, g)
    requires states in Trails(from, a, g, c.pid, c.lo)
    ensures states in Histories(from, c, a, {})
  {
    forall i | from <= i < |states| ensures Step(c, a, states[i], {}) {
      assert Mid(a, states[i], g, c.pid, c.lo);
      SwapStep(c, a, states[i], g);
    }
  }

  lemma StaysWorkable(a: Fs, s: Fs, locked: seq<Path>, pid: nat, lo: nat, now: nat, hi: nat)
    requires Workable(a, locked, pid, now) && now <= hi
    requires NewAreTemps(a, s, locked, pid, lo) && TempsBelow(a, s, pid, hi)
    ensures Workable(s, locked, pid, hi)
  {
    forall i | 0 <= i < |locked| ensures locked[i] !in s.names {}
  }

  /** One replacement, applied or refused: `apply_replace`. All that it may have made of the disk, at the
      end and in every state before it, keeps the rules of a run. */
  method ApplyReplace(disk: Disk, replace: Replace, locked: seq<Path>, ghost seen: Fs, ghost c: Rules)
    returns (skip: Option<Skip>, ghost g: Goal)
    requires disk.Valid() && Workable(disk.fs, locked, disk.pid, disk.serial)
    requires c.locked == locked && c.pid == disk.pid && c.lo == disk.serial && (c.exact ==> replace.how.Clone?)
    requires c.kept ==> seen.WellFormed() && Stable(seen, disk.fs, false) && Vouched(seen, replace)
    modifies disk`fs, disk`states, disk`serial
    ensures disk.Valid() && Grown(old(disk.states), disk.states) && disk.serial >= old(disk.serial)
    ensures ReplaceOutcome(old(disk.fs), replace, locked, disk.pid, old(disk.serial), disk.serial, disk.fs, g, skip)
    ensures disk.states in Histories(|old(disk.states)|, c, old(disk.fs), {})
    ensures disk.fs in Steps(c, old(disk.fs), {})
    ensures Workable(disk.fs, locked, disk.pid, disk.serial)
    ensures skip == ReplaceSkip(old(disk.fs), replace, locked) || (skip.Some? && (skip.value.Busy? || skip.value.Failed?))
    ensures FilesThere(old(disk.fs), replace) && !disk.faulty ==> skip == ReplaceSkip(old(disk.fs), replace, locked)
  {
    ghost var a := disk.fs;
    var r;
    r, g := TryReplace(disk, replace, locked);
    skip := if r.Done? then r.value else Some(FailedAs(r.error));
    StepAtStart(c, a, {});
    if ReplaceSkip(a, replace, locked).None? {
      ReplaceStands(a, replace, locked);
      if c.kept {
        VouchedReads(seen, a, replace, locked, g);
      }
      SwapHistory(c, a, disk.states, |old(disk.states)|, g);
      SwapStep(c, a, disk.fs, g);
      SwapIsConfined(a, locked, disk.pid, c.lo, disk.fs, g);
      StaysWorkable(a, disk.fs, locked, disk.pid, c.lo, c.lo, disk.serial);
    }
  }

  lemma VouchedReads(seen: Fs, a: Fs, r: Replace, locked: seq<Path>, g: Goal)
    requires seen.WellFormed() && a.WellFormed() && Stable(seen, a, false) && Vouched(seen, r)
    requires ReplaceSkip(a, r, locked).None?
    requires g == Goal(r.member.paths, g.target, SourceBytes(a, r), r.member.stamp.mtime, r.member.mode, g.exact, g.compressed)
    ensures ReadsAs(a, g.paths, g)
  {
    ReplaceStands(a, r, locked);
    forall p | p in g.paths
      ensures a.Has(p) && a.At(p).bytes == g.bytes && a.At(p).mode == g.mode && a.At(p).mtime == g.mtime
    {
      assert Stands(a, p, r.member.stamp);
    }
  }
}
