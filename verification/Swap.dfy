/** Putting a new inode at every path of a group (`swap_in` and its callees in `src/engine.rs`). */
module Swap {
  import opened Order
  import opened Paths
  import opened Files
  import opened Model
  import opened Preserve

  /** What a swap is to put at `paths`: the inode `target`, with these bytes, mtime and mode, and if `compressed` says so,
      compressed. */
  datatype Goal = Goal(paths: seq<Path>, target: FileId, bytes: Bytes, mtime: int, mode: nat, exact: bool, compressed: bool)

  ghost predicate Holds(node: Node, g: Goal) {
    && node.bytes == g.bytes
    && node.mode == g.mode
    && node.mtime >= g.mtime
    && (g.exact ==> node.mtime == g.mtime)
    && (g.compressed ==> node.flags.compressed)
  }

  /** A temp of this process beside one of `paths`. */
  ghost predicate Beside(p: Path, paths: seq<Path>, pid: nat, lo: nat) {
    OwnTemp(p, pid, lo) && exists q :: q in paths && p == Sibling(q, p[|p| - 1])
  }

  /** No inode but `id` changes its age. */
  ghost predicate AgedOnly(a: Fs, s: Fs, id: FileId) {
    forall i :: i in s.nodes && i in a.nodes && i != id ==> s.nodes[i].mtime == a.nodes[i].mtime
  }

  /** `s` is somewhere on the way of a swap that began in `a`: every name is still there, each path
      of the group is on its old inode or on the one new one, that one is complete, and whatever is
      new is a temp beside the group. */
  ghost predicate Mid(a: Fs, s: Fs, g: Goal, pid: nat, lo: nat) {
    && s.WellFormed()
    && (forall p :: p in a.names ==>
          p in s.names && (s.names[p] == a.names[p] || (p in g.paths && s.names[p] == g.target)))
    && (forall p :: p in s.names && p !in a.names ==> Beside(p, g.paths, pid, lo))
    && Stable(a, s, g.exact)
    && (!g.exact ==> AgedOnly(a, s, g.target))
    && (forall p :: p in g.paths && p in a.names && s.names[p] == g.target && a.names[p] != g.target ==>
          Holds(s.nodes[g.target], g))
  }

  /** Every new name carries a serial already used. */
  ghost predicate TempsBelow(a: Fs, s: Fs, pid: nat, hi: nat) {
    forall p :: p in s.names && p !in a.names ==> Numbered(p, pid, 0, hi)
  }

  /** No name beside `paths` is one the counter will still come to. */
  ghost predicate Unused(fs: Fs, paths: seq<Path>, pid: nat, serial: nat) {
    forall q, n: nat :: q in paths && n >= serial ==> TempOf(q, pid, n) !in fs.names
  }

  /** `a` with its one new name `temp`. A name that is not a new file's is one of the source. */
  ghost predicate Staged(a: Fs, s: Fs, temp: Path, exact: bool, source: FileId) {
    && s.WellFormed()
    && temp !in a.names && temp in s.names
    && s.names == a.names[temp := s.names[temp]]
    && Stable(a, s, exact)
    && (!exact ==> s.names[temp] == source && AgedOnly(a, s, source))
  }

  ghost function SourceId(a: Fs, source: Path): FileId {
    if a.Has(source) then a.names[source] else FileId(0, 0)
  }

  /** The names once the first `k` of `paths` are on `target`. */
  function Moved(names: map<Path, FileId>, paths: seq<Path>, k: nat, target: FileId): map<Path, FileId>
    requires k <= |paths|
  {
    if k == 0 then names else Moved(names, paths, k - 1, target)[paths[k - 1] := target]
  }

  lemma {:induction false} MovedAt(names: map<Path, FileId>, paths: seq<Path>, k: nat, target: FileId, p: Path)
    requires k <= |paths|
    ensures p in Moved(names, paths, k, target) <==> p in names || p in paths[..k]
    ensures p in paths[..k] ==> Moved(names, paths, k, target)[p] == target
    ensures p in names && p !in paths[..k] ==> Moved(names, paths, k, target)[p] == names[p]
  {
    if k > 0 {
      MovedAt(names, paths, k - 1, target, p);
      assert paths[..k] == paths[..k - 1] + [paths[k - 1]];
    }
  }

  lemma StagedIsMid(a: Fs, s: Fs, g: Goal, pid: nat, lo: nat, q: Path, n: nat)
    requires Staged(a, s, TempOf(q, pid, n), g.exact, g.target)
    requires q in g.paths && n >= lo
    ensures Mid(a, s, g, pid, lo)
  {}

  lemma RenameKeepsMid(a: Fs, s: Fs, g: Goal, pid: nat, lo: nat, temp: Path, p: Path)
    requires Mid(a, s, g, pid, lo)
    requires temp in s.names && temp !in a.names && s.names[temp] == g.target && Holds(s.nodes[g.target], g)
    requires p in g.paths && p in a.names
    ensures Mid(a, s.Rename(temp, p), g, pid, lo)
    ensures s.Rename(temp, p).names[p] == g.target && Holds(s.Rename(temp, p).nodes[g.target], g)
  {
    RenameWellFormed(s, temp, p);
    var r := s.Rename(temp, p);
    if s.names[p] != g.target {
      forall q | q in a.names
        ensures q in r.names && (r.names[q] == a.names[q] || (q in g.paths && r.names[q] == g.target))
      {
        assert q != temp;
      }
      forall id | id in r.nodes ensures id in s.nodes && r.nodes[id] == s.nodes[id].(nlink := r.nodes[id].nlink) {}
    }
  }

  lemma UnlinkIsStable(a: Fs, s: Fs, exact: bool, temp: Path)
    requires Stable(a, s, exact) && s.Has(temp)
    ensures Stable(a, s.Unlink(temp), exact)
  {
    var r := s.Unlink(temp);
    forall id | id in r.nodes ensures id in s.nodes && r.nodes[id] == s.nodes[id].(nlink := r.nodes[id].nlink) {}
  }

  lemma UnlinkKeepsMid(a: Fs, s: Fs, g: Goal, pid: nat, lo: nat, temp: Path)
    requires Mid(a, s, g, pid, lo)
    requires temp in s.names && temp !in a.names
    ensures Mid(a, s.Unlink(temp), g, pid, lo)
  {
    var r := s.Unlink(temp);
    UnlinkIsStable(a, s, g.exact, temp);
    assert r.WellFormed() by { UnlinkWellFormed(s, temp); }
    forall p | p in g.paths && p in a.names && r.names[p] == g.target && a.names[p] != g.target
      ensures Holds(r.nodes[g.target], g)
    {
      assert r.names[p] in r.nodes;
    }
  }

  lemma LinkKeepsMid(a: Fs, s: Fs, g: Goal, pid: nat, lo: nat, from: Path, q: Path, n: nat)
    requires Mid(a, s, g, pid, lo)
    requires from in s.names && q in g.paths && n >= lo && TempOf(q, pid, n) !in s.names
    requires g.exact ==> s.names[from] !in a.ever
    ensures Mid(a, s.Link(from, TempOf(q, pid, n)), g, pid, lo)
  {
    LinkWellFormed(s, from, TempOf(q, pid, n));
  }

  lemma NextTempIsFree(a: Fs, s: Fs, q: Path, paths: seq<Path>, pid: nat, n: nat)
    requires Unused(a, paths, pid, n) && q in paths
    requires TempsBelow(a, s, pid, n)
    ensures TempOf(q, pid, n) !in s.names
  {}

  ghost predicate AllStaged(states: seq<Fs>, from: nat, a: Fs, temp: Path, exact: bool, source: FileId) {
    forall i :: from <= i < |states| ==> Staged(a, states[i], temp, exact, source)
  }

  ghost predicate AllCreated(states: seq<Fs>, from: nat, a: Fs, temp: Path) {
    forall i :: from <= i < |states| ==> Created(a, states[i], temp) && states[i].WellFormed()
  }

  lemma CreatedTrace(states: seq<Fs>, from: nat, a: Fs, temp: Path, source: FileId)
    requires AllCreated(states, from, a, temp)
    ensures AllStaged(states, from, a, temp, true, source)
  {}

  /** How the inode for a group's paths comes to be at the temp: the closures of `swap_in`. */
  datatype Prepare =
    | CloneFrom(source: Path, sourceStamp: Stamp)
    | LinkFrom(source: Path)
    | Restore

  lemma CreatedRewrite(a: Fs, s: Fs, temp: Path, node: Node)
    requires Created(a, s, temp)
    ensures Created(a, s.Rewrite(temp, node), temp)
    ensures s.Rewrite(temp, node).At(temp) == node.(nlink := 1)
    ensures s.Rewrite(temp, node).names == s.names
  {
    var r := s.Rewrite(temp, node);
    assert r.nodes == a.Create(temp, s.names[temp], node).nodes;
  }

  /** Times first, then the mode. */
  method RestoreMeta(disk: Disk, temp: Path, member: Inode, ghost a: Fs) returns (r: Io<()>)
    requires disk.Valid() && Created(a, disk.fs, temp)
    modifies disk`fs, disk`states
    ensures disk.Valid() && Grown(old(disk.states), disk.states)
    ensures Created(a, disk.fs, temp) && disk.fs.At(temp).bytes == old(disk.fs).At(temp).bytes
    ensures disk.fs.At(temp).flags == old(disk.fs).At(temp).flags
    ensures disk.fs.names == old(disk.fs).names
    ensures AllCreated(disk.states, |old(disk.states)|, a, temp)
    ensures r.Done? ==> disk.fs.At(temp).mtime == member.stamp.mtime && disk.fs.At(temp).mode == member.mode
    ensures !disk.faulty ==> r.Done?
  {
    ghost var first := disk.fs;
    CreatedRewrite(a, first, temp, first.At(temp).(mtime := member.stamp.mtime));
    var _ :- disk.SetMtime(temp, member.stamp.mtime);
    ghost var second := disk.fs;
    CreatedRewrite(a, second, temp, second.At(temp).(mode := member.mode));
    r := disk.SetMode(temp, member.mode);
  }

  /** What the prepared inode will hold, told from the state `a` before the temp was made. */
  ghost function PreparedBytes(prep: Prepare, a: Fs, fs: Fs, temp: Path): Bytes {
    match prep
    case CloneFrom(source, _) => if a.Has(source) then a.At(source).bytes else []
    case LinkFrom(source) => if a.Has(source) then a.At(source).bytes else []
    case Restore => if fs.Has(temp) then fs.At(temp).bytes else []
  }

  ghost predicate PreparedCompressed(prep: Prepare, fs: Fs, temp: Path) {
    prep.Restore? && fs.Has(temp) && fs.At(temp).flags.compressed
  }

  /** The one inode whose age the preparation may change. */
  ghost function PreparedId(prep: Prepare, a: Fs): FileId {
    if prep.LinkFrom? then SourceId(a, prep.source) else FileId(0, 0)
  }

  /** The source is there, and for a clone it is the version that was planned. */
  ghost predicate SourceStands(prep: Prepare, a: Fs) {
    match prep
    case CloneFrom(source, stamp) => a.Has(source) && stamp == StampOf(a.names[source], a.At(source))
    case LinkFrom(source) => a.Has(source)
    case Restore => true
  }

  method CloneAs(disk: Disk, source: Path, temp: Path, member: Inode) returns (r: Io<()>)
    requires disk.Valid() && temp !in disk.fs.names
    modifies disk`fs, disk`states
    ensures disk.Valid() && Grown(old(disk.states), disk.states)
    ensures AllCreated(disk.states, |old(disk.states)|, old(disk.fs), temp)
    ensures disk.fs == old(disk.fs) || Created(old(disk.fs), disk.fs, temp)
    ensures r.Done? ==> Created(old(disk.fs), disk.fs, temp) && old(disk.fs).Has(source)
    ensures r.Done? ==> disk.fs.At(temp).bytes == old(disk.fs).At(source).bytes
    ensures r.Done? ==> disk.fs.At(temp).mtime == member.stamp.mtime && disk.fs.At(temp).mode == member.mode
    ensures r.Done? ==> disk.fs.names[temp].dev == old(disk.fs).names[source].dev
    ensures !disk.faulty && source in old(disk.fs).names ==> r.Done?
  {
    ghost var a := disk.fs;
    var _ :- disk.CloneFile(source, temp);
    r := RestoreMeta(disk, temp, member, a);
  }

  /** A hardlink; the shared inode keeps the later of the two mtimes. */
  method LinkAs(disk: Disk, source: Path, temp: Path, member: Inode) returns (r: Io<()>)
    requires disk.Valid() && temp !in disk.fs.names
    modifies disk`fs, disk`states
    ensures disk.Valid() && Grown(old(disk.states), disk.states)
    ensures AllStaged(disk.states, |old(disk.states)|, old(disk.fs), temp, false, SourceId(old(disk.fs), source))
    ensures disk.fs == old(disk.fs) || Staged(old(disk.fs), disk.fs, temp, false, SourceId(old(disk.fs), source))
    ensures r.Done? ==> Staged(old(disk.fs), disk.fs, temp, false, SourceId(old(disk.fs), source)) && old(disk.fs).Has(source)
    ensures r.Done? ==> disk.fs.names[temp] == old(disk.fs).names[source]
    ensures r.Done? ==> var mtime := old(disk.fs).At(source).mtime;
                        disk.fs.At(temp).mtime == if member.stamp.mtime > mtime then member.stamp.mtime else mtime
    ensures !disk.faulty && source in old(disk.fs).names ==> r.Done?
  {
    var _ :- disk.HardLink(source, temp);
    var meta :- disk.Stat(temp);
    r := Done(());
    if member.stamp.mtime > meta.node.mtime {
      r := disk.SetMtime(temp, member.stamp.mtime);
    }
  }

  /** Leaves at `temp` the inode a group is to be put on. The second result says whether the source of
      a clone was found changed after the copy. */
  method RunPrepare(disk: Disk, temp: Path, member: Inode, prep: Prepare, ghost a: Fs)
    returns (r: Io<()>, moved: bool)
    requires disk.Valid() && a.WellFormed()
    requires if prep.Restore? then Created(a, disk.fs, temp) else disk.fs == a && temp !in a.names
    requires prep.LinkFrom? && a.Has(prep.source) ==> a.At(prep.source).mode == member.mode
    modifies disk`fs, disk`states
    ensures disk.Valid() && Grown(old(disk.states), disk.states)
    ensures AllStaged(disk.states, |old(disk.states)|, a, temp, !prep.LinkFrom?, PreparedId(prep, a))
    ensures disk.fs == a || Staged(a, disk.fs, temp, !prep.LinkFrom?, PreparedId(prep, a))
    ensures r.Done? ==> Staged(a, disk.fs, temp, !prep.LinkFrom?, PreparedId(prep, a)) && !moved
    ensures r.Done? ==> if prep.LinkFrom? then a.Has(prep.source) && disk.fs.names[temp] == a.names[prep.source]
                        else disk.fs.names[temp] !in a.ever
    ensures r.Done? && !prep.Restore? ==> a.Has(prep.source) && disk.fs.names[temp].dev == a.names[prep.source].dev
    ensures r.Done? ==> Holds(disk.fs.At(temp), Goal(member.paths, disk.fs.names[temp],
                              PreparedBytes(prep, a, old(disk.fs), temp), member.stamp.mtime, member.mode, !prep.LinkFrom?,
                              PreparedCompressed(prep, old(disk.fs), temp)))
    ensures !disk.faulty && SourceStands(prep, a) ==> r.Done?
    ensures SourceStands(prep, a) ==> !moved
  {
    moved := false;
    match prep {
      case CloneFrom(source, sourceStamp) =>
        r := CloneAs(disk, source, temp, member);
        CreatedTrace(disk.states, |old(disk.states)|, a, temp, PreparedId(prep, a));
        if r.Done? {
          var still := ReadStamp(disk, source);
          if still.Fail? {
            r := Fail(still.error);
          } else if still.value != sourceStamp {
            moved := true;
            r := Fail(Other(0));
          }
        }
      case LinkFrom(source) =>
        r := LinkAs(disk, source, temp, member);
      case Restore =>
        r := RestoreMeta(disk, temp, member, a);
        CreatedTrace(disk.states, |old(disk.states)|, a, temp, PreparedId(prep, a));
    }
  }

  /** Every state from `from` on is on the way of the swap. */
  ghost predicate AllMid(states: seq<Fs>, from: nat, a: Fs, g: Goal, pid: nat, lo: nat) {
    forall i :: from <= i < |states| ==> Mid(a, states[i], g, pid, lo)
  }

  /** A state a swap of `g` may be in, with every temp made so far numbered below `hi`. */
  ghost predicate OnTheWay(a: Fs, s: Fs, g: Goal, pid: nat, lo: nat, hi: nat) {
    Mid(a, s, g, pid, lo) && TempsBelow(a, s, pid, hi)
  }

  /** The states a swap of `g` that began in `a` may be in. */
  ghost function Ways(a: Fs, g: Goal, pid: nat, lo: nat, hi: nat): iset<Fs> {
    iset s: Fs | OnTheWay(a, s, g, pid, lo, hi)
  }

  /** The histories that from `from` on hold nothing else. */
  ghost function Trails(from: nat, a: Fs, g: Goal, pid: nat, lo: nat): iset<seq<Fs>> {
    iset states: seq<Fs> | AllMid(states, from, a, g, pid, lo)
  }

  lemma StagedTrace(states: seq<Fs>, from: nat, a: Fs, g: Goal, pid: nat, lo: nat, q: Path, n: nat, source: FileId)
    requires AllStaged(states, from, a, TempOf(q, pid, n), g.exact, source) && q in g.paths && n >= lo
    requires g.exact || g.target == source
    ensures states in Trails(from, a, g, pid, lo)
  {
    forall i | from <= i < |states| ensures Mid(a, states[i], g, pid, lo) {
      StagedIsMid(a, states[i], g, pid, lo, q, n);
    }
  }

  lemma TraceOneMore(states: seq<Fs>, from: nat, s: Fs, a: Fs, g: Goal, pid: nat, lo: nat, hi: nat)
    requires states in Trails(from, a, g, pid, lo) && s in Ways(a, g, pid, lo, hi)
    ensures states + [s] in Trails(from, a, g, pid, lo)
  {}

  lemma TraceJoin(states: seq<Fs>, more: seq<Fs>, from: nat, a: Fs, g: Goal, pid: nat, lo: nat)
    requires states in Trails(from, a, g, pid, lo) && Grown(states, more) && more in Trails(|states|, a, g, pid, lo)
    ensures more in Trails(from, a, g, pid, lo)
  {
    forall i | from <= i < |more| ensures Mid(a, more[i], g, pid, lo) {
      assert i < |states| ==> more[i] == states[i];
    }
  }

  lemma MidAtStart(a: Fs, g: Goal, pid: nat, lo: nat)
    requires a.WellFormed()
    ensures Mid(a, a, g, pid, lo)
  {}

  lemma StagedTempsBelow(a: Fs, s: Fs, g: Goal, q: Path, pid: nat, n: nat, hi: nat)
    requires Staged(a, s, TempOf(q, pid, n), g.exact, g.target) && n < hi
    ensures TempsBelow(a, s, pid, hi)
  {}

  lemma StagedRename(a: Fs, s: Fs, g: Goal, temp: Path, paths: seq<Path>)
    requires Staged(a, s, temp, g.exact, g.target) && s.names[temp] == g.target && |paths| > 0
    requires paths[0] in a.names && a.names[paths[0]] != g.target
    ensures s.Rename(temp, paths[0]).names == Moved(a.names, paths, 1, g.target)
  {
  }

  lemma StagedUnlink(a: Fs, s: Fs, temp: Path, g: Goal)
    requires Staged(a, s, temp, g.exact, g.target)
    ensures s.Unlink(temp).names == a.names
  {}

  /** A staged temp, renamed over the first path or removed again. */
  lemma StagedWays(a: Fs, s: Fs, g: Goal, pid: nat, lo: nat, n: nat, hi: nat)
    requires a.WellFormed() && g.paths != [] && lo <= n < hi
    requires Staged(a, s, TempOf(g.paths[0], pid, n), g.exact, g.target)
    ensures s in Ways(a, g, pid, lo, hi)
    ensures s.Unlink(TempOf(g.paths[0], pid, n)) in Ways(a, g, pid, lo, hi)
  {
    var temp := TempOf(g.paths[0], pid, n);
    StagedIsMid(a, s, g, pid, lo, g.paths[0], n);
    StagedTempsBelow(a, s, g, g.paths[0], pid, n, hi);
    StagedUnlink(a, s, temp, g);
    UnlinkKeepsMid(a, s, g, pid, lo, temp);
  }

  lemma StagedRenameWays(a: Fs, s: Fs, g: Goal, pid: nat, lo: nat, n: nat, hi: nat)
    requires a.WellFormed() && g.paths != [] && lo <= n < hi
    requires Staged(a, s, TempOf(g.paths[0], pid, n), g.exact, g.target)
    requires s.names[TempOf(g.paths[0], pid, n)] == g.target && Holds(s.nodes[g.target], g)
    requires g.paths[0] in a.names && a.names[g.paths[0]] != g.target
    ensures var r := s.Rename(TempOf(g.paths[0], pid, n), g.paths[0]);
            && r in Ways(a, g, pid, lo, hi)
            && r.names == Moved(a.names, g.paths, 1, g.target)
            && g.target in r.nodes && Holds(r.nodes[g.target], g)
  {
    var temp := TempOf(g.paths[0], pid, n);
    StagedIsMid(a, s, g, pid, lo, g.paths[0], n);
    StagedRename(a, s, g, temp, g.paths);
    RenameKeepsMid(a, s, g, pid, lo, temp, g.paths[0]);
  }

  /** `let _ = fs::remove_file(temp)`: a temp that cannot be removed stays. */
  method DiscardTemp(disk: Disk, temp: Path, ghost a: Fs, ghost g: Goal, ghost lo: nat, ghost n: nat)
    requires disk.Valid() && a.WellFormed() && g.paths != []
    requires temp == TempOf(g.paths[0], disk.pid, n) && temp !in a.names
    requires disk.fs == a || Staged(a, disk.fs, temp, g.exact, g.target)
    requires lo <= n < disk.serial
    modifies disk`fs, disk`states
    ensures disk.Valid() && Grown(old(disk.states), disk.states)
    ensures disk.states in Trails(|old(disk.states)|, a, g, disk.pid, lo)
    ensures disk.fs in Ways(a, g, disk.pid, lo, disk.serial)
  {
    ghost var s := disk.fs;
    MidAtStart(a, g, disk.pid, lo);
    if s != a {
      StagedWays(a, s, g, disk.pid, lo, n, disk.serial);
    }
    var _ := disk.RemoveFile(temp);
  }

  /** `rename_over` for the first path of a group: prepares `temp`, renames it over the path, and
      removes it when either fails. */
  method RenameFirst(disk: Disk, temp: Path, member: Inode, prep: Prepare, ghost a: Fs, ghost lo: nat, ghost n: nat)
    returns (r: Io<()>, moved: bool, ghost g: Goal)
    requires disk.Valid() && a.WellFormed()
    requires if prep.Restore? then Created(a, disk.fs, temp) else disk.fs == a && temp !in a.names
    requires prep.LinkFrom? && a.Has(prep.source) ==> a.At(prep.source).mode == member.mode
    requires member.paths != [] && temp == TempOf(member.paths[0], disk.pid, n) && lo <= n < disk.serial
    requires member.paths[0] in a.names
    requires prep.LinkFrom? && a.Has(prep.source) ==> a.names[member.paths[0]] != a.names[prep.source]
    modifies disk`fs, disk`states
    ensures disk.Valid() && Grown(old(disk.states), disk.states)
    ensures g == Goal(member.paths, g.target, PreparedBytes(prep, a, old(disk.fs), temp), member.stamp.mtime,
                      member.mode, !prep.LinkFrom?, PreparedCompressed(prep, old(disk.fs), temp))
    ensures disk.states in Trails(|old(disk.states)|, a, g, disk.pid, lo)
    ensures disk.fs in Ways(a, g, disk.pid, lo, disk.serial)
    ensures r.Done? ==> disk.fs.names == Moved(a.names, member.paths, 1, g.target)
    ensures r.Done? ==> g.target in disk.fs.nodes && Holds(disk.fs.nodes[g.target], g) && !moved
    ensures r.Done? ==> if prep.LinkFrom? then a.Has(prep.source) && g.target == a.names[prep.source] else g.target !in a.ever
    ensures r.Done? && !prep.Restore? ==> a.Has(prep.source) && g.target.dev == a.names[prep.source].dev
    ensures !disk.faulty && SourceStands(prep, a) ==> r.Done?
    ensures SourceStands(prep, a) ==> !moved
    ensures prep.LinkFrom? ==> g.target == SourceId(a, prep.source)
  {
    var first := member.paths[0];
    ghost var bytes, compressed := PreparedBytes(prep, a, disk.fs, temp), PreparedCompressed(prep, disk.fs, temp);
    r, moved := RunPrepare(disk, temp, member, prep, a);
    ghost var target := if !prep.LinkFrom? && temp in disk.fs.names then disk.fs.names[temp] else PreparedId(prep, a);
    g := Goal(member.paths, target, bytes, member.stamp.mtime, member.mode, !prep.LinkFrom?, compressed);
    ghost var from, staged := |old(disk.states)|, disk.states;
    StagedTrace(staged, from, a, g, disk.pid, lo, first, n, PreparedId(prep, a));
    ghost var s := disk.fs;
    if r.Done? {
      StagedRenameWays(a, s, g, disk.pid, lo, n, disk.serial);
      r := disk.Rename(temp, first);
      if r.Done? {
        TraceOneMore(staged, from, disk.fs, a, g, disk.pid, lo, disk.serial);
        return;
      }
    }
    DiscardTemp(disk, temp, a, g, lo, n);
    TraceJoin(staged, disk.states, from, a, g, disk.pid, lo);
  }

  /** The names after one more path was joined. A path that is on the target already, since it was
      listed twice, keeps the temp: renaming one name of a file over another does nothing. */
  function Joined(names: map<Path, FileId>, target: FileId, path: Path, temp: Path): map<Path, FileId> {
    if path in names && names[path] == target then names[temp := target] else names[path := target]
  }

  lemma LinkedTempsBelow(a: Fs, s: Fs, from: Path, q: Path, pid: nat, n: nat)
    requires s.Has(from) && TempsBelow(a, s, pid, n)
    ensures TempsBelow(a, s.Link(from, TempOf(q, pid, n)), pid, n + 1)
  {}

  lemma TempsBelowMore(a: Fs, s: Fs, t: Fs, pid: nat, hi: nat, more: nat)
    requires TempsBelow(a, s, pid, hi) && hi <= more && t.names.Keys <= s.names.Keys
    ensures TempsBelow(a, t, pid, more)
  {}

  lemma LinkThenRename(s: Fs, from: Path, temp: Path, path: Path)
    requires s.WellFormed() && from in s.names && temp !in s.names && path in s.names
    ensures s.names[path] != s.names[from] ==>
              s.Link(from, temp).Rename(temp, path).names == s.names[path := s.names[from]]
    ensures s.names[path] == s.names[from] ==> s.Link(from, temp).Rename(temp, path) == s.Link(from, temp)
    ensures from in s.Link(from, temp).Rename(temp, path).names
    ensures s.Link(from, temp).Rename(temp, path).names[from] == s.names[from]
  {}

  /** `rename_over` for a further path of a group: a hardlink of the first at a temp, renamed over it.
      The states are told one by one: linked, then renamed, or the temp removed again. */
  method JoinNext(disk: Disk, first: Path, path: Path) returns (r: Io<()>)
    requires disk.Valid() && disk.fs.Has(first) && path in disk.fs.names
    requires TempOf(path, disk.pid, disk.serial) !in disk.fs.names
    modifies disk`fs, disk`states, disk`serial
    ensures disk.Valid() && Grown(old(disk.states), disk.states) && disk.serial == old(disk.serial) + 1
    ensures var s, temp := old(disk.fs), TempOf(path, disk.pid, old(disk.serial));
            JoinOutcome(s, first, temp, path, disk.fs, old(disk.states), disk.states, r.Done?)
    ensures !disk.faulty ==> r.Done?
  {
    ghost var s := disk.fs;
    var temp := disk.SiblingTemp(path);
    assert path != temp;
    r := disk.HardLink(first, temp);
    if r.Done? {
      r := disk.Rename(temp, path);
    }
    if r.Fail? {
      var _ := disk.RemoveFile(temp);
    }
  }

  ghost predicate JoinOutcome(s: Fs, first: Path, temp: Path, path: Path, after: Fs, states: seq<Fs>, more: seq<Fs>, done: bool)
    requires s.Has(first) && temp !in s.names && path in s.names && s.WellFormed()
  {
    var linked := s.Link(first, temp);
    if done then after == linked.Rename(temp, path) && more == states + [linked] + [after]
    else
      || (after == s && more == states)
      || (after == linked && more == states + [linked])
      || (after == linked.Unlink(temp) && more == states + [linked] + [after])
  }

  lemma LinkedOnTheWay(a: Fs, s: Fs, g: Goal, pid: nat, lo: nat, from: Path, path: Path, n: nat)
    requires a.WellFormed() && s in Ways(a, g, pid, lo, n) && n >= lo && Unused(a, g.paths, pid, n)
    requires from in s.names && path in g.paths && path in a.names
    requires g.exact ==> s.names[from] !in a.ever
    ensures TempOf(path, pid, n) !in s.names
    ensures s in Ways(a, g, pid, lo, n + 1)
    ensures s.Link(from, TempOf(path, pid, n)) in Ways(a, g, pid, lo, n + 1)
  {
    NextTempIsFree(a, s, path, g.paths, pid, n);
    assert path in s.names;
    TempsBelowMore(a, s, s, pid, n, n + 1);
    LinkKeepsMid(a, s, g, pid, lo, from, path, n);
    LinkedTempsBelow(a, s, from, path, pid, n);
  }

  lemma UnlinkedOnTheWay(a: Fs, s: Fs, g: Goal, pid: nat, lo: nat, temp: Path, hi: nat)
    requires s in Ways(a, g, pid, lo, hi) && temp in s.names && temp !in a.names
    ensures s.Unlink(temp) in Ways(a, g, pid, lo, hi)
  {
    UnlinkKeepsMid(a, s, g, pid, lo, temp);
    TempsBelowMore(a, s, s.Unlink(temp), pid, hi, hi);
  }

  lemma RenamedOnTheWay(a: Fs, s: Fs, g: Goal, pid: nat, lo: nat, temp: Path, path: Path, hi: nat)
    requires s in Ways(a, g, pid, lo, hi) && temp in s.names && temp !in a.names
    requires s.names[temp] == g.target && Holds(s.nodes[g.target], g)
    requires path in g.paths && path in a.names
    ensures s.Rename(temp, path) in Ways(a, g, pid, lo, hi)
    ensures g.target in s.Rename(temp, path).nodes && Holds(s.Rename(temp, path).nodes[g.target], g)
  {
    RenameKeepsMid(a, s, g, pid, lo, temp, path);
    TempsBelowMore(a, s, s.Rename(temp, path), pid, hi, hi);
  }

  /** Whatever comes of joining a path, the swap stays on its way. */
  lemma JoinOnTheWay(a: Fs, s: Fs, g: Goal, pid: nat, lo: nat, first: Path, path: Path, n: nat, after: Fs,
                     states: seq<Fs>, more: seq<Fs>, from: nat, done: bool)
    requires a.WellFormed() && s in Ways(a, g, pid, lo, n) && n >= lo && Unused(a, g.paths, pid, n)
    requires first in s.names && s.names[first] == g.target && Holds(s.nodes[g.target], g)
    requires g.exact ==> g.target !in a.ever
    requires path in g.paths && path in a.names
    requires TempOf(path, pid, n) !in s.names
    requires JoinOutcome(s, first, TempOf(path, pid, n), path, after, states, more, done)
    requires states in Trails(from, a, g, pid, lo)
    ensures after in Ways(a, g, pid, lo, n + 1)
    ensures more in Trails(from, a, g, pid, lo)
    ensures done ==> after.names == Joined(s.names, g.target, path, TempOf(path, pid, n))
    ensures done ==> after.Has(first) && after.names[first] == g.target && Holds(after.nodes[g.target], g)
  {
    var temp := TempOf(path, pid, n);
    LinkedOnTheWay(a, s, g, pid, lo, first, path, n);
    if more != states {
      var linked := s.Link(first, temp);
      assert temp !in a.names;
      TraceOneMore(states, from, linked, a, g, pid, lo, n + 1);
      RenamedOnTheWay(a, linked, g, pid, lo, temp, path, n + 1);
      UnlinkedOnTheWay(a, linked, g, pid, lo, temp, n + 1);
      LinkThenRename(s, first, temp, path);
      if after != linked || done {
        TraceOneMore(states + [linked], from, after, a, g, pid, lo, n + 1);
      }
    }
  }

  ghost predicate NoRepeat(paths: seq<Path>) {
    forall i, j :: 0 <= i < j < |paths| ==> paths[i] != paths[j]
  }

  /** The names once all of the first `k` paths are joined, the temps numbered from `n`. */
  function Joins(names: map<Path, FileId>, paths: seq<Path>, k: nat, target: FileId, pid: nat, n: nat): map<Path, FileId>
    requires 1 <= k <= |paths|
  {
    if k == 1 then names
    else Joined(Joins(names, paths, k - 1, target, pid, n), target, paths[k - 1], TempOf(paths[k - 1], pid, n + k - 2))
  }

  lemma JoinsNext(names: map<Path, FileId>, paths: seq<Path>, k: nat, target: FileId, pid: nat, n: nat, serial: nat)
    requires 1 <= k < |paths| && serial == n + k - 1
    ensures Joins(names, paths, k + 1, target, pid, n) ==
            Joined(Joins(names, paths, k, target, pid, n), target, paths[k], TempOf(paths[k], pid, serial))
  {}

  /** With no path listed twice no temp stays. */
  lemma {:induction false} JoinsLeaveNoTemp(names: map<Path, FileId>, paths: seq<Path>, k: nat, target: FileId, pid: nat, n: nat)
    requires 1 <= k <= |paths| && NoRepeat(paths)
    requires forall p :: p in paths ==> p in names && names[p] != target
    ensures Joins(Moved(names, paths, 1, target), paths, k, target, pid, n) == Moved(names, paths, k, target)
  {
    if k > 1 {
      JoinsLeaveNoTemp(names, paths, k - 1, target, pid, n);
      MovedAt(names, paths, k - 1, target, paths[k - 1]);
      assert paths[k - 1] !in paths[..k - 1];
    }
  }

  /** What is known while the paths of a group are joined one by one: the first `k` are done. */
  ghost predicate JoinedUpTo(a: Fs, fs: Fs, states: seq<Fs>, from: nat, g: Goal, pid: nat, lo: nat,
                             n: nat, k: nat, serial: nat)
    requires 1 <= k <= |g.paths|
  {
    && states in Trails(from, a, g, pid, lo)
    && fs in Ways(a, g, pid, lo, serial) && serial == n + k - 1
    && fs.Has(g.paths[0]) && fs.names[g.paths[0]] == g.target && Holds(fs.nodes[g.target], g)
    && (g.exact ==> g.target !in a.ever)
    && fs.names == Joins(Moved(a.names, g.paths, 1, g.target), g.paths, k, g.target, pid, n)
  }

  /** One turn of the loop of `swap_in`. */
  method JoinPath(disk: Disk, paths: seq<Path>, k: nat, ghost a: Fs, ghost g: Goal, ghost lo: nat, ghost n: nat, ghost from: nat)
    returns (r: Io<()>)
    requires disk.Valid() && a.WellFormed() && 0 < k < |paths| && g.paths == paths && lo <= n <= disk.serial
    requires paths[k] in a.names && Unused(a, g.paths, disk.pid, disk.serial)
    requires JoinedUpTo(a, disk.fs, disk.states, from, g, disk.pid, lo, n, k, disk.serial)
    modifies disk`fs, disk`states, disk`serial
    ensures disk.Valid() && Grown(old(disk.states), disk.states) && disk.serial == n + k
    ensures disk.states in Trails(from, a, g, disk.pid, lo) && disk.fs in Ways(a, g, disk.pid, lo, disk.serial)
    ensures r.Done? ==> JoinedUpTo(a, disk.fs, disk.states, from, g, disk.pid, lo, n, k + 1, disk.serial)
    ensures !disk.faulty ==> r.Done?
  {
    var first, path := paths[0], paths[k];
    ghost var s, serial, states := disk.fs, disk.serial, disk.states;
    LinkedOnTheWay(a, s, g, disk.pid, lo, first, path, serial);
    assert path in s.names;
    r := JoinNext(disk, first, path);
    JoinOnTheWay(a, s, g, disk.pid, lo, first, path, serial, disk.fs, states, disk.states, from, r.Done?);
    JoinsNext(Moved(a.names, paths, 1, g.target), paths, k, g.target, disk.pid, n, serial);
  }

  /** The loop of `swap_in` over all paths but the first. */
  method JoinRest(disk: Disk, paths: seq<Path>, ghost a: Fs, ghost g: Goal, ghost lo: nat, ghost from: nat)
    returns (r: Io<()>)
    requires disk.Valid() && a.WellFormed() && paths != [] && g.paths == paths && lo <= disk.serial
    requires forall p :: p in paths ==> p in a.names
    requires Unused(a, g.paths, disk.pid, disk.serial)
    requires JoinedUpTo(a, disk.fs, disk.states, from, g, disk.pid, lo, disk.serial, 1, disk.serial)
    modifies disk`fs, disk`states, disk`serial
    ensures disk.Valid() && Grown(old(disk.states), disk.states) && disk.serial >= old(disk.serial)
    ensures disk.states in Trails(from, a, g, disk.pid, lo) && disk.fs in Ways(a, g, disk.pid, lo, disk.serial)
    ensures r.Done? ==> JoinedUpTo(a, disk.fs, disk.states, from, g, disk.pid, lo, old(disk.serial), |paths|, disk.serial)
    ensures !disk.faulty ==> r.Done?
  {
    ghost var n := disk.serial;
    r := Done(());
    for k := 1 to |paths|
      invariant disk.Valid() && Grown(old(disk.states), disk.states) && disk.serial == n + k - 1
      invariant r.Done? && JoinedUpTo(a, disk.fs, disk.states, from, g, disk.pid, lo, n, k, disk.serial)
    {
      ghost var before := disk.states;
      assert Unused(a, g.paths, disk.pid, disk.serial);
      r := JoinPath(disk, paths, k, a, g, lo, n, from);
      GrownTransitive(old(disk.states), before, disk.states);
      if r.Fail? {
        return;
      }
    }
  }

  /** The inode that `prep` leaves at `temp` comes to every path of `member`: a rename over the first,
      a hardlink and a rename for each other one. The callers have looked at the group: it has paths,
      and each of them is a file. */
  method SwapIn(disk: Disk, temp: Path, member: Inode, prep: Prepare, ghost a: Fs, ghost lo: nat, ghost n: nat)
    returns (r: Io<()>, moved: bool, ghost g: Goal)
    requires disk.Valid() && a.WellFormed()
    requires if prep.Restore? then Created(a, disk.fs, temp) else disk.fs == a && temp !in a.names
    requires prep.LinkFrom? && a.Has(prep.source) ==> a.At(prep.source).mode == member.mode
    requires member.paths != [] && temp == TempOf(member.paths[0], disk.pid, n) && lo <= n < disk.serial
    requires forall p :: p in member.paths ==> p in a.names
    requires prep.LinkFrom? && a.Has(prep.source) ==> a.names[member.paths[0]] != a.names[prep.source]
    requires Unused(a, member.paths, disk.pid, disk.serial)
    modifies disk`fs, disk`states, disk`serial
    ensures disk.Valid() && Grown(old(disk.states), disk.states) && disk.serial >= old(disk.serial)
    ensures g == Goal(member.paths, g.target, PreparedBytes(prep, a, old(disk.fs), temp), member.stamp.mtime,
                      member.mode, !prep.LinkFrom?, PreparedCompressed(prep, old(disk.fs), temp))
    ensures disk.states in Trails(|old(disk.states)|, a, g, disk.pid, lo)
    ensures disk.fs in Ways(a, g, disk.pid, lo, disk.serial)
    ensures r.Done? ==> disk.fs.names ==
                          Joins(Moved(a.names, member.paths, 1, g.target), member.paths, |member.paths|, g.target, disk.pid, old(disk.serial))
    ensures r.Done? ==> disk.fs.Has(member.paths[0]) && disk.fs.names[member.paths[0]] == g.target
    ensures r.Done? ==> Holds(disk.fs.At(member.paths[0]), g) && !moved
    ensures r.Done? ==> if prep.LinkFrom? then a.Has(prep.source) && g.target == a.names[prep.source] else g.target !in a.ever
    ensures r.Done? && !prep.Restore? ==> a.Has(prep.source) && g.target.dev == a.names[prep.source].dev
    ensures !disk.faulty && SourceStands(prep, a) ==> r.Done?
    ensures SourceStands(prep, a) ==> !moved
    ensures prep.LinkFrom? ==> g.target == SourceId(a, prep.source)
  {
    var first := member.paths[0];
    r, moved, g := RenameFirst(disk, temp, member, prep, a, lo, n);
    if r.Fail? {
      return;
    }
    ghost var states, serial := disk.states, disk.serial;
    r := JoinRest(disk, member.paths, a, g, lo, |old(disk.states)|);
    GrownTransitive(old(disk.states), states, disk.states);
  }
}
