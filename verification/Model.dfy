/** The inode model of a unit: every regular file, grouped by inode (`src/model.rs`). */
module Model {
  import opened Order
  import opened Paths
  import opened Files

  datatype Option<+T> = None | Some(value: T)

  /** Times are in nanoseconds since the epoch. */
  const NANOS_PER_SEC: nat := 1_000_000_000

  /** Identity and version of a file. */
  datatype Stamp = Stamp(id: FileId, size: nat, mtime: int)

  /** One inode with every path to it that the walk found. */
  datatype Inode = Inode(stamp: Stamp, mode: nat, flags: Flags, nlink: nat, blocks: nat, paths: seq<Path>)

  datatype Profile = Profile(dir: Path, inodes: seq<Inode>, staleTemps: seq<Path>, lastUsed: Option<nat>)

  function StampOf(id: FileId, node: Node): Stamp {
    Stamp(id, |node.bytes|, node.mtime)
  }

  /** Some file has this stamp. */
  predicate Live(fs: Fs, stamp: Stamp) {
    stamp.id in fs.nodes && StampOf(stamp.id, fs.nodes[stamp.id]) == stamp
  }

  /** Some state from `begin` on had a file with this stamp. */
  ghost predicate Lived(states: seq<Fs>, begin: nat, stamp: Stamp) {
    exists k :: begin <= k < |states| && Live(states[k], stamp)
  }

  lemma LivedOn(states: seq<Fs>, more: seq<Fs>, begin: nat, stamp: Stamp)
    requires Lived(states, begin, stamp) && Grown(states, more)
    ensures Lived(more, begin, stamp)
  {
    var k :| begin <= k < |states| && Live(states[k], stamp);
    assert more[k] == states[k];
  }

  function InodeOf(m: Metadata, paths: seq<Path>): Inode {
    Inode(StampOf(m.id, m.node), m.node.mode, m.node.flags, m.node.nlink, m.node.blocks, paths)
  }

  method ReadStamp(disk: Disk, path: Path) returns (r: Io<Stamp>)
    requires disk.Valid()
    ensures r.Done? ==> disk.fs.Has(path) && r.value == StampOf(disk.fs.names[path], disk.fs.At(path))
    ensures r.Done? ==>
              r.value.id == disk.fs.names[path] && r.value.size == |disk.fs.At(path).bytes| && r.value.mtime == disk.fs.At(path).mtime
    ensures !disk.faulty && path in disk.fs.names ==> r.Done?
  {
    var meta :- disk.Stat(path);
    return Done(StampOf(meta.id, meta.node));
  }

  /** What the walk of `dir` comes to: nothing below a component the build keeps private. */
  predicate Visible(private: Component -> bool, dir: Path, p: Path) {
    Under(p, dir) && forall i :: |dir| <= i < |p| ==> !private(p[i])
  }

  function Seen(fs: Fs, private: Component -> bool, dir: Path): set<Path> {
    set p | p in fs.names && Visible(private, dir, p)
  }

  /** `inode` is the record of a file of `fs`. */
  ghost predicate Describes(fs: Fs, inode: Inode) {
    && inode.stamp.id in fs.nodes
    && inode == InodeOf(Metadata(inode.stamp.id, fs.nodes[inode.stamp.id]), inode.paths)
  }

  /** `inode` holds exactly the walked names of its file, in order. */
  ghost predicate HoldsNames(fs: Fs, dir: Path, private: Component -> bool, inode: Inode) {
    && inode.paths != []
    && Ascending(inode.paths)
    && forall p :: p in inode.paths <==>
                   p in fs.names && Visible(private, dir, p) && !IsTemp(p) && fs.names[p] == inode.stamp.id
  }

  ghost predicate IsScan(fs: Fs, dir: Path, private: Component -> bool, profile: Profile) {
    && profile.dir == dir
    && (forall p :: p in profile.staleTemps <==> p in fs.names && Visible(private, dir, p) && IsTemp(p))
    && Distinct((p: Path) => p, profile.staleTemps)
    && (forall inode :: inode in profile.inodes ==> Describes(fs, inode) && HoldsNames(fs, dir, private, inode))
    && (forall p :: p in fs.names && Visible(private, dir, p) && !IsTemp(p) ==>
          exists inode :: inode in profile.inodes && inode.stamp.id == fs.names[p])
    && Distinct((inode: Inode) => inode.stamp.id, profile.inodes)
    && StrictlySorted(PathsLess, (inode: Inode) => inode.paths, profile.inodes)
  }

  /** What the walk knows once it has come to the files of `seen`, in whatever order. */
  ghost predicate Walked(fs: Fs, seen: set<Path>, byInode: map<FileId, Inode>, temps: seq<Path>) {
    && (forall p :: p in temps <==> p in seen && IsTemp(p)) && Distinct((p: Path) => p, temps)
    && (forall p :: p in seen && !IsTemp(p) ==> p in fs.names && fs.names[p] in byInode)
    && (forall id :: id in byInode ==>
          && byInode[id].stamp.id == id
          && Describes(fs, byInode[id])
          && byInode[id].paths != []
          && Distinct((p: Path) => p, byInode[id].paths)
          && (forall p :: p in byInode[id].paths <==> p in seen && !IsTemp(p) && fs.names[p] == id))
  }

  /** One more file of the walk: `entry(..).or_insert(..).paths.push(..)`. */
  function Found(byInode: map<FileId, Inode>, meta: Metadata, p: Path): map<FileId, Inode> {
    var inode := if meta.id in byInode then byInode[meta.id] else InodeOf(meta, []);
    byInode[meta.id := inode.(paths := inode.paths + [p])]
  }

  lemma WalkedOneMore(fs: Fs, seen: set<Path>, byInode: map<FileId, Inode>, temps: seq<Path>, p: Path)
    requires Walked(fs, seen, byInode, temps) && fs.Has(p) && p !in seen && !IsTemp(p)
    ensures Walked(fs, seen + {p}, Found(byInode, Metadata(fs.names[p], fs.At(p)), p), temps)
  {
    var id := fs.names[p];
    var r := Found(byInode, Metadata(id, fs.At(p)), p);
    var old_paths := if id in byInode then byInode[id].paths else [];
    assert r[id].paths == old_paths + [p];
    forall q ensures q in r[id].paths <==> q in seen + {p} && !IsTemp(q) && fs.names[q] == id {
      assert q in old_paths + [p] <==> q in old_paths || q == p;
    }
    forall i | i in r && i != id
      ensures forall q :: q in r[i].paths <==> q in seen + {p} && !IsTemp(q) && fs.names[q] == i
    {
      assert i in byInode;
    }
  }

  /** The same inode with its paths in order. */
  function InOrder(inode: Inode): Inode {
    inode.(paths := Sort(PathLess, (p: Path) => p, inode.paths))
  }

  lemma InOrderHoldsNames(fs: Fs, dir: Path, private: Component -> bool, seen: set<Path>,
                          byInode: map<FileId, Inode>, temps: seq<Path>, id: FileId)
    requires Walked(fs, seen, byInode, temps) && id in byInode
    requires seen == Seen(fs, private, dir)
    ensures Describes(fs, InOrder(byInode[id])) && HoldsNames(fs, dir, private, InOrder(byInode[id]))
  {
    var inode := byInode[id];
    PathOrder();
    SortStrict(PathLess, (p: Path) => p, inode.paths);
    SortMembers(PathLess, (p: Path) => p, inode.paths);
    assert inode.paths[0] in InOrder(inode).paths;
  }

  datatype Walk = Walk(byInode: map<FileId, Inode>, staleTemps: seq<Path>)

  /** The files of one unit, in the order the walk comes to them. */
  method WalkDir(disk: Disk, dir: Path, private: Component -> bool) returns (r: Io<Walk>)
    requires disk.Valid()
    ensures r.Done? ==> Walked(disk.fs, Seen(disk.fs, private, dir), r.value.byInode, r.value.staleTemps)
    ensures !disk.faulty ==> r.Done?
  {
    var all := Seen(disk.fs, private, dir);
    var todo := all;
    var byInode: map<FileId, Inode> := map[];
    var staleTemps: seq<Path> := [];
    while todo != {}
      invariant todo <= all
      invariant Walked(disk.fs, all - todo, byInode, staleTemps)
      decreases todo
    {
      var p :| p in todo;
      assert all - (todo - {p}) == (all - todo) + {p};
      if IsTemp(p) {
        staleTemps := staleTemps + [p];
      } else {
        var meta :- disk.Stat(p);
        WalkedOneMore(disk.fs, all - todo, byInode, staleTemps, p);
        byInode := Found(byInode, meta, p);
      }
      todo := todo - {p};
    }
    assert all - todo == all;
    return Done(Walk(byInode, staleTemps));
  }

  /** `by_inode.into_values()`, the paths of each put in order. */
  method Collect(byInode: map<FileId, Inode>) returns (inodes: seq<Inode>)
    requires forall id :: id in byInode ==> byInode[id].stamp.id == id
    ensures forall inode :: inode in inodes <==> exists id :: id in byInode && inode == InOrder(byInode[id])
    ensures Distinct((inode: Inode) => inode.stamp.id, inodes)
  {
    inodes := [];
    var keys := byInode.Keys;
    while keys != {}
      invariant keys <= byInode.Keys
      invariant forall inode :: inode in inodes <==> exists id :: id in byInode.Keys - keys && inode == InOrder(byInode[id])
      invariant Distinct((inode: Inode) => inode.stamp.id, inodes)
      decreases keys
    {
      var id :| id in keys;
      forall i | 0 <= i < |inodes| ensures inodes[i].stamp.id != id {
        assert inodes[i] in inodes;
      }
      inodes := inodes + [InOrder(byInode[id])];
      keys := keys - {id};
    }
  }

  /** The walk of `dir` comes to `p`: it is in it, with nothing private on the way. */
  ghost predicate Met(dir: Path, private: Component -> bool, p: Path) {
    dir <= p && forall name :: name in p[|dir|..] ==> !private(name)
  }

  /** The record tells of the file at `p` what is so. */
  ghost predicate TellsOf(fs: Fs, x: Inode, p: Path) {
    && p in fs.names && fs.names[p] == x.stamp.id && x.stamp.id in fs.nodes
    && var node := fs.nodes[x.stamp.id];
       && x.stamp.size == |node.bytes| && x.stamp.mtime == node.mtime && x.mode == node.mode
       && x.flags == node.flags && x.nlink == node.nlink && x.blocks == node.blocks
  }

  /** Every file the walk meets is told of under its path, as it is, and nothing else is. */
  ghost predicate TellsFiles(fs: Fs, dir: Path, private: Component -> bool, profile: Profile) {
    && (forall x, p :: x in profile.inodes && p in x.paths ==> TellsOf(fs, x, p) && Met(dir, private, p) && !IsTemp(p))
    && (forall p :: p in fs.names && Met(dir, private, p) && !IsTemp(p) ==> exists x :: x in profile.inodes && p in x.paths)
    && (forall p :: p in profile.staleTemps <==> p in fs.names && Met(dir, private, p) && IsTemp(p))
  }

  lemma VisibleIfMet(dir: Path, private: Component -> bool, p: Path)
    ensures Visible(private, dir, p) <==> Met(dir, private, p)
  {
    if Visible(private, dir, p) {
      forall name | name in p[|dir|..] ensures !private(name) {
        var i :| 0 <= i < |p| - |dir| && p[|dir|..][i] == name;
        assert p[|dir| + i] == name;
      }
    }
    if Met(dir, private, p) {
      forall i | |dir| <= i < |p| ensures !private(p[i]) {
        assert p[|dir|..][i - |dir|] == p[i];
      }
    }
  }

  lemma ScanTells(fs: Fs, dir: Path, private: Component -> bool, profile: Profile)
    requires IsScan(fs, dir, private, profile)
    ensures TellsFiles(fs, dir, private, profile)
  {
    forall p: Path {
      VisibleIfMet(dir, private, p);
    }
    forall p | p in fs.names && Met(dir, private, p) && !IsTemp(p) ensures exists x :: x in profile.inodes && p in x.paths {
      var x :| x in profile.inodes && x.stamp.id == fs.names[p];
      assert HoldsNames(fs, dir, private, x);
    }
    forall x, p | x in profile.inodes && p in x.paths ensures TellsOf(fs, x, p) && Met(dir, private, p) && !IsTemp(p) {
      assert Describes(fs, x) && HoldsNames(fs, dir, private, x);
    }
  }

  /** Walks one unit. An entry that cannot be read fails the scan. */
  method Scan(disk: Disk, dir: Path, private: Component -> bool, lastUsed: Option<nat>) returns (r: Io<Profile>)
    requires disk.Valid()
    ensures r.Done? ==> IsScan(disk.fs, dir, private, r.value) && r.value.lastUsed == lastUsed
    ensures r.Done? ==> TellsFiles(disk.fs, dir, private, r.value) && r.value.dir == dir
    ensures !disk.faulty ==> r.Done?
  {
    var walk :- WalkDir(disk, dir, private);
    var inodes := Collect(walk.byInode);
    ScanOfWalk(disk.fs, dir, private, walk, inodes, lastUsed);
    var profile := Profile(dir, Sort(PathsLess, (inode: Inode) => inode.paths, inodes), walk.staleTemps, lastUsed);
    ScanTells(disk.fs, dir, private, profile);
    return Done(profile);
  }

  lemma ScanOfWalk(fs: Fs, dir: Path, private: Component -> bool, walk: Walk, inodes: seq<Inode>, lastUsed: Option<nat>)
    requires Walked(fs, Seen(fs, private, dir), walk.byInode, walk.staleTemps)
    requires forall inode :: inode in inodes <==> exists id :: id in walk.byInode && inode == InOrder(walk.byInode[id])
    requires Distinct((inode: Inode) => inode.stamp.id, inodes)
    ensures IsScan(fs, dir, private, Profile(dir, Sort(PathsLess, (inode: Inode) => inode.paths, inodes), walk.staleTemps, lastUsed))
  {
    var all := Seen(fs, private, dir);
    var sorted := Sort(PathsLess, (inode: Inode) => inode.paths, inodes);
    forall id | id in walk.byInode
      ensures Describes(fs, InOrder(walk.byInode[id])) && HoldsNames(fs, dir, private, InOrder(walk.byInode[id]))
    {
      InOrderHoldsNames(fs, dir, private, all, walk.byInode, walk.staleTemps, id);
    }
    SortMembers(PathsLess, (inode: Inode) => inode.paths, inodes);
    PermutedDistinct((inode: Inode) => inode.stamp.id, inodes, sorted);
    DistinctIdsDistinctPaths(fs, dir, private, inodes);
    PathsOrder();
    SortStrict(PathsLess, (inode: Inode) => inode.paths, inodes);
    forall p | p in all && !IsTemp(p)
      ensures exists inode :: inode in sorted && inode.stamp.id == fs.names[p]
    {
      assert InOrder(walk.byInode[fs.names[p]]) in inodes;
    }
  }

  lemma DistinctIdsDistinctPaths(fs: Fs, dir: Path, private: Component -> bool, inodes: seq<Inode>)
    requires forall inode :: inode in inodes ==> HoldsNames(fs, dir, private, inode)
    requires Distinct((inode: Inode) => inode.stamp.id, inodes)
    ensures Distinct((inode: Inode) => inode.paths, inodes)
  {
    forall i, j | 0 <= i < j < |inodes|
      ensures inodes[i].paths != inodes[j].paths
    {
      assert inodes[i] in inodes && inodes[j] in inodes;
      assert inodes[i].paths[0] in inodes[i].paths;
      assert inodes[j].paths[0] in inodes[j].paths;
    }
  }
}
