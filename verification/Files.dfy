/** A POSIX-like filesystem: names, inodes, and the calls the engine makes, each of which can fail.

    Directories and symlinks are not modelled; a name is the path of a regular file. */
module Files {
  import opened Paths

  type byte = x: int | 0 <= x < 256
  type Bytes = seq<byte>

  /** What `sys::file_id` tells files apart by. */
  datatype FileId = FileId(dev: nat, ino: nat)

  /** A flag word split into the `COMPRESSED` bit and all the others. */
  datatype Flags = Flags(compressed: bool, other: nat)

  datatype Node = Node(bytes: Bytes, mtime: int, mode: nat, flags: Flags, blocks: nat, nlink: nat)

  /** `ever` holds every identity given out so far: a new file never gets one of them again. */
  datatype Fs = Fs(names: map<Path, FileId>, nodes: map<FileId, Node>, ever: set<FileId>) {

    predicate Has(p: Path) {
      p in names && names[p] in nodes
    }

    function At(p: Path): Node
      requires Has(p)
    {
      nodes[names[p]]
    }

    function NamesOf(id: FileId): set<Path> {
      set p | p in names && names[p] == id
    }

    /** The link count of an inode is the number of names it has, and none is without a name. */
    ghost predicate WellFormed() {
      && (forall p :: p in names ==> names[p] in nodes)
      && (forall id {:trigger NamesOf(id)} :: id in nodes ==> nodes[id].nlink == |NamesOf(id)| && nodes[id].nlink > 0)
      && nodes.Keys <= ever
    }

    function Create(p: Path, id: FileId, node: Node): Fs {
      Fs(names[p := id], nodes[id := node.(nlink := 1)], ever + {id})
    }

    function Link(from: Path, to: Path): Fs
      requires Has(from)
    {
      var id := names[from];
      Fs(names[to := id], nodes[id := nodes[id].(nlink := nodes[id].nlink + 1)], ever)
    }

    /** New metadata, or in a private copy new content, for the inode at `p`. */
    function Rewrite(p: Path, node: Node): Fs
      requires Has(p)
    {
      Fs(names, nodes[names[p] := node.(nlink := At(p).nlink)], ever)
    }

    /** One name of `id` less; the inode goes with its last name. */
    function Released(id: FileId): map<FileId, Node>
      requires id in nodes
    {
      if nodes[id].nlink <= 1 then nodes - {id} else nodes[id := nodes[id].(nlink := nodes[id].nlink - 1)]
    }

    function Unlink(p: Path): Fs
      requires Has(p)
    {
      Fs(names - {p}, Released(names[p]), ever)
    }

    /** `rename`: replaces `to`, and does nothing when both names are the same file already. */
    function Rename(from: Path, to: Path): Fs
      requires Has(from) && (to in names ==> Has(to))
    {
      if to in names && names[to] == names[from] then this
      else if to in names then Fs((names - {from})[to := names[from]], Released(names[to]), ever)
      else Fs((names - {from})[to := names[from]], nodes, ever)
    }
  }

  lemma CreateWellFormed(fs: Fs, p: Path, id: FileId, node: Node)
    requires fs.WellFormed() && p !in fs.names && id !in fs.nodes
    ensures fs.Create(p, id, node).WellFormed()
    ensures fs.Create(p, id, node).NamesOf(id) == {p}
  {
    var r := fs.Create(p, id, node);
    assert r.NamesOf(id) == {p};
    forall i | i in fs.nodes ensures r.NamesOf(i) == fs.NamesOf(i) {}
  }

  lemma LinkWellFormed(fs: Fs, from: Path, to: Path)
    requires fs.WellFormed() && from in fs.names && to !in fs.names
    ensures fs.Link(from, to).WellFormed()
  {
    var r := fs.Link(from, to);
    forall i | i in fs.nodes
      ensures r.NamesOf(i) == if i == fs.names[from] then fs.NamesOf(i) + {to} else fs.NamesOf(i)
    {}
  }

  lemma RewriteWellFormed(fs: Fs, p: Path, node: Node)
    requires fs.WellFormed() && p in fs.names
    ensures fs.Rewrite(p, node).WellFormed()
  {
    var r := fs.Rewrite(p, node);
    forall i | i in fs.nodes ensures r.NamesOf(i) == fs.NamesOf(i) {}
  }

  lemma UnlinkWellFormed(fs: Fs, p: Path)
    requires fs.WellFormed() && p in fs.names
    ensures fs.Unlink(p).WellFormed()
  {
    var r, id := fs.Unlink(p), fs.names[p];
    assert r.NamesOf(id) == fs.NamesOf(id) - {p};
    assert p in fs.NamesOf(id) && |r.NamesOf(id)| == fs.nodes[id].nlink - 1;
    forall i | i in r.nodes
      ensures r.nodes[i].nlink == |r.NamesOf(i)| && r.nodes[i].nlink > 0
    {
      assert i != id ==> r.NamesOf(i) == fs.NamesOf(i);
    }
    forall q | q in r.names ensures r.names[q] in r.nodes {
      assert r.names[q] == id ==> q in r.NamesOf(id);
    }
  }

  lemma MoveWellFormed(fs: Fs, from: Path, to: Path)
    requires fs.WellFormed() && from in fs.names && to !in fs.names
    ensures Fs((fs.names - {from})[to := fs.names[from]], fs.nodes, fs.ever).WellFormed()
  {
    var r, id := Fs((fs.names - {from})[to := fs.names[from]], fs.nodes, fs.ever), fs.names[from];
    assert r.NamesOf(id) == fs.NamesOf(id) - {from} + {to};
    forall i | i in r.nodes
      ensures r.nodes[i].nlink == |r.NamesOf(i)| && r.nodes[i].nlink > 0
    {
      assert i != id ==> r.NamesOf(i) == fs.NamesOf(i);
      assert fs.nodes[i].nlink == |fs.NamesOf(i)|;
    }
  }

  lemma RenameWellFormed(fs: Fs, from: Path, to: Path)
    requires fs.WellFormed() && from in fs.names && from != to
    ensures fs.Rename(from, to).WellFormed()
  {
    if to !in fs.names {
      MoveWellFormed(fs, from, to);
    } else if fs.names[to] != fs.names[from] {
      UnlinkWellFormed(fs, to);
      MoveWellFormed(fs.Unlink(to), from, to);
      assert (fs.names - {to} - {from})[to := fs.names[from]] == (fs.names - {from})[to := fs.names[from]];
    }
  }

  ghost function InoBound(ids: set<FileId>): (n: nat)
    ensures forall id :: id in ids ==> id.ino < n
  {
    if ids == {} then 0
    else
      var id :| id in ids;
      var n := InoBound(ids - {id});
      if id.ino < n then n else id.ino + 1
  }

  /** There is always an identity left to give out. */
  lemma FreshIdExists(ids: set<FileId>, dev: nat)
    ensures exists id: FileId :: id !in ids && id.dev == dev
  {
    var id := FileId(dev, InoBound(ids));
    assert id !in ids && id.dev == dev;
  }

  datatype IoError = InUse | Other(kind: nat)

  datatype Io<+T> = Done(value: T) | Fail(error: IoError) {
    predicate IsFailure() {
      Fail?
    }

    function PropagateFailure<U>(): Io<U>
      requires Fail?
    {
      Fail(error)
    }

    function Extract(): T
      requires Done?
    {
      value
    }
  }

  datatype Metadata = Metadata(id: FileId, node: Node)

  /** `b` is `a` and one new file of its own at `temp`. */
  ghost predicate Created(a: Fs, b: Fs, temp: Path) {
    && temp !in a.names
    && b.Has(temp)
    && b.names[temp] !in a.ever
    && b == a.Create(temp, b.names[temp], b.At(temp))
  }

  /** `b` is `a` with other metadata, or other content, in the inode at `p`. */
  ghost predicate Rewritten(a: Fs, b: Fs, p: Path) {
    a.Has(p) && b.Has(p) && b == a.Rewrite(p, b.At(p))
  }

  /** `b` is what is left of `a` while `dir` is being removed. */
  ghost predicate Pruned(a: Fs, b: Fs, dir: Path) {
    && b.ever == a.ever
    && (forall p :: p in b.names ==> p in a.names && b.names[p] == a.names[p])
    && (forall p :: p in a.names && !Under(p, dir) ==> p in b.names)
    && (forall id :: id in b.nodes ==> id in a.nodes && b.nodes[id] == a.nodes[id].(nlink := b.nodes[id].nlink))
  }

  lemma PruneOneMore(a: Fs, b: Fs, dir: Path, p: Path)
    requires Pruned(a, b, dir) && b.Has(p) && Under(p, dir)
    ensures Pruned(a, b.Unlink(p), dir)
  {
    var c := b.Unlink(p);
    forall id | id in c.nodes
      ensures id in a.nodes && c.nodes[id] == a.nodes[id].(nlink := c.nodes[id].nlink)
    {
      assert id in b.nodes;
    }
  }

  /** `b` is `a` with the only file at `copy` written anew, in place or as another inode. */
  ghost predicate Recopied(a: Fs, b: Fs, copy: Path) {
    && a.Has(copy) && b.Has(copy)
    && (b.names[copy] == a.names[copy] || b.names[copy] !in a.ever)
    && b == a.Unlink(copy).Create(copy, b.names[copy], b.At(copy))
  }

  /** `b` has the history `a` behind it. */
  ghost predicate Grown(a: seq<Fs>, b: seq<Fs>) {
    a <= b
  }

  lemma GrownTransitive(a: seq<Fs>, b: seq<Fs>, c: seq<Fs>)
    requires Grown(a, b) && Grown(b, c)
    ensures Grown(a, c)
  {}

  /** The histories that end in this state. */
  ghost function EndingIn(fs: Fs): iset<seq<Fs>> {
    iset states: seq<Fs> | states != [] && states[|states| - 1] == fs
  }

  class Disk {
    var fs: Fs
    /** Every state the disk went through, the present one last: what a crash may leave behind. */
    ghost var states: seq<Fs>
    /** The counter of `sibling_temp`. */
    var serial: nat
    const pid: nat
    /** Whether a call may fail for reasons of its own, beyond what it was asked to do. */
    const faulty: bool

    ghost predicate Valid()
      reads this
    {
      fs.WellFormed() && states != [] && states[|states| - 1] == fs
    }

    constructor (fs: Fs, pid: nat, faulty: bool)
      requires fs.WellFormed()
      ensures Valid() && this.fs == fs && this.pid == pid && this.faulty == faulty && serial == 0
    {
      this.fs := fs;
      this.states := [fs];
      this.serial := 0;
      this.pid := pid;
      this.faulty := faulty;
    }

    /** Reads what `symlink_metadata` says about `p`. */
    method Stat(p: Path) returns (r: Io<Metadata>)
      requires Valid()
      ensures r.Done? ==> fs.Has(p) && r.value == Metadata(fs.names[p], fs.At(p))
      ensures !faulty && p in fs.names ==> r.Done?
    {
      var broken: bool := *;
      var e: IoError := *;
      if p !in fs.names || (faulty && broken) {
        return Fail(e);
      }
      return Done(Metadata(fs.names[p], fs.At(p)));
    }

    method Read(p: Path) returns (r: Io<Bytes>)
      requires Valid()
      ensures r.Done? ==> fs.Has(p) && r.value == fs.At(p).bytes
      ensures !faulty && p in fs.names ==> r.Done?
    {
      var broken: bool := *;
      var e: IoError := *;
      if p !in fs.names || (faulty && broken) {
        return Fail(e);
      }
      return Done(fs.At(p).bytes);
    }

    /** `sibling_temp`. */
    method SiblingTemp(p: Path) returns (temp: Path)
      modifies this`serial
      ensures temp == TempOf(p, pid, old(serial)) && serial == old(serial) + 1
    {
      temp := TempOf(p, pid, serial);
      serial := serial + 1;
    }

    /** `clone_file`: an empty file first, then all the bytes of `source` at once. A failure may
        leave a file of any content at `temp`. The clone's metadata is the system's choice. */
    method CloneFile(source: Path, temp: Path) returns (r: Io<()>)
      requires Valid() && temp !in fs.names
      modifies this`fs, this`states
      ensures Valid() && Grown(old(states), states)
      ensures forall i :: |old(states)| <= i < |states| ==> Created(old(fs), states[i], temp) && states[i].WellFormed()
      ensures fs == old(fs) || Created(old(fs), fs, temp)
      ensures r.Done? ==> old(fs).Has(source) && Created(old(fs), fs, temp)
      ensures r.Done? ==> fs.At(temp).bytes == old(fs).At(source).bytes
      ensures r.Done? ==> fs.names[temp].dev == old(fs).names[source].dev
      ensures !faulty && source in old(fs).names ==> r.Done?
    {
      var broken: bool := *;
      var e: IoError := *;
      if source !in fs.names || (faulty && broken) {
        return Fail(e);
      }
      var node := fs.At(source);
      FreshIdExists(fs.ever, fs.names[source].dev);
      var id: FileId :| id !in fs.ever && id.dev == fs.names[source].dev;
      var empty: Node := *;
      var made: Node := *;
      CreateWellFormed(fs, temp, id, empty);
      CreateWellFormed(fs, temp, id, made.(bytes := node.bytes));
      var before := fs;
      fs := before.Create(temp, id, empty);
      states := states + [fs];
      broken := *;
      if faulty && broken {
        return Fail(e);
      }
      fs := before.Create(temp, id, made.(bytes := node.bytes));
      states := states + [fs];
      return Done(());
    }

    method HardLink(from: Path, to: Path) returns (r: Io<()>)
      requires Valid()
      modifies this`fs, this`states
      ensures Valid()
      ensures r.Done? ==> from in old(fs).names && to !in old(fs).names && fs == old(fs).Link(from, to)
      ensures r.Done? ==> states == old(states) + [fs]
      ensures r.Fail? ==> fs == old(fs) && states == old(states)
      ensures !faulty && from in old(fs).names && to !in old(fs).names ==> r.Done?
    {
      var broken: bool := *;
      var e: IoError := *;
      if from !in fs.names || to in fs.names || (faulty && broken) {
        return Fail(e);
      }
      LinkWellFormed(fs, from, to);
      fs := fs.Link(from, to);
      states := states + [fs];
      return Done(());
    }

    method SetMtime(p: Path, mtime: int) returns (r: Io<()>)
      requires Valid()
      modifies this`fs, this`states
      ensures Valid()
      ensures r.Done? ==> old(fs).Has(p) && fs == old(fs).Rewrite(p, old(fs).At(p).(mtime := mtime))
      ensures r.Done? ==> states == old(states) + [fs]
      ensures r.Fail? ==> fs == old(fs) && states == old(states)
      ensures !faulty && p in old(fs).names ==> r.Done?
    {
      var broken: bool := *;
      var e: IoError := *;
      if p !in fs.names || (faulty && broken) {
        return Fail(e);
      }
      RewriteWellFormed(fs, p, fs.At(p).(mtime := mtime));
      fs := fs.Rewrite(p, fs.At(p).(mtime := mtime));
      states := states + [fs];
      return Done(());
    }

    method SetMode(p: Path, mode: nat) returns (r: Io<()>)
      requires Valid()
      modifies this`fs, this`states
      ensures Valid()
      ensures r.Done? ==> old(fs).Has(p) && fs == old(fs).Rewrite(p, old(fs).At(p).(mode := mode))
      ensures r.Done? ==> states == old(states) + [fs]
      ensures r.Fail? ==> fs == old(fs) && states == old(states)
      ensures !faulty && p in old(fs).names ==> r.Done?
    {
      var broken: bool := *;
      var e: IoError := *;
      if p !in fs.names || (faulty && broken) {
        return Fail(e);
      }
      RewriteWellFormed(fs, p, fs.At(p).(mode := mode));
      fs := fs.Rewrite(p, fs.At(p).(mode := mode));
      states := states + [fs];
      return Done(());
    }

    method RemoveFile(p: Path) returns (r: Io<()>)
      requires Valid()
      modifies this`fs, this`states
      ensures Valid()
      ensures r.Done? ==> old(fs).Has(p) && fs == old(fs).Unlink(p)
      ensures r.Done? ==> states == old(states) + [fs]
      ensures r.Fail? ==> fs == old(fs) && states == old(states)
      ensures !faulty && p in old(fs).names ==> r.Done?
    {
      var broken: bool := *;
      var e: IoError := *;
      if p !in fs.names || (faulty && broken) {
        return Fail(e);
      }
      UnlinkWellFormed(fs, p);
      fs := fs.Unlink(p);
      states := states + [fs];
      return Done(());
    }

    method Rename(from: Path, to: Path) returns (r: Io<()>)
      requires Valid() && from != to
      modifies this`fs, this`states
      ensures Valid()
      ensures r.Done? ==> old(fs).Has(from) && (to in old(fs).names ==> old(fs).Has(to))
      ensures r.Done? ==> fs == old(fs).Rename(from, to)
      ensures r.Done? ==> states == old(states) + [fs]
      ensures r.Fail? ==> fs == old(fs) && states == old(states)
      ensures !faulty && from in old(fs).names ==> r.Done?
    {
      var broken: bool := *;
      var e: IoError := *;
      if from !in fs.names || (faulty && broken) {
        return Fail(e);
      }
      RenameWellFormed(fs, from, to);
      fs := fs.Rename(from, to);
      states := states + [fs];
      return Done(());
    }

    /** `remove_dir_all`: name by name, in any order, and it may stop half way. */
    method RemoveDirAll(dir: Path) returns (r: Io<()>)
      requires Valid()
      modifies this`fs, this`states
      ensures Valid() && Grown(old(states), states)
      ensures forall i :: |old(states)| <= i < |states| ==> Pruned(old(fs), states[i], dir) && states[i].WellFormed()
      ensures Pruned(old(fs), fs, dir)
      ensures r.Done? ==> forall p :: p in fs.names ==> !Under(p, dir)
    {
      ghost var start := fs;
      var todo := set p | p in fs.names && Under(p, dir);
      while todo != {}
        invariant Valid() && Grown(old(states), states)
        invariant forall i :: |old(states)| <= i < |states| ==> Pruned(start, states[i], dir) && states[i].WellFormed()
        invariant Pruned(start, fs, dir)
        invariant todo == set p | p in fs.names && Under(p, dir)
        decreases todo
      {
        var broken: bool := *;
        var e: IoError := *;
        if broken {
          return Fail(e);
        }
        var p :| p in todo;
        UnlinkWellFormed(fs, p);
        PruneOneMore(start, fs, dir, p);
        fs := fs.Unlink(p);
        states := states + [fs];
        todo := todo - {p};
      }
      assert forall p :: p in fs.names && Under(p, dir) ==> p in todo;
      var missing: bool := *;
      var e: IoError := *;
      return if missing then Fail(e) else Done(());
    }

    /** The compression backend on one private copy. It may put another inode there and set any
        metadata. It keeps the bytes, or it stops half way and the length shows it. */
    method CompressFile(copy: Path)
      requires Valid()
      requires copy in fs.names ==> fs.NamesOf(fs.names[copy]) == {copy}
      modifies this`fs, this`states
      ensures Valid() && Grown(old(states), states)
      ensures copy !in old(fs).names ==> fs == old(fs) && states == old(states)
      ensures forall i :: |old(states)| <= i < |states| ==> Recopied(old(fs), states[i], copy) && states[i].WellFormed()
      ensures copy in old(fs).names ==> Recopied(old(fs), fs, copy)
      ensures copy in old(fs).names ==>
                fs.At(copy).bytes == old(fs).At(copy).bytes || |fs.At(copy).bytes| != |old(fs).At(copy).bytes|
    {
      if copy !in fs.names {
        return;
      }
      var before := fs;
      var old_id := before.names[copy];
      UnlinkWellFormed(before, copy);
      var cut: Node := *;
      CreateWellFormed(before.Unlink(copy), copy, old_id, cut);
      fs := before.Unlink(copy).Create(copy, old_id, cut);
      states := states + [fs];
      var id := old_id;
      var moved: bool := *;
      if moved {
        FreshIdExists(before.ever, old_id.dev);
        id :| id !in before.ever && id.dev == old_id.dev;
      }
      var node: Node := *;
      var whole: bool := *;
      if whole || |node.bytes| == |before.At(copy).bytes| {
        node := node.(bytes := before.At(copy).bytes);
      }
      CreateWellFormed(before.Unlink(copy), copy, id, node);
      fs := before.Unlink(copy).Create(copy, id, node);
      states := states + [fs];
    }
  }
}
