/** The scans of all units of a run (`scan_all` in `src/engine.rs`), and what they mean for a plan. */
module Scans {
  import opened Order
  import opened Paths
  import opened Files
  import opened Model
  import opened Preserve
  import opened Swap
  import opened Apply
  import opened Dedupe

  /** In a unit without a lock, a file the build may still be writing. */
  predicate Young(mtime: int, now: int, floor: Option<nat>) {
    floor.Some? && (now < mtime || now - mtime < floor.value)
  }

  function FloorFor(floors: seq<(Path, nat)>, dir: Path): Option<nat> {
    if floors == [] then None
    else if floors[0].0 == dir then Some(floors[0].1)
    else FloorFor(floors[1..], dir)
  }

  /** A file of this age is no longer written: the floor told of its unit, by the first entry that has the unit, is that old. */
  ghost predicate OldIn(floors: seq<(Path, nat)>, dir: Path, mtime: int, now: int) {
    forall j :: 0 <= j < |floors| && floors[j].0 == dir && (forall i :: 0 <= i < j ==> floors[i].0 != dir) ==> mtime + floors[j].1 <= now
  }

  lemma {:induction false} OldIfNotYoung(floors: seq<(Path, nat)>, dir: Path, mtime: int, now: int)
    ensures OldIn(floors, dir, mtime, now) <==> !Young(mtime, now, FloorFor(floors, dir))
  {
    if floors != [] && floors[0].0 != dir {
      var rest := floors[1..];
      OldIfNotYoung(rest, dir, mtime, now);
      if !OldIn(rest, dir, mtime, now) {
        var j :| 0 <= j < |rest| && rest[j].0 == dir && (forall i :: 0 <= i < j ==> rest[i].0 != dir) && !(mtime + rest[j].1 <= now);
        assert floors[j + 1] == rest[j];
        forall i | 0 <= i < j + 1 ensures floors[i].0 != dir {
          assert i > 0 ==> floors[i] == rest[i - 1];
        }
      }
      if !OldIn(floors, dir, mtime, now) {
        var j :| 0 <= j < |floors| && floors[j].0 == dir && (forall i :: 0 <= i < j ==> floors[i].0 != dir) && !(mtime + floors[j].1 <= now);
        assert floors[j] == rest[j - 1];
        forall i | 0 <= i < j - 1 ensures rest[i].0 != dir {
          assert rest[i] == floors[i + 1];
        }
      }
    }
  }

  /** The files of a unit that no build may be writing, as `fs` has them. */
  ghost predicate IsPart(fs: Fs, dir: Path, private: Component -> bool, floor: Option<nat>, now: int, profile: Profile) {
    && profile.dir == dir
    && (forall p :: p in profile.staleTemps <==> p in fs.names && Visible(private, dir, p) && IsTemp(p))
    && Distinct((p: Path) => p, profile.staleTemps)
    && (forall inode :: inode in profile.inodes ==>
          Describes(fs, inode) && HoldsNames(fs, dir, private, inode) && !Young(inode.stamp.mtime, now, floor))
    && (forall p :: fs.Has(p) && Visible(private, dir, p) && !IsTemp(p) && !Young(fs.At(p).mtime, now, floor) ==>
          exists inode :: inode in profile.inodes && inode.stamp.id == fs.names[p])
    && (forall i, j :: 0 <= i < j < |profile.inodes| ==> profile.inodes[i].stamp.id != profile.inodes[j].stamp.id)
  }

  /** Some file of the unit is too young to be looked at. */
  ghost predicate HasYoung(fs: Fs, dir: Path, private: Component -> bool, floor: Option<nat>, now: int) {
    exists p :: fs.Has(p) && Visible(private, dir, p) && !IsTemp(p) && Young(fs.At(p).mtime, now, floor)
  }

  /** `retain`. */
  function OldEnough(inodes: seq<Inode>, now: int, floor: Option<nat>): seq<Inode> {
    if inodes == [] then []
    else
      var last := inodes[|inodes| - 1];
      OldEnough(inodes[..|inodes| - 1], now, floor) + if Young(last.stamp.mtime, now, floor) then [] else [last]
  }

  lemma {:induction false} RetainedAt(inodes: seq<Inode>, now: int, floor: Option<nat>)
    requires forall i, j :: 0 <= i < j < |inodes| ==> inodes[i].stamp.id != inodes[j].stamp.id
    ensures var r := OldEnough(inodes, now, floor);
            && (forall x :: x in r <==> x in inodes && !Young(x.stamp.mtime, now, floor))
            && (forall i, j :: 0 <= i < j < |r| ==> r[i].stamp.id != r[j].stamp.id)
  {
    if inodes != [] {
      var front, last := inodes[..|inodes| - 1], inodes[|inodes| - 1];
      RetainedAt(front, now, floor);
      assert inodes == front + [last];
      forall x | x in front ensures x.stamp.id != last.stamp.id {
        var i :| 0 <= i < |front| && front[i] == x;
        assert inodes[i] == x;
      }
    }
  }

  lemma {:induction false} FewerIfYoung(inodes: seq<Inode>, now: int, floor: Option<nat>)
    ensures |OldEnough(inodes, now, floor)| <= |inodes|
    ensures |OldEnough(inodes, now, floor)| < |inodes| <==> exists x :: x in inodes && Young(x.stamp.mtime, now, floor)
  {
    if inodes != [] {
      FewerIfYoung(inodes[..|inodes| - 1], now, floor);
      assert inodes == inodes[..|inodes| - 1] + [inodes[|inodes| - 1]];
    }
  }

  /** One unit: files below the floor are left out, and having had any makes the unit unsure. */
  method ScanUnit(disk: Disk, dir: Path, private: Component -> bool, floor: Option<nat>, now: int) returns (r: Io<Profile>, young: bool)
    requires disk.Valid()
    ensures r.Done? ==> IsPart(disk.fs, dir, private, floor, now, r.value)
    ensures r.Done? ==> young == HasYoung(disk.fs, dir, private, floor, now)
    ensures !disk.faulty ==> r.Done?
  {
    young := false;
    r := Scan(disk, dir, private, None);
    if r.Done? {
      ghost var full := r.value;
      DistinctIds(disk.fs, dir, private, full);
      RetainedAt(full.inodes, now, floor);
      FewerIfYoung(full.inodes, now, floor);
      var kept := Retain(r.value.inodes, now, floor);
      young := |kept| < |r.value.inodes|;
      r := Done(r.value.(inodes := kept));
      SiftedIsPart(disk.fs, dir, private, floor, now, full, kept);
    }
  }

  method Retain(inodes: seq<Inode>, now: int, floor: Option<nat>) returns (kept: seq<Inode>)
    ensures kept == OldEnough(inodes, now, floor)
  {
    kept := [];
    for k := 0 to |inodes|
      invariant kept == OldEnough(inodes[..k], now, floor)
    {
      assert inodes[..k + 1][..k] == inodes[..k];
      if !Young(inodes[k].stamp.mtime, now, floor) {
        kept := kept + [inodes[k]];
      }
    }
    assert inodes[..|inodes|] == inodes;
  }

  lemma DistinctIds(fs: Fs, dir: Path, private: Component -> bool, full: Profile)
    requires IsScan(fs, dir, private, full)
    ensures forall i, j :: 0 <= i < j < |full.inodes| ==> full.inodes[i].stamp.id != full.inodes[j].stamp.id
  {
    assert Distinct((inode: Inode) => inode.stamp.id, full.inodes);
  }

  lemma SiftedIsPart(fs: Fs, dir: Path, private: Component -> bool, floor: Option<nat>, now: int, full: Profile, kept: seq<Inode>)
    requires fs.WellFormed() && IsScan(fs, dir, private, full)
    requires forall x :: x in kept <==> x in full.inodes && !Young(x.stamp.mtime, now, floor)
    requires forall i, j :: 0 <= i < j < |kept| ==> kept[i].stamp.id != kept[j].stamp.id
    ensures IsPart(fs, dir, private, floor, now, full.(inodes := kept))
    ensures HasYoung(fs, dir, private, floor, now) <==> exists x :: x in full.inodes && Young(x.stamp.mtime, now, floor)
  {
    forall p | fs.Has(p) && Visible(private, dir, p) && !IsTemp(p)
      ensures exists x :: x in full.inodes && x.stamp.id == fs.names[p] && x.stamp.mtime == fs.At(p).mtime
    {
      var x :| x in full.inodes && x.stamp.id == fs.names[p];
      assert Describes(fs, x);
    }
    forall x | x in full.inodes && Young(x.stamp.mtime, now, floor) ensures HasYoung(fs, dir, private, floor, now) {
      assert HoldsNames(fs, dir, private, x) && x.paths[0] in x.paths;
      assert fs.Has(x.paths[0]);
    }
  }

  ghost predicate Scanned(fs: Fs, dirs: seq<Path>, private: Component -> bool, floors: seq<(Path, nat)>, now: int,
                          profiles: seq<Profile>) {
    && |profiles| == |dirs|
    && forall k :: 0 <= k < |dirs| ==> IsPart(fs, dirs[k], private, FloorFor(floors, dirs[k]), now, profiles[k])
  }

  /** What the scan of a unit tells: each file that is old enough, and no other. */
  ghost predicate TellsOld(fs: Fs, dir: Path, private: Component -> bool, floors: seq<(Path, nat)>, now: int, profile: Profile) {
    && (forall x :: x in profile.inodes ==> OldIn(floors, dir, x.stamp.mtime, now))
    && (forall p :: fs.Has(p) && Visible(private, dir, p) && !IsTemp(p) && OldIn(floors, dir, fs.At(p).mtime, now) ==>
          exists x :: x in profile.inodes && p in x.paths)
  }

  /** Some file of the unit is too young. */
  ghost predicate HoldsYoung(fs: Fs, dir: Path, private: Component -> bool, floors: seq<(Path, nat)>, now: int) {
    exists p :: fs.Has(p) && Visible(private, dir, p) && !IsTemp(p) && !OldIn(floors, dir, fs.At(p).mtime, now)
  }

  lemma PartTellsOld(fs: Fs, dir: Path, private: Component -> bool, floors: seq<(Path, nat)>, now: int, profile: Profile)
    requires IsPart(fs, dir, private, FloorFor(floors, dir), now, profile)
    ensures TellsOld(fs, dir, private, floors, now, profile)
  {
    forall x | x in profile.inodes {
      OldIfNotYoung(floors, dir, x.stamp.mtime, now);
    }
    forall p | fs.Has(p) && Visible(private, dir, p) && !IsTemp(p) && OldIn(floors, dir, fs.At(p).mtime, now)
      ensures exists x :: x in profile.inodes && p in x.paths
    {
      OldIfNotYoung(floors, dir, fs.At(p).mtime, now);
      var x :| x in profile.inodes && x.stamp.id == fs.names[p];
      assert HoldsNames(fs, dir, private, x);
    }
  }

  lemma YoungHeld(fs: Fs, dir: Path, private: Component -> bool, floors: seq<(Path, nat)>, now: int)
    ensures HasYoung(fs, dir, private, FloorFor(floors, dir), now) <==> HoldsYoung(fs, dir, private, floors, now)
  {
    forall p | fs.Has(p) {
      OldIfNotYoung(floors, dir, fs.At(p).mtime, now);
    }
  }

  ghost predicate Grew(a: seq<Path>, b: seq<Path>) {
    forall u :: u in a ==> u in b
  }

  /** A unit that has a young file is unsure from then on. */
  method ScanAll(disk: Disk, dirs: seq<Path>, private: Component -> bool, floors: seq<(Path, nat)>, unsure: seq<Path>, now: int)
    returns (r: Io<seq<Profile>>, more: seq<Path>)
    requires disk.Valid()
    ensures Grew(unsure, more)
    ensures forall u :: u in more ==> u in unsure || (u in dirs && HasYoung(disk.fs, u, private, FloorFor(floors, u), now))
    ensures r.Done? ==> Scanned(disk.fs, dirs, private, floors, now, r.value)
    ensures r.Done? ==> forall u :: u in dirs && HasYoung(disk.fs, u, private, FloorFor(floors, u), now) ==> u in more
    ensures r.Done? ==> forall k :: 0 <= k < |dirs| ==> TellsOld(disk.fs, dirs[k], private, floors, now, r.value[k])
    ensures r.Done? ==> forall u :: u in more <==> u in unsure || (u in dirs && HoldsYoung(disk.fs, u, private, floors, now))
    ensures !disk.faulty ==> r.Done?
  {
    more := unsure;
    var profiles: seq<Profile> := [];
    for k := 0 to |dirs|
      invariant Scanned(disk.fs, dirs[..k], private, floors, now, profiles)
      invariant Grew(unsure, more)
      invariant forall u :: u in more ==> u in unsure || (u in dirs && HasYoung(disk.fs, u, private, FloorFor(floors, u), now))
      invariant forall i :: 0 <= i < k && HasYoung(disk.fs, dirs[i], private, FloorFor(floors, dirs[i]), now) ==> dirs[i] in more
    {
      var profile, young := ScanUnit(disk, dirs[k], private, FloorFor(floors, dirs[k]), now);
      if profile.Fail? {
        return Fail(profile.error), more;
      }
      if young && dirs[k] !in more {
        more := more + [dirs[k]];
      }
      profiles := profiles + [profile.value];
    }
    assert dirs[..|dirs|] == dirs;
    r := Done(profiles);
    forall k | 0 <= k < |dirs| {
      PartTellsOld(disk.fs, dirs[k], private, floors, now, profiles[k]);
    }
    forall u: Path {
      YoungHeld(disk.fs, u, private, floors, now);
    }
  }

  /** Every file that the scan of `seen` may have met is where it was and has the stamp it had. */
  ghost predicate Current(seen: Fs, fs: Fs) {
    forall p :: seen.Has(p) && !IsTemp(p) ==>
      fs.Has(p) && fs.names[p] == seen.names[p] && StampOf(fs.names[p], fs.At(p)) == StampOf(seen.names[p], seen.At(p))
  }

  /** No unit lies in another. */
  ghost predicate DirsApart(dirs: seq<Path>) {
    forall i, j :: 0 <= i < |dirs| && 0 <= j < |dirs| && i != j ==> !Under(dirs[i], dirs[j])
  }

  lemma UnderBoth(p: Path, d: Path, e: Path)
    requires Under(p, d) && Under(p, e)
    ensures Under(d, e) || Under(e, d)
  {
    assert d == p[..|d|] && e == p[..|e|];
    if |d| <= |e| {
      assert p[..|d|] == p[..|e|][..|d|];
    } else {
      assert p[..|e|] == p[..|d|][..|e|];
    }
  }

  lemma NoRepeatIfAscending(paths: seq<Path>)
    requires Ascending(paths)
    ensures NoRepeat(paths)
  {
    PathOrder();
  }

  /** An inode whose link count is its paths has no other name anywhere. */
  lemma WholeGroup(fs: Fs, dir: Path, private: Component -> bool, inode: Inode)
    requires fs.WellFormed() && Describes(fs, inode) && HoldsNames(fs, dir, private, inode) && inode.nlink == |inode.paths|
    ensures forall p :: p in fs.names && fs.names[p] == inode.stamp.id ==> p in inode.paths
  {
    NoRepeatIfAscending(inode.paths);
    NamesAreThePaths(fs, inode);
    forall p | p in fs.names && fs.names[p] == inode.stamp.id ensures p in inode.paths {
      assert p in fs.NamesOf(inode.stamp.id);
    }
  }

  /** A candidate and the unit it was found in. */
  ghost predicate FoundIn(fs: Fs, c: Config, private: Component -> bool, dir: Path, x: Candidate) {
    && Describes(fs, x.inode) && HoldsNames(fs, dir, private, x.inode) && Eligible(c, x.inode)
    && ShareOf(c, dir) == Some(x.how)
  }

  lemma {:induction false} EligibleOfAt(c: Config, inodes: seq<Inode>, how: Share)
    requires forall i, j :: 0 <= i < j < |inodes| ==> inodes[i].stamp.id != inodes[j].stamp.id
    ensures var r := EligibleOf(c, inodes, how);
            && (forall x :: x in r <==> x.inode in inodes && Eligible(c, x.inode) && x.how == how)
            && (forall i, j :: 0 <= i < j < |r| ==> r[i].inode.stamp.id != r[j].inode.stamp.id)
  {
    if inodes != [] {
      var front, last := inodes[..|inodes| - 1], inodes[|inodes| - 1];
      EligibleOfAt(c, front, how);
      assert inodes == front + [last];
      forall x | x in front ensures x.stamp.id != last.stamp.id {
        var i :| 0 <= i < |front| && front[i] == x;
        assert inodes[i] == x;
      }
    }
  }

  /** Files found in different units are different files. */
  lemma FoundApart(fs: Fs, c: Config, private: Component -> bool, d: Path, e: Path, x: Candidate, y: Candidate)
    requires fs.WellFormed() && FoundIn(fs, c, private, d, x) && FoundIn(fs, c, private, e, y)
    requires !Under(d, e) && !Under(e, d)
    ensures x.inode.stamp.id != y.inode.stamp.id
  {
    WholeGroup(fs, e, private, y.inode);
    var p := x.inode.paths[0];
    assert p in x.inode.paths;
    if x.inode.stamp.id == y.inode.stamp.id {
      assert p in y.inode.paths;
      UnderBoth(p, d, e);
      assert false;
    }
  }

  ghost predicate Eligibles(fs: Fs, c: Config, private: Component -> bool, dirs: seq<Path>, xs: seq<Candidate>) {
    && (forall x :: x in xs ==> exists k :: 0 <= k < |dirs| && FoundIn(fs, c, private, dirs[k], x))
    && (forall i, j :: 0 <= i < j < |xs| ==> xs[i].inode.stamp.id != xs[j].inode.stamp.id)
  }

  lemma {:induction false} CandidatesFound(fs: Fs, c: Config, private: Component -> bool, dirs: seq<Path>, floors: seq<(Path, nat)>,
                                           now: int, profiles: seq<Profile>)
    requires fs.WellFormed() && DirsApart(dirs) && Scanned(fs, dirs, private, floors, now, profiles)
    ensures Eligibles(fs, c, private, dirs, Candidates(c, profiles))
  {
    if profiles != [] {
      var n := |profiles| - 1;
      var last := profiles[n];
      CandidatesFound(fs, c, private, dirs[..n], floors, now, profiles[..n]);
      assert IsPart(fs, dirs[n], private, FloorFor(floors, dirs[n]), now, last);
      if ShareOf(c, last.dir).Some? {
        MoreFound(fs, c, private, dirs, Candidates(c, profiles[..n]), last.inodes, ShareOf(c, last.dir).value);
      } else {
        MoreDirs(fs, c, private, dirs, Candidates(c, profiles[..n]));
      }
    }
  }

  lemma MoreDirs(fs: Fs, c: Config, private: Component -> bool, dirs: seq<Path>, xs: seq<Candidate>)
    requires dirs != [] && Eligibles(fs, c, private, dirs[..|dirs| - 1], xs)
    ensures Eligibles(fs, c, private, dirs, xs)
  {
    forall x | x in xs ensures exists k :: 0 <= k < |dirs| && FoundIn(fs, c, private, dirs[k], x) {
      var k :| 0 <= k < |dirs| - 1 && FoundIn(fs, c, private, dirs[..|dirs| - 1][k], x);
      assert dirs[k] == dirs[..|dirs| - 1][k];
    }
  }

  lemma MoreFound(fs: Fs, c: Config, private: Component -> bool, dirs: seq<Path>, xs: seq<Candidate>, inodes: seq<Inode>, how: Share)
    requires fs.WellFormed() && dirs != [] && DirsApart(dirs) && Eligibles(fs, c, private, dirs[..|dirs| - 1], xs)
    requires ShareOf(c, dirs[|dirs| - 1]) == Some(how)
    requires forall inode :: inode in inodes ==> Describes(fs, inode) && HoldsNames(fs, dirs[|dirs| - 1], private, inode)
    requires forall i, j :: 0 <= i < j < |inodes| ==> inodes[i].stamp.id != inodes[j].stamp.id
    ensures Eligibles(fs, c, private, dirs, xs + EligibleOf(c, inodes, how))
  {
    var n := |dirs| - 1;
    var more := EligibleOf(c, inodes, how);
    EligibleOfAt(c, inodes, how);
    MoreDirs(fs, c, private, dirs, xs);
    forall x | x in more ensures FoundIn(fs, c, private, dirs[n], x) {}
    forall x, y | x in xs && y in more ensures x.inode.stamp.id != y.inode.stamp.id {
      var k :| 0 <= k < n && FoundIn(fs, c, private, dirs[..n][k], x);
      FoundApart(fs, c, private, dirs[k], dirs[n], x, y);
    }
  }

  /** Over scans of units that are apart no file is a candidate twice. */
  lemma ScansSeparate(fs: Fs, c: Config, private: Component -> bool, dirs: seq<Path>, floors: seq<(Path, nat)>, now: int,
                      profiles: seq<Profile>)
    requires fs.WellFormed() && DirsApart(dirs) && Scanned(fs, dirs, private, floors, now, profiles)
    ensures Separate(Candidates(c, profiles))
    ensures forall x :: x in Candidates(c, profiles) ==> exists k :: 0 <= k < |dirs| && FoundIn(fs, c, private, dirs[k], x)
  {
    CandidatesFound(fs, c, private, dirs, floors, now, profiles);
    var xs := Candidates(c, profiles);
    forall x | x in xs ensures x.inode.paths != [] && x.inode.paths[0] in fs.names && fs.names[x.inode.paths[0]] == x.inode.stamp.id {
      var k :| 0 <= k < |dirs| && FoundIn(fs, c, private, dirs[k], x);
      assert x.inode.paths[0] in x.inode.paths;
    }
    forall i, j | 0 <= i < j < |xs| ensures xs[i].inode.paths[0] != xs[j].inode.paths[0] {
      assert xs[i] in xs && xs[j] in xs;
    }
  }

  /** As long as files are kept, the scans are still pictures of them. */
  lemma ScansPicture(seen: Fs, fs: Fs, c: Config, private: Component -> bool, dirs: seq<Path>, floors: seq<(Path, nat)>, now: int,
                     profiles: seq<Profile>, exact: bool)
    requires seen.WellFormed() && DirsApart(dirs) && Scanned(seen, dirs, private, floors, now, profiles)
    requires Kept(seen, fs, {}, exact)
    ensures Pictured(seen, fs, Candidates(c, profiles))
  {
    ScansSeparate(seen, c, private, dirs, floors, now, profiles);
    forall x | x in Candidates(c, profiles)
      ensures Describes(seen, x.inode) && x.inode.paths != []
      ensures fs.Has(x.inode.paths[0]) ==> fs.At(x.inode.paths[0]).bytes == seen.nodes[x.inode.stamp.id].bytes
    {
      var k :| 0 <= k < |dirs| && FoundIn(seen, c, private, dirs[k], x);
      assert x.inode.paths[0] in x.inode.paths;
      assert seen.Has(x.inode.paths[0]);
    }
  }

  lemma BesideIsVisible(q: Path, dir: Path, private: Component -> bool, name: Component)
    requires Visible(private, dir, q) && q != dir && !private(name)
    ensures Visible(private, dir, Sibling(q, name))
  {
    assert dir <= q[..|q| - 1];
    assert dir <= Sibling(q, name);
  }

  /** Whatever a swap that was cut short has left, the next scan of the unit lists as stale. */
  lemma LeftoverIsListed(a: Fs, s: Fs, g: Goal, pid: nat, lo: nat, dir: Path, private: Component -> bool, floor: Option<nat>, now: int,
                         profile: Profile, p: Path)
    requires Mid(a, s, g, pid, lo) && IsPart(s, dir, private, floor, now, profile)
    requires forall q :: q in g.paths ==> Visible(private, dir, q) && q != dir
    requires forall n: nat :: !private(Temp(pid, n))
    requires p in s.names && p !in a.names
    ensures p in profile.staleTemps
  {
    assert Beside(p, g.paths, pid, lo);
    var q :| q in g.paths && p == Sibling(q, p[|p| - 1]);
    BesideIsVisible(q, dir, private, p[|p| - 1]);
  }
}
