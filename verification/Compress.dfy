/** The compress pass: which groups are worth a compressed copy (`src/compress.rs`). The backend is the engine's disk. */
module Compress {
  import opened Paths
  import opened Files
  import opened Model
  import opened Index

  /** The settings of a pass. `compresses` says where the filesystem has transparent compression. */
  datatype Setting = Setting(minSize: nat, minAge: nat, compresses: Path -> bool)

  predicate Worth(c: Setting, inode: Inode, now: int) {
    && inode.stamp.size >= c.minSize
    && inode.nlink == |inode.paths|
    && !inode.flags.compressed && inode.flags.other == 0
    && now >= inode.stamp.mtime && now - inode.stamp.mtime >= c.minAge
  }

  /** Compressing a clone would un-share it. */
  predicate IsShared(m: Entries, stamp: Stamp) {
    Lookup(m, stamp).Some? && Lookup(m, stamp).value.shared
  }

  ghost predicate Planned(c: Setting, m: Entries, profiles: seq<Profile>, now: int, inode: Inode) {
    exists k :: 0 <= k < |profiles| && c.compresses(profiles[k].dir) && inode in profiles[k].inodes && Worth(c, inode, now)
      && !IsShared(m, inode.stamp)
  }

  ghost predicate SameEntries(m: Entries, n: Entries) {
    n.Keys == m.Keys && forall id :: id in m ==> n[id].entry == m[id].entry
  }

  /** What makes a group of a scanned unit worth a compressed copy: there is compression on the unit's filesystem, the group is large
      enough and old enough, all its links were found, it has no flag and is not compressed yet, and the index does not know it as
      shared. */
  ghost predicate IsWorth(c: Setting, m: Entries, profile: Profile, now: int, x: Inode) {
    && c.compresses(profile.dir) && x in profile.inodes
    && c.minSize <= x.stamp.size && x.stamp.mtime + c.minAge <= now
    && x.nlink == |x.paths| && !x.flags.compressed && x.flags.other == 0
    && !(x.stamp.id in m && m[x.stamp.id].entry.shared && m[x.stamp.id].entry.size == x.stamp.size
         && m[x.stamp.id].entry.mtime == x.stamp.mtime)
  }

  lemma PlannedIfWorth(c: Setting, m: Entries, profiles: seq<Profile>, now: int, x: Inode)
    ensures Planned(c, m, profiles, now, x) <==> exists k :: 0 <= k < |profiles| && IsWorth(c, m, profiles[k], now, x)
  {
    if Planned(c, m, profiles, now, x) {
      var k :| 0 <= k < |profiles| && c.compresses(profiles[k].dir) && x in profiles[k].inodes;
      assert IsWorth(c, m, profiles[k], now, x);
    }
  }

  /** The worthwhile groups of one unit, in order. */
  function WorthIn(c: Setting, m: Entries, inodes: seq<Inode>, now: int): seq<Inode> {
    if inodes == [] then []
    else
      var last := inodes[|inodes| - 1];
      WorthIn(c, m, inodes[..|inodes| - 1], now) + if Worth(c, last, now) && !IsShared(m, last.stamp) then [last] else []
  }

  /** Those of every unit where compression exists, unit by unit. */
  function AllWorth(c: Setting, m: Entries, profiles: seq<Profile>, now: int): seq<Inode> {
    if profiles == [] then []
    else
      var last := profiles[|profiles| - 1];
      AllWorth(c, m, profiles[..|profiles| - 1], now) + if c.compresses(last.dir) then WorthIn(c, m, last.inodes, now) else []
  }

  lemma {:induction false} WorthAt(c: Setting, m: Entries, inodes: seq<Inode>, now: int)
    ensures forall x :: x in WorthIn(c, m, inodes, now) <==> x in inodes && Worth(c, x, now) && !IsShared(m, x.stamp)
  {
    if inodes != [] {
      WorthAt(c, m, inodes[..|inodes| - 1], now);
      assert inodes == inodes[..|inodes| - 1] + [inodes[|inodes| - 1]];
    }
  }

  lemma {:induction false} AllWorthAt(c: Setting, m: Entries, profiles: seq<Profile>, now: int)
    ensures forall x :: x in AllWorth(c, m, profiles, now) <==> Planned(c, m, profiles, now, x)
  {
    if profiles != [] {
      var n := |profiles| - 1;
      AllWorthAt(c, m, profiles[..n], now);
      WorthAt(c, m, profiles[n].inodes, now);
      assert profiles[..|profiles|] == profiles;
      forall x {
        PlannedOneMore(c, m, profiles, n, now, x);
      }
    }
  }

  method PlanUnit(c: Setting, profile: Profile, index: HashIndex, now: int) returns (groups: seq<Inode>)
    modifies index`entries
    ensures SameEntries(old(index.entries), index.entries)
    ensures groups == WorthIn(c, old(index.entries), profile.inodes, now)
  {
    ghost var m := index.entries;
    groups := [];
    for k := 0 to |profile.inodes|
      invariant SameEntries(m, index.entries)
      invariant groups == WorthIn(c, m, profile.inodes[..k], now)
    {
      var inode := profile.inodes[k];
      assert profile.inodes[..k + 1][..k] == profile.inodes[..k];
      if Worth(c, inode, now) {
        var entry := index.Get(inode.stamp);
        assert entry == Lookup(m, inode.stamp);
        if entry.None? || !entry.value.shared {
          groups := groups + [inode];
        }
      }
    }
    assert profile.inodes[..|profile.inodes|] == profile.inodes;
  }

  /** Every worthwhile group of every unit where compression exists, in the order of the scans, shared ones left out. */
  method Plan(c: Setting, profiles: seq<Profile>, index: HashIndex, now: int) returns (groups: seq<Inode>)
    modifies index`entries
    ensures SameEntries(old(index.entries), index.entries)
    ensures groups == AllWorth(c, old(index.entries), profiles, now)
    ensures forall x :: x in groups <==> Planned(c, old(index.entries), profiles, now, x)
    ensures forall x :: x in groups <==> exists k :: 0 <= k < |profiles| && IsWorth(c, old(index.entries), profiles[k], now, x)
  {
    ghost var m := index.entries;
    groups := [];
    for k := 0 to |profiles|
      invariant SameEntries(m, index.entries)
      invariant groups == AllWorth(c, m, profiles[..k], now)
    {
      assert profiles[..k + 1][..k] == profiles[..k];
      if c.compresses(profiles[k].dir) {
        SameWorth(c, m, index.entries, profiles[k].inodes, now);
        var more := PlanUnit(c, profiles[k], index, now);
        groups := groups + more;
      }
    }
    assert profiles[..|profiles|] == profiles;
    AllWorthAt(c, m, profiles, now);
    forall x: Inode {
      PlannedIfWorth(c, m, profiles, now, x);
    }
  }

  lemma {:induction false} SameWorth(c: Setting, m: Entries, n: Entries, inodes: seq<Inode>, now: int)
    requires SameEntries(m, n)
    ensures WorthIn(c, n, inodes, now) == WorthIn(c, m, inodes, now)
  {
    if inodes != [] {
      SameWorth(c, m, n, inodes[..|inodes| - 1], now);
      var stamp := inodes[|inodes| - 1].stamp;
      assert IsShared(n, stamp) == IsShared(m, stamp);
    }
  }

  lemma PlannedOneMore(c: Setting, m: Entries, profiles: seq<Profile>, k: nat, now: int, x: Inode)
    requires k < |profiles|
    ensures Planned(c, m, profiles[..k + 1], now, x) <==>
            Planned(c, m, profiles[..k], now, x)
            || (c.compresses(profiles[k].dir) && x in profiles[k].inodes && Worth(c, x, now) && !IsShared(m, x.stamp))
  {
    var front, more := profiles[..k], profiles[..k + 1];
    assert more == front + [profiles[k]];
    if Planned(c, m, front, now, x) {
      var i :| 0 <= i < |front| && c.compresses(front[i].dir) && x in front[i].inodes;
      assert more[i] == front[i];
    }
    if c.compresses(profiles[k].dir) && x in profiles[k].inodes {
      assert more[k] == profiles[k];
    }
  }
}
