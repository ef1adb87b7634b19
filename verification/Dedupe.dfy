/** The dedupe pass: equal content in different inodes becomes clones of one (`src/dedupe.rs`). */
module Dedupe {
  import opened Order
  import opened Paths
  import opened Files
  import opened Model
  import opened Index
  import opened Apply

  /** An inode that may be shared, and how. */
  datatype Candidate = Candidate(inode: Inode, how: Share)

  /** The settings of a pass. `clones` says where the filesystem has copy-on-write. */
  datatype Config = Config(minSize: nat, minAge: nat, linkFallback: bool, clones: Path -> bool, now: int)

  /** Also the rule for a source. */
  predicate Eligible(c: Config, inode: Inode) {
    && inode.stamp.size >= c.minSize
    && inode.nlink == |inode.paths|
    && inode.flags.other == 0
    && c.now >= inode.stamp.mtime && c.now - inode.stamp.mtime >= c.minAge
  }

  /** How a profile's files may be shared, if they may. */
  function ShareOf(c: Config, dir: Path): Option<Share> {
    if c.clones(dir) then Some(Clone) else if c.linkFallback then Some(Link) else None
  }

  function EligibleOf(c: Config, inodes: seq<Inode>, how: Share): seq<Candidate> {
    if inodes == [] then []
    else
      var last := inodes[|inodes| - 1];
      EligibleOf(c, inodes[..|inodes| - 1], how) + if Eligible(c, last) then [Candidate(last, how)] else []
  }

  /** Every eligible inode of every profile that can share at all. */
  function Candidates(c: Config, profiles: seq<Profile>): seq<Candidate> {
    if profiles == [] then []
    else
      var last := profiles[|profiles| - 1];
      Candidates(c, profiles[..|profiles| - 1]) +
      match ShareOf(c, last.dir)
      case None => []
      case Some(how) => EligibleOf(c, last.inodes, how)
  }

  /** What makes a file of a scanned unit one that may be shared: the unit's filesystem has copy-on-write, and then it is cloned, or
      linking is allowed instead; it is large enough, all its links were found, it has no flag but compression, and it is old enough. */
  ghost predicate MayShare(c: Config, profile: Profile, inode: Inode, how: Share) {
    && inode in profile.inodes
    && (how.Clone? <==> c.clones(profile.dir)) && (how.Link? ==> c.linkFallback)
    && c.minSize <= inode.stamp.size && inode.nlink == |inode.paths| && inode.flags.other == 0
    && inode.stamp.mtime + c.minAge <= c.now
  }

  /** Some scanned unit has the file, and it may be shared so. */
  ghost predicate MayShareIn(c: Config, profiles: seq<Profile>, inode: Inode, how: Share) {
    exists k :: 0 <= k < |profiles| && MayShare(c, profiles[k], inode, how)
  }

  lemma {:induction false} EligiblesAre(c: Config, inodes: seq<Inode>, how: Share)
    ensures forall x :: x in EligibleOf(c, inodes, how) <==> x.inode in inodes && Eligible(c, x.inode) && x.how == how
  {
    if inodes != [] {
      EligiblesAre(c, inodes[..|inodes| - 1], how);
      assert inodes == inodes[..|inodes| - 1] + [inodes[|inodes| - 1]];
    }
  }

  /** What one more unit adds. */
  lemma FromOneUnit(c: Config, profile: Profile, x: Candidate)
    ensures MayShare(c, profile, x.inode, x.how) <==>
              match ShareOf(c, profile.dir)
              case None => false
              case Some(how) => x in EligibleOf(c, profile.inodes, how)
  {
    if ShareOf(c, profile.dir).Some? {
      EligiblesAre(c, profile.inodes, ShareOf(c, profile.dir).value);
    }
  }

  lemma InOneMore(c: Config, profiles: seq<Profile>, n: nat, inode: Inode, how: Share)
    requires n < |profiles|
    ensures MayShareIn(c, profiles[..n + 1], inode, how) <==>
              MayShareIn(c, profiles[..n], inode, how) || MayShare(c, profiles[n], inode, how)
  {
    var front, more := profiles[..n], profiles[..n + 1];
    if MayShareIn(c, front, inode, how) {
      var k :| 0 <= k < n && MayShare(c, front[k], inode, how);
      assert more[k] == front[k];
    }
    if MayShare(c, profiles[n], inode, how) {
      assert more[n] == profiles[n];
    }
    if MayShareIn(c, more, inode, how) {
      var k :| 0 <= k < n + 1 && MayShare(c, more[k], inode, how);
      assert k < n ==> front[k] == more[k];
    }
  }

  /** The candidates are the files that may be shared, one and all. */
  lemma {:induction false} CandidatesAre(c: Config, profiles: seq<Profile>, x: Candidate)
    ensures x in Candidates(c, profiles) <==> MayShareIn(c, profiles, x.inode, x.how)
  {
    if profiles != [] {
      var n := |profiles| - 1;
      CandidatesAre(c, profiles[..n], x);
      FromOneUnit(c, profiles[n], x);
      InOneMore(c, profiles, n, x.inode, x.how);
      assert profiles[..n + 1] == profiles;
    }
  }

  /** Device and size. */
  function SizeKey(x: Candidate): (nat, nat) {
    (x.inode.stamp.id.dev, x.inode.stamp.size)
  }

  function OfSize(xs: seq<Candidate>, key: (nat, nat)): seq<Candidate> {
    if xs == [] then []
    else
      var last := xs[|xs| - 1];
      OfSize(xs[..|xs| - 1], key) + if SizeKey(last) == key then [last] else []
  }

  ghost predicate Buckets(m: map<(nat, nat), seq<Candidate>>, xs: seq<Candidate>) {
    && (forall key :: key in m ==> m[key] == OfSize(xs, key))
    && (forall x :: x in xs ==> SizeKey(x) in m)
  }

  function Bucketed(m: map<(nat, nat), seq<Candidate>>, x: Candidate): map<(nat, nat), seq<Candidate>> {
    m[SizeKey(x) := (if SizeKey(x) in m then m[SizeKey(x)] else []) + [x]]
  }

  lemma {:induction false} OfSizeMembers(xs: seq<Candidate>, key: (nat, nat))
    ensures forall x :: x in OfSize(xs, key) <==> x in xs && SizeKey(x) == key
  {
    if xs != [] {
      OfSizeMembers(xs[..|xs| - 1], key);
      assert xs == xs[..|xs| - 1] + [xs[|xs| - 1]];
    }
  }

  lemma BucketedOneMore(m: map<(nat, nat), seq<Candidate>>, xs: seq<Candidate>, x: Candidate)
    requires Buckets(m, xs)
    ensures Buckets(Bucketed(m, x), xs + [x])
  {
    assert (xs + [x])[..|xs|] == xs;
    if SizeKey(x) !in m {
      NoneOfSize(xs, SizeKey(x));
    }
  }

  lemma {:induction false} NoneOfSize(xs: seq<Candidate>, key: (nat, nat))
    requires forall x :: x in xs ==> SizeKey(x) != key
    ensures OfSize(xs, key) == []
  {
    if xs != [] {
      assert xs[|xs| - 1] in xs;
      NoneOfSize(xs[..|xs| - 1], key);
    }
  }

  /** Another place of the list holds a file of the same size on the same device. */
  ghost predicate HasTwin(xs: seq<Candidate>, x: Candidate) {
    exists i, j :: 0 <= i < j < |xs| && SizeKey(xs[i]) == SizeKey(x) && SizeKey(xs[j]) == SizeKey(x)
  }

  lemma {:induction false} TwoMakeATwin(xs: seq<Candidate>, x: Candidate)
    requires |OfSize(xs, SizeKey(x))| > 1
    ensures HasTwin(xs, x)
  {
    var front, key := xs[..|xs| - 1], SizeKey(x);
    if |OfSize(front, key)| > 1 {
      TwoMakeATwin(front, x);
      var i, j :| 0 <= i < j < |front| && SizeKey(front[i]) == key && SizeKey(front[j]) == key;
      assert SizeKey(xs[i]) == key && SizeKey(xs[j]) == key;
    } else {
      OfSizeMembers(front, key);
      var first := OfSize(front, key)[0];
      assert first in OfSize(front, key);
      var i :| 0 <= i < |front| && front[i] == first;
      assert SizeKey(xs[i]) == key && SizeKey(xs[|xs| - 1]) == key;
    }
  }

  lemma {:induction false} ATwinMakesTwo(xs: seq<Candidate>, x: Candidate)
    requires HasTwin(xs, x)
    ensures |OfSize(xs, SizeKey(x))| > 1
  {
    var front, key := xs[..|xs| - 1], SizeKey(x);
    var i, j :| 0 <= i < j < |xs| && SizeKey(xs[i]) == key && SizeKey(xs[j]) == key;
    if j < |front| {
      assert SizeKey(front[i]) == key && SizeKey(front[j]) == key;
      ATwinMakesTwo(front, x);
    } else {
      OfSizeMembers(front, key);
      assert front[i] in OfSize(front, key);
    }
  }

  /** No file and no first path comes twice: what scans of disjoint units give. */
  ghost predicate Separate(xs: seq<Candidate>) {
    && (forall x :: x in xs ==> x.inode.paths != [])
    && (forall i, j :: 0 <= i < j < |xs| ==>
          xs[i].inode.stamp.id != xs[j].inode.stamp.id && xs[i].inode.paths[0] != xs[j].inode.paths[0])
  }

  lemma {:induction false} OfSizeSeparate(xs: seq<Candidate>, key: (nat, nat))
    requires Separate(xs)
    ensures Separate(OfSize(xs, key))
  {
    if xs != [] {
      var front, last := xs[..|xs| - 1], xs[|xs| - 1];
      OfSizeSeparate(front, key);
      OfSizeMembers(front, key);
      forall x | x in OfSize(front, key)
        ensures x.inode.stamp.id != last.inode.stamp.id && x.inode.paths[0] != last.inode.paths[0]
      {
        var i :| 0 <= i < |front| && front[i] == x;
        assert xs[i] == x;
      }
      OfSizeMembers(xs, key);
    }
  }

  lemma JoinSeparate(all: seq<Candidate>, xs: seq<Candidate>, ys: seq<Candidate>)
    requires Separate(all) && Separate(xs) && Separate(ys)
    requires forall x :: x in xs ==> x in all && x !in ys
    requires forall y :: y in ys ==> y in all
    ensures Separate(xs + ys)
  {
    forall x, y | x in xs && y in ys
      ensures x.inode.stamp.id != y.inode.stamp.id && x.inode.paths[0] != y.inode.paths[0]
    {
      DifferentFiles(all, x, y);
    }
  }

  lemma DifferentFiles(all: seq<Candidate>, x: Candidate, y: Candidate)
    requires Separate(all) && x in all && y in all && x != y
    ensures x.inode.stamp.id != y.inode.stamp.id && x.inode.paths[0] != y.inode.paths[0]
  {
    var i :| 0 <= i < |all| && all[i] == x;
    var j :| 0 <= j < |all| && all[j] == y;
    assert i < j || j < i;
  }

  /** The eligible files by size. */
  method FillBuckets(c: Config, profiles: seq<Profile>) returns (bySize: map<(nat, nat), seq<Candidate>>)
    ensures Buckets(bySize, Candidates(c, profiles))
  {
    bySize := map[];
    for i := 0 to |profiles|
      invariant Buckets(bySize, Candidates(c, profiles[..i]))
    {
      assert profiles[..i + 1][..i] == profiles[..i];
      var how := ShareOf(c, profiles[i].dir);
      if how.Some? {
        bySize := FillFrom(c, profiles[i].inodes, how.value, bySize, Candidates(c, profiles[..i]));
      } else {
        assert Candidates(c, profiles[..i + 1]) == Candidates(c, profiles[..i]);
      }
    }
    assert profiles[..|profiles|] == profiles;
  }

  method FillFrom(c: Config, inodes: seq<Inode>, how: Share, start: map<(nat, nat), seq<Candidate>>, ghost before: seq<Candidate>)
    returns (bySize: map<(nat, nat), seq<Candidate>>)
    requires Buckets(start, before)
    ensures Buckets(bySize, before + EligibleOf(c, inodes, how))
  {
    bySize := start;
    ghost var done := before;
    assert done == before + EligibleOf(c, inodes[..0], how);
    for j := 0 to |inodes|
      invariant done == before + EligibleOf(c, inodes[..j], how)
      invariant Buckets(bySize, done)
    {
      assert inodes[..j + 1][..j] == inodes[..j];
      if Eligible(c, inodes[j]) {
        BucketedOneMore(bySize, done, Candidate(inodes[j], how));
        bySize := Bucketed(bySize, Candidate(inodes[j], how));
        done := done + [Candidate(inodes[j], how)];
      }
    }
    assert inodes[..|inodes|] == inodes;
  }

  lemma MoreThanOneIffTwin(xs: seq<Candidate>, key: (nat, nat))
    ensures forall x: Candidate :: SizeKey(x) == key ==> (|OfSize(xs, key)| > 1 <==> HasTwin(xs, x))
  {
    forall x: Candidate | SizeKey(x) == key ensures |OfSize(xs, key)| > 1 <==> HasTwin(xs, x) {
      if HasTwin(xs, x) {
        ATwinMakesTwo(xs, x);
      } else if |OfSize(xs, key)| > 1 {
        TwoMakeATwin(xs, x);
      }
    }
  }

  /** The size prefilter: a file whose size is unique on its device is never looked at again. */
  method Prefilter(c: Config, profiles: seq<Profile>) returns (candidates: seq<Candidate>)
    requires Separate(Candidates(c, profiles))
    ensures forall x :: x in candidates <==> x in Candidates(c, profiles) && HasTwin(Candidates(c, profiles), x)
    ensures Separate(candidates)
  {
    var bySize := FillBuckets(c, profiles);
    ghost var all := Candidates(c, profiles);
    candidates := [];
    var todo := bySize.Keys;
    while todo != {}
      invariant todo <= bySize.Keys
      invariant forall x :: x in candidates <==> x in all && SizeKey(x) !in todo && HasTwin(all, x)
      invariant Separate(candidates)
      decreases todo
    {
      var key :| key in todo;
      OfSizeMembers(all, key);
      MoreThanOneIffTwin(all, key);
      if |bySize[key]| > 1 {
        OfSizeSeparate(all, key);
        JoinSeparate(all, candidates, bySize[key]);
        candidates := candidates + bySize[key];
      }
      todo := todo - {key};
    }
  }

  /** What hashing made of the index: an entry is the one it was, or a candidate's with the hash of what its
      first path read. */
  ghost predicate Learned(h: Hasher, fs: Fs, m0: Entries, m1: Entries, xs: seq<Candidate>) {
    && m0.Keys <= m1.Keys
    && (forall id :: id in m1 ==>
          || (id in m0 && m1[id].entry == m0[id].entry)
          || (exists x :: x in xs && x.inode.stamp.id == id && IsHashOf(h, fs, m1, x)))
    && (forall x :: x in xs && Lookup(m0, x.inode.stamp).Some? ==> Lookup(m1, x.inode.stamp) == Lookup(m0, x.inode.stamp))
    && (forall x :: x in xs && Lookup(m0, x.inode.stamp).None? && Lookup(m1, x.inode.stamp).Some? ==> IsHashOf(h, fs, m1, x))
  }

  ghost predicate IsHashOf(h: Hasher, fs: Fs, m: Entries, x: Candidate) {
    && x.inode.stamp.id in m && x.inode.paths != [] && fs.Has(x.inode.paths[0])
    && m[x.inode.stamp.id].entry == Entry(x.inode.stamp.size, x.inode.stamp.mtime, h(fs.At(x.inode.paths[0]).bytes), false)
  }

  /** The candidates this index has no hash of. */
  function UnknownTo(m: Entries, xs: seq<Candidate>): seq<Candidate> {
    if xs == [] then []
    else
      var last := xs[|xs| - 1];
      UnknownTo(m, xs[..|xs| - 1]) + if Hits(m, last.inode.stamp) then [] else [last]
  }

  lemma {:induction false} UnknownAt(m: Entries, xs: seq<Candidate>)
    ensures forall x :: x in UnknownTo(m, xs) <==> x in xs && !Hits(m, x.inode.stamp)
  {
    if xs != [] {
      UnknownAt(m, xs[..|xs| - 1]);
      assert xs == xs[..|xs| - 1] + [xs[|xs| - 1]];
    }
  }

  /** Hashes the candidates the index does not know. An unreadable one stays out of every group. */
  method HashUnknown(candidates: seq<Candidate>, index: HashIndex, disk: Disk, h: Hasher) returns (hashed: nat)
    requires disk.Valid() && Separate(candidates)
    modifies index`entries
    ensures Learned(h, disk.fs, old(index.entries), index.entries, candidates)
    ensures !disk.faulty ==> forall x :: x in candidates && x.inode.paths[0] in disk.fs.names ==> Hits(index.entries, x.inode.stamp)
    ensures hashed == |UnknownTo(old(index.entries), candidates)|
  {
    ghost var m0 := index.entries;
    var unknown: seq<Candidate> := [];
    for k := 0 to |candidates|
      invariant forall stamp :: Lookup(index.entries, stamp) == Lookup(m0, stamp)
      invariant index.entries.Keys == m0.Keys && forall id :: id in m0 ==> index.entries[id].entry == m0[id].entry
      invariant unknown == UnknownTo(m0, candidates[..k])
    {
      assert candidates[..k + 1][..k] == candidates[..k];
      var found := index.Get(candidates[k].inode.stamp);
      if found.None? {
        unknown := unknown + [candidates[k]];
      }
    }
    assert candidates[..|candidates|] == candidates;
    hashed := |unknown|;
    UnknownAt(m0, candidates);
    HashAll(candidates, unknown, index, disk, h, m0);
  }

  /** Reads and hashes each of `unknown`. */
  method HashAll(ghost candidates: seq<Candidate>, unknown: seq<Candidate>, index: HashIndex, disk: Disk, h: Hasher, ghost m0: Entries)
    requires disk.Valid() && Separate(candidates) && Learned(h, disk.fs, m0, index.entries, candidates)
    requires forall x :: x in unknown ==> x in candidates && !Hits(m0, x.inode.stamp)
    requires forall x :: x in candidates && Hits(m0, x.inode.stamp) ==> Hits(index.entries, x.inode.stamp)
    modifies index`entries
    ensures Learned(h, disk.fs, m0, index.entries, candidates)
    ensures forall x :: x in candidates && Hits(m0, x.inode.stamp) ==> Hits(index.entries, x.inode.stamp)
    ensures !disk.faulty ==> forall x :: x in unknown && x.inode.paths[0] in disk.fs.names ==> Hits(index.entries, x.inode.stamp)
  {
    for k := 0 to |unknown|
      invariant Learned(h, disk.fs, m0, index.entries, candidates)
      invariant forall x :: x in candidates && Hits(m0, x.inode.stamp) ==> Hits(index.entries, x.inode.stamp)
      invariant !disk.faulty ==> forall x :: x in unknown[..k] && x.inode.paths[0] in disk.fs.names ==> Hits(index.entries, x.inode.stamp)
    {
      var x := unknown[k];
      assert x in unknown && x in candidates;
      var bytes := disk.Read(x.inode.paths[0]);
      if bytes.Done? {
        ghost var m := index.entries;
        index.Put(x.inode.stamp, h(bytes.value), false);
        LearnedOneMore(h, disk.fs, m0, m, index.entries, candidates, x, index.now);
      }
    }
    assert unknown[..|unknown|] == unknown;
  }

  lemma LearnedOneMore(h: Hasher, fs: Fs, m0: Entries, m: Entries, m1: Entries, xs: seq<Candidate>, x: Candidate, now: nat)
    requires Learned(h, fs, m0, m, xs) && Separate(xs) && x in xs && !Hits(m0, x.inode.stamp)
    requires fs.Has(x.inode.paths[0])
    requires m1 == PutIn(m, x.inode.stamp, h(fs.At(x.inode.paths[0]).bytes), false, now)
    ensures Learned(h, fs, m0, m1, xs)
    ensures forall y :: y in xs && Hits(m, y.inode.stamp) ==> Hits(m1, y.inode.stamp)
    ensures Hits(m1, x.inode.stamp)
  {
    forall y | y in xs && y != x ensures y.inode.stamp.id != x.inode.stamp.id {
      DifferentFiles(xs, x, y);
    }
    assert IsHashOf(h, fs, m1, x);
    forall id | id in m1
      ensures (id in m0 && m1[id].entry == m0[id].entry) || (exists y :: y in xs && y.inode.stamp.id == id && IsHashOf(h, fs, m1, y))
    {
      if id != x.inode.stamp.id && !(id in m0 && m[id].entry == m0[id].entry) {
        var y :| y in xs && y.inode.stamp.id == id && IsHashOf(h, fs, m, y);
        assert IsHashOf(h, fs, m1, y);
      }
    }
  }

  /** An inode of a content group: whether an earlier run shared it already, and how this one would. */
  datatype Member = Member(inode: Inode, shared: bool, how: Share)

  type Content = (nat, Hash)

  /** What decides who is the canonical inode: shared first, then compressed, then the oldest, then by path. */
  datatype Rank = Rank(unshared: bool, plain: bool, mtime: int, path: Path)

  function RankOf(x: Member): Rank {
    Rank(!x.shared, !x.inode.flags.compressed, x.inode.stamp.mtime, if x.inode.paths == [] then [] else x.inode.paths[0])
  }

  predicate RankLess(a: Rank, b: Rank) {
    if a.unshared != b.unshared then !a.unshared
    else if a.plain != b.plain then !a.plain
    else if a.mtime != b.mtime then a.mtime < b.mtime
    else PathLess(a.path, b.path)
  }

  lemma RankOrder()
    ensures StrictTotal(RankLess)
  {
    PathOrder();
  }

  /** The candidate as a member of its group, where the index has a hash for it. */
  function Known(m: Entries, x: Candidate): Option<Member> {
    match Lookup(m, x.inode.stamp)
    case None => None
    case Some(entry) => Some(Member(x.inode, entry.shared, x.how))
  }

  /** Device and hash. */
  function ContentOf(m: Entries, stamp: Stamp): Option<Content> {
    match Lookup(m, stamp)
    case None => None
    case Some(entry) => Some((stamp.id.dev, entry.hash))
  }

  /** `y` is a known candidate of the content `key`. */
  ghost predicate InGroup(m: Entries, xs: seq<Candidate>, key: Content, y: Member) {
    exists x :: x in xs && Known(m, x) == Some(y) && ContentOf(m, x.inode.stamp) == Some(key)
  }

  /** The members of a group are files of their own, as are their first paths. */
  ghost predicate Apart(group: seq<Member>) {
    && (forall x :: x in group ==> x.inode.paths != [])
    && (forall i, j :: 0 <= i < j < |group| ==>
          group[i].inode.stamp.id != group[j].inode.stamp.id && group[i].inode.paths[0] != group[j].inode.paths[0])
  }

  ghost predicate Groups(m: Entries, xs: seq<Candidate>, groups: map<Content, seq<Member>>) {
    && (forall key, y :: InGroup(m, xs, key, y) ==> key in groups)
    && (forall key :: key in groups ==>
          && groups[key] != [] && Apart(groups[key])
          && (forall y :: y in groups[key] <==> InGroup(m, xs, key, y)))
  }

  /** Candidates of one content on one device, grouped. */
  method GroupByContent(candidates: seq<Candidate>, index: HashIndex) returns (groups: map<Content, seq<Member>>)
    requires Separate(candidates)
    modifies index`entries
    ensures index.entries.Keys == old(index.entries).Keys
    ensures forall id :: id in old(index.entries) ==> index.entries[id].entry == old(index.entries)[id].entry
    ensures Groups(old(index.entries), candidates, groups)
  {
    ghost var m := index.entries;
    groups := map[];
    for k := 0 to |candidates|
      invariant index.entries.Keys == m.Keys && forall id :: id in m ==> index.entries[id].entry == m[id].entry
      invariant Groups(m, candidates[..k], groups)
    {
      var x := candidates[k];
      var entry := index.Get(x.inode.stamp);
      assert entry == Lookup(m, x.inode.stamp);
      ghost var more := candidates[..k + 1];
      assert more == candidates[..k] + [x];
      match entry {
        case None =>
          UngroupedOneMore(m, candidates[..k], x, more, groups);
        case Some(e) =>
          var key := (x.inode.stamp.id.dev, e.hash);
          GroupedOneMore(m, candidates[..k], x, more, groups, key, Member(x.inode, e.shared, x.how));
          groups := groups[key := (if key in groups then groups[key] else []) + [Member(x.inode, e.shared, x.how)]];
      }
    }
    assert candidates[..|candidates|] == candidates;
  }

  lemma UngroupedOneMore(m: Entries, xs: seq<Candidate>, x: Candidate, more: seq<Candidate>, groups: map<Content, seq<Member>>)
    requires more == xs + [x] && Groups(m, xs, groups) && Lookup(m, x.inode.stamp).None?
    ensures Groups(m, more, groups)
  {
    forall key, y | InGroup(m, more, key, y) ensures InGroup(m, xs, key, y) {
      var z :| z in more && Known(m, z) == Some(y) && ContentOf(m, z.inode.stamp) == Some(key);
      assert z in xs;
    }
    forall key, y | InGroup(m, xs, key, y) ensures InGroup(m, more, key, y) {
      var z :| z in xs && Known(m, z) == Some(y) && ContentOf(m, z.inode.stamp) == Some(key);
      assert z in more;
    }
  }

  lemma InGroupOneMore(m: Entries, xs: seq<Candidate>, x: Candidate, more: seq<Candidate>, key: Content, y: Member)
    requires more == xs + [x] && Known(m, x) == Some(y) && ContentOf(m, x.inode.stamp) == Some(key)
    ensures forall other, z :: InGroup(m, more, other, z) <==> InGroup(m, xs, other, z) || (other == key && z == y)
  {
    forall other, z | InGroup(m, more, other, z) ensures InGroup(m, xs, other, z) || (other == key && z == y) {
      var w :| w in more && Known(m, w) == Some(z) && ContentOf(m, w.inode.stamp) == Some(other);
      assert w in xs || w == x;
    }
    forall other, z | InGroup(m, xs, other, z) ensures InGroup(m, more, other, z) {
      var w :| w in xs && Known(m, w) == Some(z) && ContentOf(m, w.inode.stamp) == Some(other);
      assert w in more;
    }
    assert x in more && InGroup(m, more, key, y);
  }

  lemma OthersApart(m: Entries, xs: seq<Candidate>, x: Candidate, more: seq<Candidate>, key: Content, y: Member)
    requires more == xs + [x] && Separate(more) && Known(m, x) == Some(y)
    ensures forall z :: InGroup(m, xs, key, z) ==> z.inode.stamp.id != y.inode.stamp.id && z.inode.paths[0] != y.inode.paths[0]
  {
    forall z | InGroup(m, xs, key, z) ensures z.inode.stamp.id != y.inode.stamp.id && z.inode.paths[0] != y.inode.paths[0] {
      var w :| w in xs && Known(m, w) == Some(z);
      var i :| 0 <= i < |xs| && xs[i] == w;
      assert more[i] == w && more[|xs|] == x;
    }
  }

  lemma GroupedOneMore(m: Entries, xs: seq<Candidate>, x: Candidate, more: seq<Candidate>, groups: map<Content, seq<Member>>, key: Content, y: Member)
    requires more == xs + [x] && Separate(more) && Groups(m, xs, groups)
    requires Known(m, x) == Some(y) && ContentOf(m, x.inode.stamp) == Some(key)
    ensures Groups(m, more, groups[key := (if key in groups then groups[key] else []) + [y]])
  {
    InGroupOneMore(m, xs, x, more, key, y);
    OthersApart(m, xs, x, more, key, y);
    assert more[|xs|] == x && x in more;
    if key in groups {
      forall z | z in groups[key] ensures InGroup(m, xs, key, z) {}
    }
  }

  /** What an inode of a group is replaced with. */
  function Pointed(canonical: Member, y: Member): Replace {
    Replace(if canonical.inode.paths == [] then [] else canonical.inode.paths[0], canonical.inode.stamp, y.inode, y.how)
  }

  ghost predicate Least(group: seq<Member>, c: Member) {
    c in group && forall y :: y in group && y != c ==> RankLess(RankOf(c), RankOf(y))
  }

  /** `r` points an inode of the group that is not shared yet at the group's least. */
  ghost predicate Points(group: seq<Member>, r: Replace) {
    exists c, y :: Least(group, c) && y in group && y != c && !y.shared && r == Pointed(c, y)
  }

  ghost predicate NoSharedMember(actions: seq<Replace>) {
    forall i, j :: 0 <= i < j < |actions| ==> actions[i].member.stamp.id != actions[j].member.stamp.id
  }

  lemma RankedApart(group: seq<Member>, sorted: seq<Member>)
    requires group != [] && Apart(group) && sorted == Sort(RankLess, RankOf, group)
    ensures |sorted| == |group| && forall y :: y in sorted <==> y in group
    ensures forall i, j :: 0 <= i < j < |sorted| ==>
              sorted[i].inode.stamp.id != sorted[j].inode.stamp.id && RankLess(RankOf(sorted[i]), RankOf(sorted[j]))
    ensures forall c :: Least(group, c) <==> c == sorted[0]
  {
    RankOrder();
    forall i, j | 0 <= i < j < |group| ensures RankOf(group[i]) != RankOf(group[j]) {
      assert group[i] in group && group[j] in group;
    }
    SortStrict(RankLess, RankOf, group);
    SortMembers(RankLess, RankOf, group);
    PermutedDistinct((y: Member) => y.inode.stamp.id, group, sorted);
    LeastIsFirst(group, sorted);
  }

  lemma LeastIsFirst(group: seq<Member>, sorted: seq<Member>)
    requires sorted != [] && forall y :: y in sorted <==> y in group
    requires StrictlySorted(RankLess, RankOf, sorted)
    ensures forall c :: Least(group, c) <==> c == sorted[0]
  {
    RankOrder();
    forall y | y in group && y != sorted[0] ensures RankLess(RankOf(sorted[0]), RankOf(y)) {
      var j :| 0 <= j < |sorted| && sorted[j] == y;
    }
    forall c | Least(group, c) ensures c == sorted[0] {
      assert sorted[0] in group;
    }
  }

  function Pointing(canonical: Member, others: seq<Member>): seq<Replace> {
    if others == [] then []
    else
      var last := others[|others| - 1];
      Pointing(canonical, others[..|others| - 1]) + if last.shared then [] else [Pointed(canonical, last)]
  }

  lemma {:induction false} PointingAt(canonical: Member, others: seq<Member>)
    ensures forall r :: r in Pointing(canonical, others) <==> exists y :: y in others && !y.shared && r == Pointed(canonical, y)
  {
    if others != [] {
      var front, last := others[..|others| - 1], others[|others| - 1];
      PointingAt(canonical, front);
      forall r ensures r in Pointing(canonical, others) <==> exists y :: y in others && !y.shared && r == Pointed(canonical, y) {
        assert others == front + [last];
      }
    }
  }

  lemma {:induction false} PointingMembers(canonical: Member, others: seq<Member>)
    requires forall i, j :: 0 <= i < j < |others| ==> others[i].inode.stamp.id != others[j].inode.stamp.id
    ensures forall r :: r in Pointing(canonical, others) <==> exists y :: y in others && !y.shared && r == Pointed(canonical, y)
    ensures NoSharedMember(Pointing(canonical, others))
  {
    PointingAt(canonical, others);
    if others != [] {
      var front, last := others[..|others| - 1], others[|others| - 1];
      PointingMembers(canonical, front);
      forall r | r in Pointing(canonical, front) ensures r.member.stamp.id != last.inode.stamp.id {
        var y :| y in front && !y.shared && r == Pointed(canonical, y);
        var i :| 0 <= i < |front| && front[i] == y;
        assert others[i] == y;
      }
    }
  }

  lemma PointsAll(group: seq<Member>, sorted: seq<Member>)
    requires group != [] && Apart(group) && sorted == Sort(RankLess, RankOf, group)
    ensures forall r :: r in Pointing(sorted[0], sorted[1..]) <==> Points(group, r)
    ensures NoSharedMember(Pointing(sorted[0], sorted[1..]))
  {
    RankedApart(group, sorted);
    PointingMembers(sorted[0], sorted[1..]);
    forall y ensures y in sorted[1..] <==> y in group && y != sorted[0] {
      if y in sorted && y != sorted[0] {
        var i :| 0 <= i < |sorted| && sorted[i] == y;
        assert sorted[1..][i - 1] == y;
      }
    }
    assert Least(group, sorted[0]);
  }

  /** Points every unshared inode of a group at its least one. */
  method PlanGroup(group: seq<Member>) returns (actions: seq<Replace>)
    requires group != [] && Apart(group)
    ensures forall r :: r in actions <==> Points(group, r)
    ensures NoSharedMember(actions)
  {
    var sorted := Sort(RankLess, RankOf, group);
    PointsAll(group, sorted);
    actions := PointAll(sorted[0], sorted[1..]);
  }

  method PointAll(canonical: Member, others: seq<Member>) returns (actions: seq<Replace>)
    ensures actions == Pointing(canonical, others)
  {
    actions := [];
    for k := 0 to |others|
      invariant actions == Pointing(canonical, others[..k])
    {
      assert others[..k + 1][..k] == others[..k];
      if !others[k].shared {
        actions := actions + [Pointed(canonical, others[k])];
      }
    }
    assert others[..|others|] == others;
  }

  /** What hashing did leaves a sound index sound, if what was read is what the files have that answer to the stamps. */
  lemma LearnedSound(h: Hasher, fs: Fs, m0: Entries, m1: Entries, xs: seq<Candidate>, nodes: map<FileId, Node>)
    requires Learned(h, fs, m0, m1, xs) && Sound(h, m0, nodes)
    requires forall x :: x in xs && x.inode.paths != [] && fs.Has(x.inode.paths[0]) && x.inode.stamp.id in nodes ==>
               fs.At(x.inode.paths[0]).bytes == nodes[x.inode.stamp.id].bytes
    ensures Sound(h, m1, nodes)
  {}

  /** The files behind the candidates as they were when scanned, and still read as long as they are there. */
  ghost predicate Pictured(seen: Fs, fs: Fs, xs: seq<Candidate>) {
    forall x :: x in xs ==>
      && Describes(seen, x.inode) && x.inode.paths != []
      && (fs.Has(x.inode.paths[0]) ==> fs.At(x.inode.paths[0]).bytes == seen.nodes[x.inode.stamp.id].bytes)
  }

  ghost function BytesOf(seen: Fs, x: Candidate): Bytes {
    if x.inode.stamp.id in seen.nodes then seen.nodes[x.inode.stamp.id].bytes else []
  }

  /** No two candidates have one hash and different bytes. */
  ghost predicate CollisionFree(h: Hasher, seen: Fs, xs: seq<Candidate>) {
    forall x, y :: x in xs && y in xs && h(BytesOf(seen, x)) == h(BytesOf(seen, y)) ==> BytesOf(seen, x) == BytesOf(seen, y)
  }

  function MemberOf(m: Entries, x: Candidate): Member {
    Member(x.inode, Hits(m, x.inode.stamp) && m[x.inode.stamp.id].entry.shared, x.how)
  }

  /** The same bytes on the same device. */
  ghost predicate Twins(seen: Fs, x: Candidate, y: Candidate) {
    && x.inode.stamp.id in seen.nodes && y.inode.stamp.id in seen.nodes
    && x.inode.stamp.id.dev == y.inode.stamp.id.dev
    && seen.nodes[x.inode.stamp.id].bytes == seen.nodes[y.inode.stamp.id].bytes
  }

  /** `x` comes first in canonical order of all readable candidates with the bytes of `y`. */
  ghost predicate Canonical(seen: Fs, m: Entries, all: seq<Candidate>, unread: set<FileId>, x: Candidate, y: Candidate) {
    && x in all && x.inode.stamp.id !in unread && Twins(seen, x, y)
    && forall z :: z in all && z.inode.stamp.id !in unread && Twins(seen, z, y) && z != x ==>
         RankLess(RankOf(MemberOf(m, x)), RankOf(MemberOf(m, z)))
  }

  /** The plan that compares bytes: `r` points a readable file not shared yet at the canonical one of its content. */
  ghost predicate Wanted(seen: Fs, m: Entries, all: seq<Candidate>, unread: set<FileId>, r: Replace) {
    exists x, y :: y in all && y.inode.stamp.id !in unread && Canonical(seen, m, all, unread, x, y) && x != y
      && !MemberOf(m, y).shared && r == Pointed(MemberOf(m, x), MemberOf(m, y))
  }

  ghost function Unread(m: Entries, asked: seq<Candidate>): set<FileId> {
    set x | x in asked && !Hits(m, x.inode.stamp) :: x.inode.stamp.id
  }

  /** The hashes decide as the bytes do. */
  lemma SameContentIffTwins(h: Hasher, seen: Fs, m: Entries, all: seq<Candidate>, x: Candidate, y: Candidate)
    requires x in all && y in all && Describes(seen, x.inode) && Describes(seen, y.inode)
    requires Sound(h, m, seen.nodes) && CollisionFree(h, seen, all)
    requires Hits(m, x.inode.stamp) && Hits(m, y.inode.stamp)
    ensures ContentOf(m, x.inode.stamp) == ContentOf(m, y.inode.stamp) <==> Twins(seen, x, y)
  {}

  /** No twin is lost to the prefilter. */
  lemma TwinsAreAsked(seen: Fs, all: seq<Candidate>, asked: seq<Candidate>, x: Candidate, y: Candidate)
    requires forall z :: z in asked <==> z in all && HasTwin(all, z)
    requires x in all && y in all && x != y && Describes(seen, x.inode) && Describes(seen, y.inode) && Twins(seen, x, y)
    ensures x in asked && y in asked
  {
    var i :| 0 <= i < |all| && all[i] == x;
    var j :| 0 <= j < |all| && all[j] == y;
    assert SizeKey(x) == SizeKey(y);
    assert i < j || j < i;
  }

  ghost predicate PointsIn(groups: map<Content, seq<Member>>, done: set<Content>, r: Replace) {
    exists key :: key in done && key in groups && Points(groups[key], r)
  }

  /** What the planner knows of a file is what the simple plan goes by. */
  lemma KnownIsMember(h: Hasher, fs: Fs, m0: Entries, m: Entries, asked: seq<Candidate>, x: Candidate)
    requires Learned(h, fs, m0, m, asked) && x in asked && Hits(m, x.inode.stamp)
    ensures Known(m, x) == Some(MemberOf(m0, x))
  {
    if Lookup(m0, x.inode.stamp).Some? {
      assert Lookup(m, x.inode.stamp) == Lookup(m0, x.inode.stamp);
    }
  }

  /** All that a plan rests on: true scans, a sound index before hashing, the index after it, and the groups. */
  ghost predicate Informed(h: Hasher, seen: Fs, fs: Fs, m0: Entries, m: Entries, all: seq<Candidate>, asked: seq<Candidate>,
                           groups: map<Content, seq<Member>>) {
    && Pictured(seen, fs, all) && Separate(all)
    && (forall z :: z in asked <==> z in all && HasTwin(all, z))
    && Learned(h, fs, m0, m, asked)
    && Sound(h, m, seen.nodes) && CollisionFree(h, seen, all)
    && Groups(m, asked, groups)
  }

  lemma ReadIfHit(m: Entries, all: seq<Candidate>, asked: seq<Candidate>, x: Candidate)
    requires Separate(all) && (forall z :: z in asked ==> z in all) && x in asked
    ensures Hits(m, x.inode.stamp) <==> x.inode.stamp.id !in Unread(m, asked)
  {
    forall z | z in asked && z.inode.stamp.id == x.inode.stamp.id ensures z == x {
      if z != x {
        DifferentFiles(all, x, z);
      }
    }
  }

  /** A readable candidate is in the group of its content, and stands for itself there. */
  lemma Grouped(h: Hasher, seen: Fs, fs: Fs, m0: Entries, m: Entries, all: seq<Candidate>, asked: seq<Candidate>,
                groups: map<Content, seq<Member>>, x: Candidate)
    requires Informed(h, seen, fs, m0, m, all, asked, groups) && x in asked && x.inode.stamp.id !in Unread(m, asked)
    ensures ContentOf(m, x.inode.stamp).Some?
    ensures ContentOf(m, x.inode.stamp).value in groups && MemberOf(m0, x) in groups[ContentOf(m, x.inode.stamp).value]
  {
    ReadIfHit(m, all, asked, x);
    KnownIsMember(h, fs, m0, m, asked, x);
    assert InGroup(m, asked, ContentOf(m, x.inode.stamp).value, MemberOf(m0, x));
  }

  lemma FromGroup(h: Hasher, seen: Fs, fs: Fs, m0: Entries, m: Entries, all: seq<Candidate>, asked: seq<Candidate>,
                  groups: map<Content, seq<Member>>, key: Content, y: Member) returns (x: Candidate)
    requires Informed(h, seen, fs, m0, m, all, asked, groups) && key in groups && y in groups[key]
    ensures x in asked && x in all && y == MemberOf(m0, x) && x.inode.stamp.id !in Unread(m, asked)
    ensures Hits(m, x.inode.stamp) && ContentOf(m, x.inode.stamp) == Some(key)
  {
    assert InGroup(m, asked, key, y);
    x :| x in asked && Known(m, x) == Some(y) && ContentOf(m, x.inode.stamp) == Some(key);
    KnownIsMember(h, fs, m0, m, asked, x);
    ReadIfHit(m, all, asked, x);
  }

  lemma PointsAreWanted(h: Hasher, seen: Fs, fs: Fs, m0: Entries, m: Entries, all: seq<Candidate>, asked: seq<Candidate>,
                        groups: map<Content, seq<Member>>, key: Content, r: Replace)
    requires Informed(h, seen, fs, m0, m, all, asked, groups) && key in groups && Points(groups[key], r)
    ensures Wanted(seen, m0, all, Unread(m, asked), r)
  {
    var c, y :| Least(groups[key], c) && y in groups[key] && y != c && !y.shared && r == Pointed(c, y);
    var cx := FromGroup(h, seen, fs, m0, m, all, asked, groups, key, c);
    var yx := FromGroup(h, seen, fs, m0, m, all, asked, groups, key, y);
    SameContentIffTwins(h, seen, m, all, cx, yx);
    forall z | z in all && z.inode.stamp.id !in Unread(m, asked) && Twins(seen, z, yx) && z != cx
      ensures RankLess(RankOf(c), RankOf(MemberOf(m0, z)))
    {
      if z != yx {
        TwinsAreAsked(seen, all, asked, z, yx);
      }
      ReadIfHit(m, all, asked, z);
      SameContentIffTwins(h, seen, m, all, z, yx);
      Grouped(h, seen, fs, m0, m, all, asked, groups, z);
      DifferentFiles(all, z, cx);
    }
    assert Canonical(seen, m0, all, Unread(m, asked), cx, yx);
  }

  lemma WantedArePoints(h: Hasher, seen: Fs, fs: Fs, m0: Entries, m: Entries, all: seq<Candidate>, asked: seq<Candidate>,
                        groups: map<Content, seq<Member>>, r: Replace)
    requires Informed(h, seen, fs, m0, m, all, asked, groups) && Wanted(seen, m0, all, Unread(m, asked), r)
    ensures PointsIn(groups, groups.Keys, r)
  {
    var unread := Unread(m, asked);
    var x, y :| y in all && y.inode.stamp.id !in unread && Canonical(seen, m0, all, unread, x, y) && x != y
      && !MemberOf(m0, y).shared && r == Pointed(MemberOf(m0, x), MemberOf(m0, y));
    TwinsAreAsked(seen, all, asked, x, y);
    ReadIfHit(m, all, asked, x);
    ReadIfHit(m, all, asked, y);
    SameContentIffTwins(h, seen, m, all, x, y);
    Grouped(h, seen, fs, m0, m, all, asked, groups, x);
    Grouped(h, seen, fs, m0, m, all, asked, groups, y);
    DifferentFiles(all, x, y);
    var key, c := ContentOf(m, y.inode.stamp).value, MemberOf(m0, x);
    forall w | w in groups[key] && w != c ensures RankLess(RankOf(c), RankOf(w)) {
      var z := FromGroup(h, seen, fs, m0, m, all, asked, groups, key, w);
      SameContentIffTwins(h, seen, m, all, z, y);
    }
    assert Least(groups[key], c);
    assert Points(groups[key], r);
  }

  /** Files in different groups are different files. */
  lemma GroupsApart(m: Entries, asked: seq<Candidate>, groups: map<Content, seq<Member>>, k: Content, l: Content, y: Member, z: Member)
    requires Groups(m, asked, groups) && Separate(asked)
    requires k in groups && l in groups && y in groups[k] && z in groups[l]
    ensures y.inode.stamp.id == z.inode.stamp.id ==> k == l && y == z
  {
    assert InGroup(m, asked, k, y) && InGroup(m, asked, l, z);
    var x :| x in asked && Known(m, x) == Some(y) && ContentOf(m, x.inode.stamp) == Some(k);
    var w :| w in asked && Known(m, w) == Some(z) && ContentOf(m, w.inode.stamp) == Some(l);
    if x != w {
      DifferentFiles(asked, x, w);
    }
  }

  /** Each action takes an eligible file for a member and the first path of another for the source. */
  ghost predicate Proper(all: seq<Candidate>, r: Replace) {
    exists x, y :: x in all && y in all && x.inode.stamp.id != y.inode.stamp.id && x.inode.stamp.id.dev == y.inode.stamp.id.dev
      && x.inode.paths != [] && r == Replace(x.inode.paths[0], x.inode.stamp, y.inode, y.how)
  }

  /** No action's source is another's member. */
  ghost predicate NoClash(actions: seq<Replace>) {
    forall r, s :: r in actions && s in actions ==> r.sourceStamp.id != s.member.stamp.id
  }

  /** The canonical inode is shared if any is, among those compressed if any is, among those as old as any, and among
      equals the first by path: clones stay shared and stay compressed. */
  lemma CanonicalPrefers(group: seq<Member>, c: Member, y: Member)
    requires Least(group, c) && y in group
    ensures y.shared ==> c.shared
    ensures y.shared == c.shared && y.inode.flags.compressed ==> c.inode.flags.compressed
    ensures y.shared == c.shared && y.inode.flags.compressed == c.inode.flags.compressed ==> c.inode.stamp.mtime <= y.inode.stamp.mtime
    ensures y != c && RankOf(y) == RankOf(c).(path := RankOf(y).path) ==> PathLess(RankOf(c).path, RankOf(y).path)
  {}

  lemma OneLeast(group: seq<Member>, c: Member, d: Member)
    requires Least(group, c) && Least(group, d)
    ensures c == d
  {
    RankAsymmetric(RankOf(c), RankOf(d));
  }

  lemma RankAsymmetric(a: Rank, b: Rank)
    ensures !(RankLess(a, b) && RankLess(b, a))
  {
    RankOrder();
  }

  lemma PointsProper(m: Entries, asked: seq<Candidate>, groups: map<Content, seq<Member>>, k: Content, r: Replace)
    requires Groups(m, asked, groups) && Separate(asked) && k in groups && Points(groups[k], r)
    ensures Proper(asked, r)
  {
    var c, y :| Least(groups[k], c) && y in groups[k] && y != c && !y.shared && r == Pointed(c, y);
    GroupsApart(m, asked, groups, k, k, c, y);
    assert InGroup(m, asked, k, c) && InGroup(m, asked, k, y);
    var cx :| cx in asked && Known(m, cx) == Some(c) && ContentOf(m, cx.inode.stamp) == Some(k);
    var yx :| yx in asked && Known(m, yx) == Some(y) && ContentOf(m, yx.inode.stamp) == Some(k);
  }

  lemma PointsClash(m: Entries, asked: seq<Candidate>, groups: map<Content, seq<Member>>, k: Content, l: Content, r: Replace, s: Replace)
    requires Groups(m, asked, groups) && Separate(asked)
    requires k in groups && l in groups && Points(groups[k], r) && Points(groups[l], s)
    ensures r.sourceStamp.id != s.member.stamp.id
    ensures k != l ==> r.member.stamp.id != s.member.stamp.id
  {
    var c, y :| Least(groups[k], c) && y in groups[k] && y != c && !y.shared && r == Pointed(c, y);
    var d, z :| Least(groups[l], d) && z in groups[l] && z != d && !z.shared && s == Pointed(d, z);
    GroupsApart(m, asked, groups, k, l, c, z);
    GroupsApart(m, asked, groups, k, l, y, z);
    if k == l {
      OneLeast(groups[k], c, d);
    }
  }

  ghost predicate Planning(groups: map<Content, seq<Member>>, done: set<Content>, actions: seq<Replace>) {
    && (forall r :: r in actions <==> PointsIn(groups, done, r))
    && NoSharedMember(actions)
  }

  lemma PlannedOneMore(m: Entries, asked: seq<Candidate>, groups: map<Content, seq<Member>>, done: set<Content>, key: Content,
                       actions: seq<Replace>, more: seq<Replace>)
    requires Groups(m, asked, groups) && Separate(asked) && done <= groups.Keys && key in groups && key !in done
    requires Planning(groups, done, actions) && NoSharedMember(more) && forall r :: r in more <==> Points(groups[key], r)
    ensures Planning(groups, done + {key}, actions + more)
  {
    forall r ensures r in actions + more <==> PointsIn(groups, done + {key}, r) {
      if PointsIn(groups, done, r) {
        var k :| k in done && k in groups && Points(groups[k], r);
        assert k in done + {key};
      }
      if r in more {
        assert key in done + {key};
      }
    }
    forall i, j | 0 <= i < |actions| && 0 <= j < |more| ensures actions[i].member.stamp.id != more[j].member.stamp.id {
      assert actions[i] in actions && more[j] in more;
      var k :| k in done && k in groups && Points(groups[k], actions[i]);
      PointsClash(m, asked, groups, k, key, actions[i], more[j]);
    }
  }

  /** The plan of all groups, in the order of the members' paths. */
  method PlanGroups(groups: map<Content, seq<Member>>, ghost m: Entries, ghost asked: seq<Candidate>) returns (actions: seq<Replace>)
    requires Groups(m, asked, groups) && Separate(asked)
    ensures forall r :: r in actions <==> PointsIn(groups, groups.Keys, r)
    ensures StrictlySorted(PathsLess, (r: Replace) => r.member.paths, actions)
    ensures NoSharedMember(actions) && NoClash(actions) && forall r :: r in actions ==> Proper(asked, r)
  {
    var found: seq<Replace> := [];
    var todo := groups.Keys;
    while todo != {}
      invariant todo <= groups.Keys && Planning(groups, groups.Keys - todo, found)
      decreases todo
    {
      var key :| key in todo;
      var more := PlanGroup(groups[key]);
      PlannedOneMore(m, asked, groups, groups.Keys - todo, key, found, more);
      assert groups.Keys - (todo - {key}) == groups.Keys - todo + {key};
      found := found + more;
      todo := todo - {key};
    }
    assert groups.Keys - todo == groups.Keys;
    actions := Sort(PathsLess, (r: Replace) => r.member.paths, found);
    PlanSorted(m, asked, groups, found);
  }

  lemma FoundProper(m: Entries, asked: seq<Candidate>, groups: map<Content, seq<Member>>, found: seq<Replace>)
    requires Groups(m, asked, groups) && Separate(asked) && Planning(groups, groups.Keys, found)
    ensures NoClash(found) && forall r :: r in found ==> Proper(asked, r)
  {
    forall r | r in found ensures Proper(asked, r) {
      var k :| k in groups.Keys && k in groups && Points(groups[k], r);
      PointsProper(m, asked, groups, k, r);
    }
    forall r, s | r in found && s in found ensures r.sourceStamp.id != s.member.stamp.id {
      var k :| k in groups.Keys && k in groups && Points(groups[k], r);
      var l :| l in groups.Keys && l in groups && Points(groups[l], s);
      PointsClash(m, asked, groups, k, l, r, s);
    }
  }

  lemma MemberIsCandidate(all: seq<Candidate>, r: Replace)
    requires Proper(all, r)
    ensures exists y :: y in all && y.inode == r.member
  {
    var x, y :| x in all && y in all && x.inode.stamp.id != y.inode.stamp.id && x.inode.stamp.id.dev == y.inode.stamp.id.dev
      && x.inode.paths != [] && r == Replace(x.inode.paths[0], x.inode.stamp, y.inode, y.how);
  }

  lemma MemberPathsDiffer(all: seq<Candidate>, actions: seq<Replace>)
    requires Separate(all) && NoSharedMember(actions) && forall r :: r in actions ==> Proper(all, r)
    ensures Distinct((r: Replace) => r.member.paths, actions)
  {
    forall i, j | 0 <= i < j < |actions| ensures actions[i].member.paths != actions[j].member.paths {
      MemberIsCandidate(all, actions[i]);
      MemberIsCandidate(all, actions[j]);
      var y :| y in all && y.inode == actions[i].member;
      var z :| z in all && z.inode == actions[j].member;
      DifferentFiles(all, y, z);
    }
  }

  lemma PlanSorted(m: Entries, asked: seq<Candidate>, groups: map<Content, seq<Member>>, found: seq<Replace>)
    requires Groups(m, asked, groups) && Separate(asked) && Planning(groups, groups.Keys, found)
    ensures var actions := Sort(PathsLess, (r: Replace) => r.member.paths, found);
            && (forall r :: r in actions <==> PointsIn(groups, groups.Keys, r))
            && StrictlySorted(PathsLess, (r: Replace) => r.member.paths, actions)
            && NoSharedMember(actions) && NoClash(actions) && (forall r :: r in actions ==> Proper(asked, r))
  {
    FoundProper(m, asked, groups, found);
    MemberPathsDiffer(asked, found);
    PathsOrder();
    SortStrict(PathsLess, (r: Replace) => r.member.paths, found);
    SortMembers(PathsLess, (r: Replace) => r.member.paths, found);
    NoSharedMemberSorted(found);
  }

  lemma NoSharedMemberSorted(found: seq<Replace>)
    requires NoSharedMember(found)
    ensures NoSharedMember(Sort(PathsLess, (r: Replace) => r.member.paths, found))
  {
    var actions := Sort(PathsLess, (r: Replace) => r.member.paths, found);
    PermutedDistinct((r: Replace) => r.member.stamp.id, found, actions);
    assert Distinct((r: Replace) => r.member.stamp.id, actions);
  }

  /** Another file of this size may be shared on this device. */
  ghost predicate HasEqualSize(c: Config, profiles: seq<Profile>, x: Inode) {
    exists y, how :: MayShareIn(c, profiles, y, how) && y.stamp.id != x.stamp.id && y.stamp.id.dev == x.stamp.id.dev
      && y.stamp.size == x.stamp.size
  }

  /** Each action replaces a file that may be shared so by another that may be, found by its first path; both are on one device. */
  ghost predicate Sharing(c: Config, profiles: seq<Profile>, r: Replace) {
    && MayShareIn(c, profiles, r.member, r.how)
    && exists x, how :: MayShareIn(c, profiles, x, how) && x.paths != [] && r.source == x.paths[0] && r.sourceStamp == x.stamp
         && x.stamp.id != r.member.stamp.id && x.stamp.id.dev == r.member.stamp.id.dev
  }

  lemma ProperIsSharing(c: Config, profiles: seq<Profile>, r: Replace)
    requires Proper(Candidates(c, profiles), r)
    ensures Sharing(c, profiles, r)
  {
    var all := Candidates(c, profiles);
    var x, y :| x in all && y in all && x.inode.stamp.id != y.inode.stamp.id && x.inode.stamp.id.dev == y.inode.stamp.id.dev
      && x.inode.paths != [] && r == Replace(x.inode.paths[0], x.inode.stamp, y.inode, y.how);
    CandidatesAre(c, profiles, x);
    CandidatesAre(c, profiles, y);
  }

  lemma TwinIsEqualSize(c: Config, profiles: seq<Profile>, x: Candidate)
    requires Separate(Candidates(c, profiles)) && x in Candidates(c, profiles)
    ensures HasTwin(Candidates(c, profiles), x) <==> HasEqualSize(c, profiles, x.inode)
  {
    var all := Candidates(c, profiles);
    if HasTwin(all, x) {
      var i, j :| 0 <= i < j < |all| && SizeKey(all[i]) == SizeKey(x) && SizeKey(all[j]) == SizeKey(x);
      var y := if all[i].inode.stamp.id == x.inode.stamp.id then all[j] else all[i];
      assert y in all && y.inode.stamp.id != x.inode.stamp.id;
      CandidatesAre(c, profiles, y);
    }
    if HasEqualSize(c, profiles, x.inode) {
      var y, how :| MayShareIn(c, profiles, y, how) && y.stamp.id != x.inode.stamp.id && y.stamp.id.dev == x.inode.stamp.id.dev
        && y.stamp.size == x.inode.stamp.size;
      CandidatesAre(c, profiles, Candidate(y, how));
      var i :| 0 <= i < |all| && all[i] == Candidate(y, how);
      var j :| 0 <= j < |all| && all[j] == x;
      assert SizeKey(all[i]) == SizeKey(x) && SizeKey(all[j]) == SizeKey(x);
      assert i < j || j < i;
    }
  }

  /** What was planned and asked for, told of the scans themselves. */
  lemma PlanTold(c: Config, profiles: seq<Profile>, asked: seq<Candidate>, actions: seq<Replace>)
    requires Separate(Candidates(c, profiles))
    requires forall x :: x in asked <==> x in Candidates(c, profiles) && HasTwin(Candidates(c, profiles), x)
    requires forall r :: r in actions ==> Proper(Candidates(c, profiles), r)
    ensures forall x :: x in asked <==> MayShareIn(c, profiles, x.inode, x.how) && HasEqualSize(c, profiles, x.inode)
    ensures forall r :: r in actions ==> Sharing(c, profiles, r)
  {
    forall x ensures x in asked <==> MayShareIn(c, profiles, x.inode, x.how) && HasEqualSize(c, profiles, x.inode) {
      CandidatesAre(c, profiles, x);
      if x in Candidates(c, profiles) {
        TwinIsEqualSize(c, profiles, x);
      }
    }
    forall r | r in actions {
      ProperIsSharing(c, profiles, r);
    }
  }

  /** The pass. With a sound index, and scans that are of the files, the fast plan is the one that compares bytes. */
  method Plan(c: Config, profiles: seq<Profile>, index: HashIndex, disk: Disk, h: Hasher, ghost seen: Fs)
    returns (actions: seq<Replace>, hashed: nat, ghost asked: seq<Candidate>)
    requires disk.Valid() && Separate(Candidates(c, profiles))
    modifies index`entries
    ensures forall x :: x in asked <==> x in Candidates(c, profiles) && HasTwin(Candidates(c, profiles), x)
    ensures forall x :: x in asked <==> MayShareIn(c, profiles, x.inode, x.how) && HasEqualSize(c, profiles, x.inode)
    ensures forall r :: r in actions ==> Sharing(c, profiles, r)
    ensures Learned(h, disk.fs, old(index.entries), index.entries, asked)
    ensures StrictlySorted(PathsLess, (r: Replace) => r.member.paths, actions)
    ensures NoSharedMember(actions) && NoClash(actions) && forall r :: r in actions ==> Proper(Candidates(c, profiles), r)
    ensures Pictured(seen, disk.fs, Candidates(c, profiles)) && CollisionFree(h, seen, Candidates(c, profiles))
              && Sound(h, old(index.entries), seen.nodes) ==>
              forall r :: r in actions <==>
                Wanted(seen, old(index.entries), Candidates(c, profiles), Unread(index.entries, asked), r)
    ensures !disk.faulty ==> forall x :: x in asked && x.inode.paths[0] in disk.fs.names ==> Hits(index.entries, x.inode.stamp)
    ensures hashed == |UnknownTo(old(index.entries), asked)|
  {
    ghost var m0, all := index.entries, Candidates(c, profiles);
    var candidates := Prefilter(c, profiles);
    asked := candidates;
    hashed := HashUnknown(candidates, index, disk, h);
    ghost var m := index.entries;
    var groups := GroupByContent(candidates, index);
    actions := PlanGroups(groups, m, candidates);
    LearnedTouched(h, disk.fs, m0, m, index.entries, asked);
    SameUnread(m, index.entries, asked);
    ProperWidens(asked, all);
    PlanTold(c, profiles, asked, actions);
    if Pictured(seen, disk.fs, all) && CollisionFree(h, seen, all) && Sound(h, m0, seen.nodes) {
      LearnedSound(h, disk.fs, m0, m, asked, seen.nodes);
      PlanIsSimple(h, seen, disk.fs, m0, m, all, asked, groups);
    }
  }

  lemma LearnedTouched(h: Hasher, fs: Fs, m0: Entries, m: Entries, n: Entries, asked: seq<Candidate>)
    requires Learned(h, fs, m0, m, asked)
    requires n.Keys == m.Keys && forall id :: id in m ==> n[id].entry == m[id].entry
    ensures Learned(h, fs, m0, n, asked)
    ensures forall x :: x in asked ==> (Hits(n, x.inode.stamp) <==> Hits(m, x.inode.stamp))
  {
    forall id | id in n ensures (id in m0 && n[id].entry == m0[id].entry) || (exists x :: x in asked && x.inode.stamp.id == id && IsHashOf(h, fs, n, x)) {
      if !(id in m0 && m[id].entry == m0[id].entry) {
        var x :| x in asked && x.inode.stamp.id == id && IsHashOf(h, fs, m, x);
        assert IsHashOf(h, fs, n, x);
      }
    }
  }

  lemma SameUnread(m: Entries, n: Entries, asked: seq<Candidate>)
    requires forall x :: x in asked ==> (Hits(n, x.inode.stamp) <==> Hits(m, x.inode.stamp))
    ensures Unread(m, asked) == Unread(n, asked)
  {}

  lemma ProperWidens(asked: seq<Candidate>, all: seq<Candidate>)
    requires forall x :: x in asked ==> x in all
    ensures forall r :: Proper(asked, r) ==> Proper(all, r)
  {
    forall r | Proper(asked, r) ensures Proper(all, r) {
      var x, y :| x in asked && y in asked && x.inode.stamp.id != y.inode.stamp.id && x.inode.stamp.id.dev == y.inode.stamp.id.dev
        && x.inode.paths != [] && r == Replace(x.inode.paths[0], x.inode.stamp, y.inode, y.how);
      assert x in all && y in all;
    }
  }

  /** The refinement: hashes, buckets and groups come to the plan that compares the bytes of all candidates. */
  lemma PlanIsSimple(h: Hasher, seen: Fs, fs: Fs, m0: Entries, m: Entries, all: seq<Candidate>, asked: seq<Candidate>,
                     groups: map<Content, seq<Member>>)
    requires Informed(h, seen, fs, m0, m, all, asked, groups)
    ensures forall r :: PointsIn(groups, groups.Keys, r) <==> Wanted(seen, m0, all, Unread(m, asked), r)
  {
    forall r ensures PointsIn(groups, groups.Keys, r) <==> Wanted(seen, m0, all, Unread(m, asked), r) {
      if PointsIn(groups, groups.Keys, r) {
        var key :| key in groups.Keys && key in groups && Points(groups[key], r);
        PointsAreWanted(h, seen, fs, m0, m, all, asked, groups, key, r);
      }
      if Wanted(seen, m0, all, Unread(m, asked), r) {
        WantedArePoints(h, seen, fs, m0, m, all, asked, groups, r);
      }
    }
  }

  /** `replaced`: both ends of a clone are shared from now on. */
  method Replaced(index: HashIndex, replace: Replace, new_: Stamp)
    modifies index`entries
    ensures index.entries == ReplacedIn(old(index.entries), replace.sourceStamp, replace.member.stamp, new_, index.now)
  {
    var entry := index.Get(replace.sourceStamp);
    if entry.Some? {
      index.MarkShared(replace.sourceStamp);
      index.Remove(replace.member.stamp);
      index.Put(new_, entry.value.hash, true);
    }
  }

  /** `rewritten`: the content has moved to an inode that shares nothing. */
  method Rewritten(index: HashIndex, before: Stamp, after: Stamp)
    modifies index`entries
    ensures index.entries == RewrittenIn(old(index.entries), before, after, index.now)
  {
    var entry := index.Get(before);
    if entry.Some? {
      index.Remove(before);
      index.Put(after, entry.value.hash, false);
    }
  }
}
