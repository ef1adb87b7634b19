/** A dedupe round with every planned action applied leaves nothing to do: not for dedupe, not for compress. */
module Settle {
  import opened Order
  import opened Paths
  import opened Files
  import opened Model
  import opened Preserve
  import opened Swap
  import opened Apply
  import opened Staging
  import opened Index
  import opened Dedupe
  import opened Scans
  import opened Concert
  import Compress

  /** The action at `k` was applied, and the index told. */
  ghost predicate AppliedAt(t: Trail, k: nat)
    requires Shaped(t) && k < |t.actions|
  {
    && ReplaceOutcome(t.states[k], t.actions[k], t.locked, t.pid, t.serials[k], t.serials[k + 1], t.states[k + 1], t.goals[k], None)
    && t.ms[k + 1] == ReplacedIn(t.ms[k], t.actions[k].sourceStamp, t.actions[k].member.stamp,
                                 NewStamp(t.states[k + 1], t.actions[k]), t.now)
  }

  /** The actions are clones of whole groups that all stood when the round began, and none is in the way of another. */
  ghost predicate Applied(t: Trail) {
    t in AllApplied()
  }

  ghost function AllApplied(): iset<Trail> {
    iset t: Trail | WasApplied(t)
  }

  ghost predicate WasApplied(t: Trail) {
    && Shaped(t)
    && (forall k :: 0 <= k < |t.states| ==> t.states[k].WellFormed())
    && (forall k :: 0 <= k < |t.actions| ==> AppliedAt(t, k))
    && NoSharedMember(t.actions) && NoClash(t.actions)
    && (forall r :: r in t.actions ==>
          && r.how.Clone? && ReplaceSkip(t.states[0], r, t.locked).None?
          && Describes(t.states[0], r.member) && NoRepeat(r.member.paths) && r.member.nlink == |r.member.paths|)
  }

  /** Where the names of `id` are after `k` actions. */
  ghost function Where(t: Trail, k: nat, id: FileId): FileId
    requires Shaped(t) && k <= |t.actions|
  {
    if k == 0 then id
    else if t.actions[k - 1].member.stamp.id == id then t.goals[k - 1].target
    else Where(t, k - 1, id)
  }

  ghost predicate IsMember(t: Trail, k: nat, id: FileId)
    requires Shaped(t) && k <= |t.actions|
  {
    exists j :: 0 <= j < k && t.actions[j].member.stamp.id == id
  }

  lemma {:induction false} WhereIs(t: Trail, k: nat, id: FileId)
    requires Shaped(t) && k <= |t.actions|
    ensures !IsMember(t, k, id) ==> Where(t, k, id) == id
    ensures IsMember(t, k, id) ==> exists j :: 0 <= j < k && t.actions[j].member.stamp.id == id && Where(t, k, id) == t.goals[j].target
  {
    if k > 0 {
      WhereIs(t, k - 1, id);
      if t.actions[k - 1].member.stamp.id != id {
        assert IsMember(t, k, id) <==> IsMember(t, k - 1, id);
      }
    }
  }

  /** The names after `k` actions, and no inode that was there has changed. */
  ghost predicate Along(t: Trail, k: nat)
    requires Shaped(t) && k <= |t.actions|
  {
    var a, s := t.states[0], t.states[k];
    && s.names.Keys == a.names.Keys
    && (forall p :: p in a.names ==> s.names[p] == Where(t, k, a.names[p]))
    && Stable(a, s, true)
  }

  lemma MemberNames(a: Fs, r: Replace, locked: seq<Path>, p: Path)
    requires a.WellFormed() && ReplaceSkip(a, r, locked).None? && Describes(a, r.member) && NoRepeat(r.member.paths)
    requires r.member.nlink == |r.member.paths| && p in a.names
    ensures p in r.member.paths <==> a.names[p] == r.member.stamp.id
  {
    ReplaceStands(a, r, locked);
    forall q | q in r.member.paths ensures q in a.names && a.names[q] == r.member.stamp.id {
      assert Stands(a, q, r.member.stamp);
    }
    NamesAreThePaths(a, r.member);
    assert p in a.NamesOf(r.member.stamp.id) <==> a.names[p] == r.member.stamp.id;
  }

  lemma {:induction false} AlongAll(t: Trail, k: nat)
    requires Applied(t) && k <= |t.actions|
    ensures Along(t, k)
  {
    if k > 0 {
      AlongAll(t, k - 1);
      AlongOneMore(t, k - 1);
    }
  }

  lemma AlongOneMore(t: Trail, k: nat)
    requires Applied(t) && k < |t.actions| && Along(t, k)
    ensures Along(t, k + 1)
  {
    var r, a, s, u, g := t.actions[k], t.states[0], t.states[k], t.states[k + 1], t.goals[k];
    assert r in t.actions && AppliedAt(t, k);
    SwappedNames(s, r, t.locked, t.pid, t.serials[k], t.serials[k + 1], u, g);
    StableTransitive(a, s, u, true);
    forall p | p in a.names ensures u.names[p] == Where(t, k + 1, a.names[p]) {
      MemberNames(a, r, t.locked, p);
    }
  }

  lemma {:induction false} StableBetween(t: Trail, i: nat, k: nat)
    requires Applied(t) && i <= k <= |t.actions|
    ensures Stable(t.states[i], t.states[k], true)
  {
    if i < k {
      StableBetween(t, i, k - 1);
      var r := t.actions[k - 1];
      assert r in t.actions && AppliedAt(t, k - 1);
      StableTransitive(t.states[i], t.states[k - 1], t.states[k], true);
    }
  }

  /** What the clone at the paths of the group at `j` is: new, on the same device, with the bytes of the source. */
  lemma TargetIs(t: Trail, j: nat)
    requires Applied(t) && j < |t.actions|
    ensures var r, s, target := t.actions[j], t.states[j + 1], t.goals[j].target;
            && target !in t.states[j].ever && target !in t.states[0].ever && target in s.nodes
            && target.dev == r.member.stamp.id.dev
            && NewStamp(s, r) == StampOf(target, s.nodes[target])
            && r.sourceStamp.id in t.states[0].nodes && s.nodes[target].bytes == t.states[0].nodes[r.sourceStamp.id].bytes
            && |s.nodes[target].bytes| == r.member.stamp.size
  {
    var r, a, s := t.actions[j], t.states[0], t.states[j];
    assert r in t.actions && AppliedAt(t, j);
    ReplaceStands(s, r, t.locked);
    ReplaceStands(a, r, t.locked);
    StableBetween(t, 0, j);
    assert s.names[r.source] == r.sourceStamp.id;
    assert a.names[r.source] == r.sourceStamp.id && r.sourceStamp.id in a.ever;
  }

  lemma TargetLasts(t: Trail, j: nat, k: nat)
    requires Applied(t) && j < k <= |t.actions|
    ensures var target := t.goals[j].target;
            && target in t.states[k].ever && target in t.states[j + 1].nodes
            && (target in t.states[k].nodes ==>
                  && StampOf(target, t.states[k].nodes[target]) == NewStamp(t.states[j + 1], t.actions[j])
                  && t.states[k].nodes[target].bytes == t.states[j + 1].nodes[target].bytes)
  {
    TargetIs(t, j);
    StableBetween(t, j + 1, k);
    assert t.goals[j].target in t.states[j + 1].ever;
  }

  /** The entry is the one it was, but that it may have come to be shared. */
  ghost predicate SameButShared(m: Entries, n: Entries, id: FileId) {
    id in m ==> id in n && n[id].entry.size == m[id].entry.size && n[id].entry.mtime == m[id].entry.mtime
                && n[id].entry.hash == m[id].entry.hash && (m[id].entry.shared ==> n[id].entry.shared)
  }

  ghost predicate AllButShared(m: Entries, n: Entries, but: set<FileId>) {
    forall id :: id !in but ==> SameButShared(m, n, id)
  }

  ghost predicate HasShared(m: Entries, stamp: Stamp) {
    Hits(m, stamp) && m[stamp.id].entry.shared
  }

  /** The index after `k` actions: what it had for other files it has still, every source is shared, and so is every clone. */
  ghost predicate Told(t: Trail, k: nat)
    requires Shaped(t) && k <= |t.actions|
  {
    && (forall id :: id in t.states[0].ever && !IsMember(t, k, id) ==> SameButShared(t.ms[0], t.ms[k], id))
    && (forall j :: 0 <= j < k ==> SharesBoth(t, j, t.ms[k]))
  }

  /** The source and the clone of the action at `j` are shared. */
  ghost predicate SharesBoth(t: Trail, j: nat, m: Entries)
    requires Shaped(t) && j < |t.actions|
  {
    HasShared(m, NewStamp(t.states[j + 1], t.actions[j])) && HasShared(m, t.actions[j].sourceStamp)
  }

  lemma ToldOne(m: Entries, source: Stamp, member: Stamp, new_: Stamp, now: nat)
    requires Hits(m, source) && source.id != member.id && new_.id != member.id && new_.id != source.id
    ensures var n := ReplacedIn(m, source, member, new_, now);
            && HasShared(n, source) && HasShared(n, new_) && member.id !in n
            && (forall id :: id != member.id && id != new_.id ==> SameButShared(m, n, id))
  {}

  lemma NotInTheWay(t: Trail, j: nat, k: nat)
    requires Applied(t) && j < |t.actions| && k < |t.actions|
    ensures t.actions[j].sourceStamp.id != t.actions[k].member.stamp.id
    ensures t.actions[j].sourceStamp.id in t.states[0].ever && t.actions[k].member.stamp.id in t.states[0].ever
    ensures t.goals[k].target !in t.states[0].ever
  {
    assert t.actions[j] in t.actions && t.actions[k] in t.actions;
    ReplaceStands(t.states[0], t.actions[j], t.locked);
    ReplaceStands(t.states[0], t.actions[k], t.locked);
    TargetIs(t, k);
  }

  /** What one more action tells the index. */
  lemma ToldStep(t: Trail, k: nat)
    requires Applied(t) && k < |t.actions| && Told(t, k) && Hits(t.ms[0], t.actions[k].sourceStamp)
    ensures SharesBoth(t, k, t.ms[k + 1])
    ensures AllButShared(t.ms[k], t.ms[k + 1], {t.actions[k].member.stamp.id, t.goals[k].target})
  {
    var r := t.actions[k];
    assert AppliedAt(t, k);
    TargetIs(t, k);
    forall j | 0 <= j < k ensures t.actions[j].member.stamp.id != r.sourceStamp.id { NotInTheWay(t, k, j); }
    NotInTheWay(t, k, k);
    ToldOne(t.ms[k], r.sourceStamp, r.member.stamp, NewStamp(t.states[k + 1], r), t.now);
  }

  lemma ToldOneMore(t: Trail, k: nat)
    requires Applied(t) && k < |t.actions| && Told(t, k) && Hits(t.ms[0], t.actions[k].sourceStamp)
    ensures Told(t, k + 1)
  {
    ToldStep(t, k);
    OthersAsTold(t, k);
    var n := t.ms[k + 1];
    forall j | 0 <= j < k + 1 ensures SharesBoth(t, j, n) {
      if j < k {
        assert SharesBoth(t, j, t.ms[k]);
        ToldEarlier(t, j, k, t.ms[k], n);
      }
    }
  }

  /** What no action so far had for a member is told of as it was. */
  lemma OthersAsTold(t: Trail, k: nat)
    requires Applied(t) && k < |t.actions| && Told(t, k)
    requires AllButShared(t.ms[k], t.ms[k + 1], {t.actions[k].member.stamp.id, t.goals[k].target})
    ensures forall id :: id in t.states[0].ever && !IsMember(t, k + 1, id) ==> SameButShared(t.ms[0], t.ms[k + 1], id)
  {
    NotInTheWay(t, k, k);
    forall id | id in t.states[0].ever && !IsMember(t, k + 1, id) ensures SameButShared(t.ms[0], t.ms[k + 1], id) {
      assert !IsMember(t, k, id) && t.actions[k].member.stamp.id != id;
      SharedThrough(t.ms[0], t.ms[k], t.ms[k + 1], id);
    }
  }

  lemma EndsShared(t: Trail, j: nat)
    requires Shaped(t) && Told(t, |t.actions|) && j < |t.actions|
    ensures HasShared(t.ms[|t.actions|], NewStamp(t.states[j + 1], t.actions[j]))
    ensures HasShared(t.ms[|t.actions|], t.actions[j].sourceStamp)
  {
    assert SharesBoth(t, j, t.ms[|t.actions|]);
  }

  lemma SharedThrough(m: Entries, n: Entries, k: Entries, id: FileId)
    requires SameButShared(m, n, id) && SameButShared(n, k, id)
    ensures SameButShared(m, k, id)
  {}

  lemma ToldEarlier(t: Trail, j: nat, k: nat, m: Entries, n: Entries)
    requires Applied(t) && j < k < |t.actions|
    requires AllButShared(m, n, {t.actions[k].member.stamp.id, t.goals[k].target})
    requires SharesBoth(t, j, m)
    ensures SharesBoth(t, j, n)
  {
    NotInTheWay(t, j, k);
    TargetIs(t, j);
    TargetLasts(t, j, k);
    TargetIs(t, k);
    assert SameButShared(m, n, t.goals[j].target) && SameButShared(m, n, t.actions[j].sourceStamp.id);
  }

  lemma {:induction false} ToldAll(t: Trail, k: nat)
    requires Applied(t) && k <= |t.actions|
    requires forall r :: r in t.actions ==> Hits(t.ms[0], r.sourceStamp)
    ensures Told(t, k)
  {
    if k > 0 {
      ToldAll(t, k - 1);
      ToldOneMore(t, k - 1);
    }
  }

  /** In the end no name and no record is left of a replaced inode. */
  lemma MembersGone(t: Trail, id: FileId)
    requires Applied(t) && id in t.states[0].ever && id in t.states[|t.actions|].nodes
    ensures !IsMember(t, |t.actions|, id)
    ensures t.states[0].NamesOf(id) == t.states[|t.actions|].NamesOf(id)
  {
    var n := |t.actions|;
    var a, b := t.states[0], t.states[n];
    AlongAll(t, n);
    forall p | p in a.names ensures a.names[p] != id ==> b.names[p] != id
                            ensures IsMember(t, n, id) ==> b.names[p] != id
                            ensures !IsMember(t, n, id) && a.names[p] == id ==> b.names[p] == id {
      WhereIs(t, n, a.names[p]);
      forall j | 0 <= j < n ensures t.goals[j].target != id { TargetIs(t, j); }
    }
    assert b.nodes[id].nlink == |b.NamesOf(id)| && b.nodes[id].nlink > 0;
    assert b.NamesOf(id) != {};
    var p :| p in b.NamesOf(id);
    assert a.NamesOf(id) == b.NamesOf(id);
  }

  /** The inode is what it was, name for name. */
  ghost predicate Unchanged(x: Fs, y: Fs, id: FileId) {
    && id in x.nodes && id in y.nodes && StampOf(id, x.nodes[id]) == StampOf(id, y.nodes[id])
    && x.nodes[id].bytes == y.nodes[id].bytes && x.nodes[id].flags == y.nodes[id].flags
    && x.nodes[id].nlink == y.nodes[id].nlink && x.NamesOf(id) == y.NamesOf(id)
  }

  /** An inode that was there before the round is as it was. */
  lemma OldIsSame(t: Trail, id: FileId)
    requires Applied(t) && id in t.states[0].ever && id in t.states[|t.actions|].nodes
    ensures Unchanged(t.states[0], t.states[|t.actions|], id)
  {
    var n := |t.actions|;
    AlongAll(t, n);
    MembersGone(t, id);
  }

  /** Any other is one of the round's clones. */
  lemma NewIsClone(t: Trail, p: Path) returns (j: nat)
    requires Applied(t) && p in t.states[|t.actions|].names && t.states[|t.actions|].names[p] !in t.states[0].ever
    ensures j < |t.actions| && t.states[|t.actions|].names[p] == t.goals[j].target
  {
    var n := |t.actions|;
    AlongAll(t, n);
    WhereIs(t, n, t.states[0].names[p]);
    assert t.states[0].names[p] in t.states[0].nodes;
    j :| 0 <= j < n && t.actions[j].member.stamp.id == t.states[0].names[p] && Where(t, n, t.states[0].names[p]) == t.goals[j].target;
  }

  /** How the units are scanned before the round and after it, at one moment. */
  datatype View = View(private: Component -> bool, floors: seq<(Path, nat)>, now: int, before: seq<Profile>, after: seq<Profile>)

  ghost predicate Seen(t: Trail, v: View) {
    && Applied(t) && DirsApart(t.locked)
    && Scanned(t.states[0], t.locked, v.private, v.floors, v.now, v.before)
    && Scanned(t.states[|t.actions|], t.locked, v.private, v.floors, v.now, v.after)
  }

  /** The records tell of the same file, as far as any plan looks. */
  ghost predicate Alike(x: Inode, y: Inode) {
    x.stamp == y.stamp && x.flags == y.flags && x.nlink == y.nlink && |x.paths| == |y.paths|
  }

  lemma SamePaths(x: seq<Path>, y: seq<Path>)
    requires NoRepeat(x) && NoRepeat(y) && forall p :: p in x <==> p in y
    ensures |x| == |y|
  {
    PathsCount(x, |x|);
    PathsCount(y, |y|);
    assert (set i | 0 <= i < |x| :: x[i]) == (set p | p in x);
    assert (set i | 0 <= i < |y| :: y[i]) == (set p | p in y);
    assert (set p | p in x) == (set p | p in y);
  }

  /** A file that has not changed was scanned before too. */
  lemma OldRecord(a: Fs, b: Fs, dir: Path, private: Component -> bool, floor: Option<nat>, now: int, before: Profile, after: Profile,
                  y: Inode)
    returns (x: Inode)
    requires a.WellFormed() && b.WellFormed() && Unchanged(a, b, y.stamp.id)
    requires IsPart(a, dir, private, floor, now, before) && IsPart(b, dir, private, floor, now, after) && y in after.inodes
    ensures x in before.inodes && Alike(x, y)
  {
    var id, p := y.stamp.id, y.paths[0];
    assert Describes(b, y) && HoldsNames(b, dir, private, y);
    assert p in y.paths && p in b.NamesOf(id) && p in a.NamesOf(id);
    x :| x in before.inodes && x.stamp.id == a.names[p];
    assert Describes(a, x) && HoldsNames(a, dir, private, x);
    forall q ensures q in x.paths <==> q in y.paths {
      assert q in a.NamesOf(id) <==> q in b.NamesOf(id);
    }
    NoRepeatIfAscending(x.paths);
    NoRepeatIfAscending(y.paths);
    SamePaths(x.paths, y.paths);
  }

  /** A file that was there before the round was scanned before it too. */
  lemma OldInode(t: Trail, v: View, k: nat, y: Inode) returns (x: Inode)
    requires Seen(t, v) && k < |t.locked| && y in v.after[k].inodes && y.stamp.id in t.states[0].ever
    ensures x in v.before[k].inodes && Alike(x, y)
  {
    var a, b := t.states[0], t.states[|t.actions|];
    var floor := FloorFor(v.floors, t.locked[k]);
    assert IsPart(a, t.locked[k], v.private, floor, v.now, v.before[k]);
    assert IsPart(b, t.locked[k], v.private, floor, v.now, v.after[k]);
    OldIsSame(t, y.stamp.id);
    x := OldRecord(a, b, t.locked[k], v.private, floor, v.now, v.before[k], v.after[k], y);
  }

  lemma {:induction false} EligibleOfMembers(c: Config, inodes: seq<Inode>, how: Share)
    ensures forall x :: x in EligibleOf(c, inodes, how) <==> x.inode in inodes && Eligible(c, x.inode) && x.how == how
  {
    if inodes != [] {
      EligibleOfMembers(c, inodes[..|inodes| - 1], how);
      assert inodes == inodes[..|inodes| - 1] + [inodes[|inodes| - 1]];
    }
  }

  ghost predicate CandidateIn(c: Config, profile: Profile, x: Candidate) {
    x.inode in profile.inodes && Eligible(c, x.inode) && ShareOf(c, profile.dir) == Some(x.how)
  }

  lemma {:induction false} CandidatesAt(c: Config, profiles: seq<Profile>, x: Candidate)
    ensures x in Candidates(c, profiles) <==> exists k :: 0 <= k < |profiles| && CandidateIn(c, profiles[k], x)
  {
    if profiles != [] {
      var front, last := profiles[..|profiles| - 1], profiles[|profiles| - 1];
      CandidatesAt(c, front, x);
      if ShareOf(c, last.dir).Some? {
        EligibleOfMembers(c, last.inodes, ShareOf(c, last.dir).value);
      }
      assert x in Candidates(c, profiles) <==> x in Candidates(c, front) || CandidateIn(c, last, x);
      forall k | 0 <= k < |front| ensures CandidateIn(c, front[k], x) <==> CandidateIn(c, profiles[k], x) {}
    }
  }

  /** A candidate that was there before the round was one before it. */
  lemma OldCandidate(t: Trail, v: View, c: Config, y: Candidate) returns (x: Candidate)
    requires Seen(t, v) && y in Candidates(c, v.after) && y.inode.stamp.id in t.states[0].ever
    ensures x in Candidates(c, v.before) && x.inode.stamp == y.inode.stamp
  {
    var k := UnitOf(c, v.after, y);
    var inode := OldInode(t, v, k, y.inode);
    x := Candidate(inode, y.how);
    assert IsPart(t.states[0], t.locked[k], v.private, FloorFor(v.floors, t.locked[k]), v.now, v.before[k]);
    assert IsPart(t.states[|t.actions|], t.locked[k], v.private, FloorFor(v.floors, t.locked[k]), v.now, v.after[k]);
    assert CandidateIn(c, v.before[k], x);
    CandidatesAt(c, v.before, x);
  }

  /** Any other candidate is a clone of the round, and shared in the index. */
  lemma NewCandidate(t: Trail, v: View, c: Config, y: Candidate) returns (j: nat)
    requires Seen(t, v) && y in Candidates(c, v.after) && y.inode.stamp.id !in t.states[0].ever
    ensures j < |t.actions| && y.inode.stamp.id == t.goals[j].target
    ensures y.inode.stamp == NewStamp(t.states[j + 1], t.actions[j])
  {
    var k := UnitOf(c, v.after, y);
    j := NewInode(t, v, k, y.inode);
  }

  lemma UnitOf(c: Config, profiles: seq<Profile>, y: Candidate) returns (k: nat)
    requires y in Candidates(c, profiles)
    ensures k < |profiles| && CandidateIn(c, profiles[k], y)
  {
    CandidatesAt(c, profiles, y);
    k :| 0 <= k < |profiles| && CandidateIn(c, profiles[k], y);
  }

  lemma NewInode(t: Trail, v: View, k: nat, y: Inode) returns (j: nat)
    requires Seen(t, v) && k < |t.locked| && y in v.after[k].inodes && y.stamp.id !in t.states[0].ever
    ensures j < |t.actions| && y.stamp.id == t.goals[j].target
    ensures y.stamp == NewStamp(t.states[j + 1], t.actions[j])
  {
    var b := t.states[|t.actions|];
    assert IsPart(b, t.locked[k], v.private, FloorFor(v.floors, t.locked[k]), v.now, v.after[k]);
    assert Describes(b, y) && HoldsNames(b, t.locked[k], v.private, y) && y.paths[0] in y.paths;
    j := NewIsClone(t, y.paths[0]);
    TargetLasts(t, j, |t.actions|);
  }

  /** The round was one of dedupe with clones: the actions are the plan, and every file with a twin was hashed. */
  ghost predicate IsDedupe(t: Trail, v: View, c: Config) {
    && Seen(t, v)
    && (forall r :: r in t.actions <==> Wanted(t.states[0], t.ms[0], Candidates(c, v.before), {}, r))
    && (forall x :: x in Candidates(c, v.before) && HasTwin(Candidates(c, v.before), x) ==> Hits(t.ms[0], x.inode.stamp))
  }

  lemma SourcesHit(t: Trail, v: View, c: Config)
    requires IsDedupe(t, v, c)
    ensures forall r :: r in t.actions ==> Hits(t.ms[0], r.sourceStamp)
    ensures Told(t, |t.actions|)
  {
    var a, all := t.states[0], Candidates(c, v.before);
    ScansSeparate(a, c, v.private, t.locked, v.floors, v.now, v.before);
    forall r | r in t.actions ensures Hits(t.ms[0], r.sourceStamp) {
      var x, y := WantedPair(a, t.ms[0], all, {}, r);
      assert Describes(a, x.inode) && Describes(a, y.inode);
      AreTwins(a, all, x, y);
    }
    ToldAll(t, |t.actions|);
  }

  lemma AreTwins(a: Fs, all: seq<Candidate>, x: Candidate, y: Candidate)
    requires x in all && y in all && x != y && SizeKey(x) == SizeKey(y)
    ensures HasTwin(all, x) && HasTwin(all, y)
  {
    var i :| 0 <= i < |all| && all[i] == x;
    var j :| 0 <= j < |all| && all[j] == y;
    assert i < j || j < i;
  }

  /** What a candidate after the round was before it: itself, or the member it took the place of. */
  ghost predicate CameFrom(t: Trail, y: Candidate, x: Candidate)
    requires Shaped(t)
  {
    if y.inode.stamp.id in t.states[0].ever then x.inode.stamp == y.inode.stamp && !IsMember(t, |t.actions|, x.inode.stamp.id)
    else exists j :: 0 <= j < |t.actions| && t.goals[j].target == y.inode.stamp.id && t.actions[j].member.stamp.id == x.inode.stamp.id
  }

  lemma Origin(t: Trail, v: View, c: Config, y: Candidate) returns (x: Candidate)
    requires IsDedupe(t, v, c) && y in Candidates(c, v.after)
    ensures x in Candidates(c, v.before) && CameFrom(t, y, x) && SizeKey(x) == SizeKey(y)
  {
    var a, b := t.states[0], t.states[|t.actions|];
    if y.inode.stamp.id in a.ever {
      x := OldCandidate(t, v, c, y);
      ScansSeparate(b, c, v.private, t.locked, v.floors, v.now, v.after);
      assert Describes(b, y.inode);
      MembersGone(t, y.inode.stamp.id);
    } else {
      var j := NewCandidate(t, v, c, y);
      ScansSeparate(a, c, v.private, t.locked, v.floors, v.now, v.before);
      assert t.actions[j] in t.actions;
      var source;
      source, x := WantedPair(a, t.ms[0], Candidates(c, v.before), {}, t.actions[j]);
      TargetIs(t, j);
    }
  }

  lemma DifferentOrigins(t: Trail, y: Candidate, z: Candidate, x: Candidate, w: Candidate)
    requires Shaped(t) && NoSharedMember(t.actions)
    requires CameFrom(t, y, x) && CameFrom(t, z, w) && y.inode.stamp.id != z.inode.stamp.id
    ensures x != w
  {
    if y.inode.stamp.id !in t.states[0].ever && z.inode.stamp.id !in t.states[0].ever {
      var i :| 0 <= i < |t.actions| && t.goals[i].target == y.inode.stamp.id && t.actions[i].member.stamp.id == x.inode.stamp.id;
      var j :| 0 <= j < |t.actions| && t.goals[j].target == z.inode.stamp.id && t.actions[j].member.stamp.id == w.inode.stamp.id;
      assert i < j || j < i;
    }
  }

  /** No file is hashed again: every candidate with a twin is known to the index. */
  lemma NothingToHash(t: Trail, v: View, c: Config, y: Candidate)
    requires IsDedupe(t, v, c) && y in Candidates(c, v.after) && HasTwin(Candidates(c, v.after), y)
    ensures Hits(t.ms[|t.actions|], y.inode.stamp)
  {
    var n, all := |t.actions|, Candidates(c, v.after);
    SourcesHit(t, v, c);
    if y.inode.stamp.id !in t.states[0].ever {
      var j := NewCandidate(t, v, c, y);
      EndsShared(t, j);
    } else {
      ScansSeparate(t.states[n], c, v.private, t.locked, v.floors, v.now, v.after);
      var i, j :| 0 <= i < j < |all| && SizeKey(all[i]) == SizeKey(y) && SizeKey(all[j]) == SizeKey(y);
      var z := if all[i] == y then all[j] else all[i];
      assert z in all && z != y;
      DifferentFiles(all, y, z);
      var x := Origin(t, v, c, y);
      var w := Origin(t, v, c, z);
      DifferentOrigins(t, y, z, x, w);
      AreTwins(t.states[0], Candidates(c, v.before), x, w);
    }
  }

  /** Of all candidates with some bytes one comes first. */
  lemma {:induction false} LeastTwin(a: Fs, m: Entries, all: seq<Candidate>, k: nat, y: Candidate) returns (x: Candidate)
    requires Separate(all) && k <= |all| && exists i :: 0 <= i < k && Twins(a, all[i], y)
    ensures x in all[..k] && Twins(a, x, y)
    ensures forall z :: z in all[..k] && Twins(a, z, y) && z != x ==> RankLess(RankOf(MemberOf(m, x)), RankOf(MemberOf(m, z)))
  {
    var last := all[k - 1];
    assert all[..k] == all[..k - 1] + [last];
    RankOrder();
    if exists i :: 0 <= i < k - 1 && Twins(a, all[i], y) {
      x := LeastTwin(a, m, all, k - 1, y);
      assert x != last by {
        var i :| 0 <= i < k - 1 && all[i] == x;
      }
      DifferentFiles(all, x, last);
      if Twins(a, last, y) && RankLess(RankOf(MemberOf(m, last)), RankOf(MemberOf(m, x))) {
        x := last;
      }
    } else {
      x := last;
      forall z | z in all[..k] && Twins(a, z, y) ensures z == x {
        var i :| 0 <= i < k && all[i] == z;
      }
    }
  }

  /** An unshared file with a twin, if the round left it alone, is the one everything was pointed at. */
  lemma LeftAloneIsCanonical(t: Trail, v: View, c: Config, y: Candidate)
    requires IsDedupe(t, v, c) && y in Candidates(c, v.before)
    requires !IsMember(t, |t.actions|, y.inode.stamp.id) && !MemberOf(t.ms[0], y).shared
    ensures Canonical(t.states[0], t.ms[0], Candidates(c, v.before), {}, y, y)
  {
    var a, m, all := t.states[0], t.ms[0], Candidates(c, v.before);
    ScansSeparate(a, c, v.private, t.locked, v.floors, v.now, v.before);
    assert Describes(a, y.inode);
    var x := CanonicalOf(a, m, all, y);
    if x != y {
      MemberIfWanted(t, v, c, x, y);
    }
  }

  /** Of the candidates with the bytes of `y` one is canonical. */
  lemma CanonicalOf(a: Fs, m: Entries, all: seq<Candidate>, y: Candidate) returns (x: Candidate)
    requires Separate(all) && y in all && y.inode.stamp.id in a.nodes
    ensures Canonical(a, m, all, {}, x, y)
  {
    var i :| 0 <= i < |all| && all[i] == y;
    assert Twins(a, all[i], y);
    x := LeastTwin(a, m, all, |all|, y);
    assert all[..|all|] == all;
  }

  lemma MemberIfWanted(t: Trail, v: View, c: Config, x: Candidate, y: Candidate)
    requires IsDedupe(t, v, c) && y in Candidates(c, v.before) && x != y && !MemberOf(t.ms[0], y).shared
    requires Canonical(t.states[0], t.ms[0], Candidates(c, v.before), {}, x, y)
    ensures IsMember(t, |t.actions|, y.inode.stamp.id)
  {
    var r := Pointed(MemberOf(t.ms[0], x), MemberOf(t.ms[0], y));
    assert Wanted(t.states[0], t.ms[0], Candidates(c, v.before), {}, r);
    assert r in t.actions;
    var j :| 0 <= j < |t.actions| && t.actions[j] == r;
    assert t.actions[j].member.stamp.id == y.inode.stamp.id;
  }

  /** After the round, of two files with the same bytes each is shared. */
  lemma TwinsAreShared(t: Trail, v: View, c: Config, x: Candidate, y: Candidate)
    requires IsDedupe(t, v, c) && x in Candidates(c, v.after) && y in Candidates(c, v.after) && x != y
    requires Twins(t.states[|t.actions|], x, y)
    ensures MemberOf(t.ms[|t.actions|], y).shared
  {
    var a, b, m := t.states[0], t.states[|t.actions|], t.ms[0];
    var all := Candidates(c, v.before);
    SourcesHit(t, v, c);
    ScansSeparate(b, c, v.private, t.locked, v.floors, v.now, v.after);
    ScansSeparate(a, c, v.private, t.locked, v.floors, v.now, v.before);
    DifferentFiles(Candidates(c, v.after), x, y);
    if y.inode.stamp.id !in a.ever {
      var j := NewCandidate(t, v, c, y);
      EndsShared(t, j);
    } else {
      var y0 := OldCandidate(t, v, c, y);
      MembersGone(t, y.inode.stamp.id);
      OldIsSame(t, y.inode.stamp.id);
      if x.inode.stamp.id in a.ever {
        OldTwinIsShared(t, v, c, x, y, y0);
      } else if !MemberOf(m, y0).shared {
        CloneSharesItsSource(t, v, c, x, y, y0);
      }
    }
  }

  /** Of two twins that were there before and were left each is shared: one that was not would have been the member of an
      action, or the other one would. */
  lemma OldTwinIsShared(t: Trail, v: View, c: Config, x: Candidate, y: Candidate, y0: Candidate)
    requires IsDedupe(t, v, c) && x in Candidates(c, v.after) && x.inode.stamp.id in t.states[0].ever
    requires x.inode.stamp.id in t.states[|t.actions|].nodes && y.inode.stamp.id in t.states[|t.actions|].nodes
    requires y.inode.stamp.id in t.states[0].ever && x.inode.stamp.id != y.inode.stamp.id
    requires Twins(t.states[|t.actions|], x, y) && y0.inode.stamp == y.inode.stamp && y0 in Candidates(c, v.before)
    ensures MemberOf(t.ms[0], y0).shared
  {
    var a, m, all := t.states[0], t.ms[0], Candidates(c, v.before);
    var x0 := OldCandidate(t, v, c, x);
    MembersGone(t, x.inode.stamp.id);
    MembersGone(t, y.inode.stamp.id);
    OldIsSame(t, x.inode.stamp.id);
    OldIsSame(t, y.inode.stamp.id);
    assert Twins(a, x0, y0) && x0 != y0;
    if !MemberOf(m, y0).shared {
      LeftAloneIsCanonical(t, v, c, y0);
      assert RankLess(RankOf(MemberOf(m, y0)), RankOf(MemberOf(m, x0)));
      assert !MemberOf(m, x0).shared;
      forall z | z in all && Twins(a, z, x0) ensures Twins(a, z, y0) {}
      assert Canonical(a, m, all, {}, y0, x0);
      MemberIfWanted(t, v, c, y0, x0);
    }
  }

  /** A clone whose bytes are those of an unshared file that was left is a clone of that file, which is shared by it. */
  lemma CloneSharesItsSource(t: Trail, v: View, c: Config, x: Candidate, y: Candidate, y0: Candidate)
    requires IsDedupe(t, v, c) && Told(t, |t.actions|) && Separate(Candidates(c, v.before))
    requires x in Candidates(c, v.after) && x.inode.stamp.id !in t.states[0].ever
    requires x.inode.stamp.id in t.states[|t.actions|].nodes && y.inode.stamp.id in t.states[|t.actions|].nodes
    requires y.inode.stamp.id in t.states[0].ever && Twins(t.states[|t.actions|], x, y)
    requires y0 in Candidates(c, v.before) && y0.inode.stamp == y.inode.stamp && !MemberOf(t.ms[0], y0).shared
    ensures MemberOf(t.ms[|t.actions|], y).shared
  {
    var a, m, all := t.states[0], t.ms[0], Candidates(c, v.before);
    var j := NewCandidate(t, v, c, x);
    EndsShared(t, j);
    var r := t.actions[j];
    assert r in t.actions;
    TargetIs(t, j);
    TargetLasts(t, j, |t.actions|);
    OldIsSame(t, y.inode.stamp.id);
    MembersGone(t, y.inode.stamp.id);
    var cj, yj :| yj in all && Canonical(a, m, all, {}, cj, yj) && cj != yj && !MemberOf(m, yj).shared
      && r == Pointed(MemberOf(m, cj), MemberOf(m, yj));
    DifferentFiles(all, cj, yj);
    assert Twins(a, y0, cj);
    if y0 != cj {
      forall z | z in all && Twins(a, z, y0) ensures Twins(a, z, yj) {}
      assert Canonical(a, m, all, {}, cj, y0);
      MemberIfWanted(t, v, c, cj, y0);
    }
  }

  /** Dedupe has settled: the plan of a second round is empty, whatever cannot be read. */
  lemma NothingToDedupe(t: Trail, v: View, c: Config, unread: set<FileId>, r: Replace)
    requires IsDedupe(t, v, c)
    ensures !Wanted(t.states[|t.actions|], t.ms[|t.actions|], Candidates(c, v.after), unread, r)
  {
    var b, m, all := t.states[|t.actions|], t.ms[|t.actions|], Candidates(c, v.after);
    if Wanted(b, m, all, unread, r) {
      var x, y :| y in all && y.inode.stamp.id !in unread && Canonical(b, m, all, unread, x, y) && x != y
        && !MemberOf(m, y).shared && r == Pointed(MemberOf(m, x), MemberOf(m, y));
      TwinsAreShared(t, v, c, x, y);
    }
  }

  lemma CloneIsNotPlanned(t: Trail, v: View, c: Config, k: nat, y: Inode)
    requires IsDedupe(t, v, c) && k < |t.locked| && y in v.after[k].inodes && y.stamp.id !in t.states[0].ever
    ensures Compress.IsShared(t.ms[|t.actions|], y.stamp)
  {
    SourcesHit(t, v, c);
    var j := NewInode(t, v, k, y);
    EndsShared(t, j);
  }

  lemma SharedStaysShared(t: Trail, v: View, c: Config, y: Inode)
    requires IsDedupe(t, v, c) && y.stamp.id in t.states[0].ever && y.stamp.id in t.states[|t.actions|].nodes
    ensures Compress.IsShared(t.ms[0], y.stamp) ==> Compress.IsShared(t.ms[|t.actions|], y.stamp)
  {
    SourcesHit(t, v, c);
    MembersGone(t, y.stamp.id);
    assert SameButShared(t.ms[0], t.ms[|t.actions|], y.stamp.id);
  }

  /** Nor has dedupe made work for compress: what compress would plan after the round it would have planned before. */
  lemma NothingToCompress(t: Trail, v: View, c: Config, setting: Compress.Setting, now: int, y: Inode) returns (x: Inode)
    requires IsDedupe(t, v, c)
    requires Compress.Planned(setting, t.ms[|t.actions|], v.after, now, y)
    ensures Alike(x, y) && Compress.Planned(setting, t.ms[0], v.before, now, x)
  {
    var k :| 0 <= k < |v.after| && setting.compresses(v.after[k].dir) && y in v.after[k].inodes && Compress.Worth(setting, y, now)
      && !Compress.IsShared(t.ms[|t.actions|], y.stamp);
    assert IsPart(t.states[0], t.locked[k], v.private, FloorFor(v.floors, t.locked[k]), v.now, v.before[k]);
    assert IsPart(t.states[|t.actions|], t.locked[k], v.private, FloorFor(v.floors, t.locked[k]), v.now, v.after[k]);
    if y.stamp.id !in t.states[0].ever {
      CloneIsNotPlanned(t, v, c, k, y);
    }
    assert y.stamp.id in t.states[0].ever;
    x := OldInode(t, v, k, y);
    SharedStaysShared(t, v, c, y);
  }

  /** These groups were compressed: their inodes are gone, what came is compressed, and no other file has changed. */
  ghost predicate Shrunk(a: Fs, b: Fs, done: set<Inode>) {
    && a.WellFormed() && b.WellFormed() && a.ever <= b.ever
    && (forall x :: x in done ==> x.stamp.id in a.ever && x.stamp.id !in b.nodes)
    && (forall id :: id in a.ever && id in b.nodes ==> Unchanged(a, b, id))
    && (forall p :: b.Has(p) && !IsTemp(p) && b.names[p] !in a.ever ==> b.At(p).flags.compressed)
  }

  lemma NothingShrinks(a: Fs)
    requires a.WellFormed()
    ensures Shrunk(a, a, {})
  {
    forall p | a.Has(p) ensures a.names[p] in a.ever {
      assert a.names[p] in a.nodes;
    }
  }

  /** A batch, where the groups that were not compressed have not moved, has done just that. */
  lemma BatchShrinks(c: Rules, a: Fs, b: Fs, outcomes: seq<Outcome>)
    requires a.WellFormed() && c.exact && b in Steps(c, a, {}) && b in Presses(a, Moving(outcomes, false))
    requires GroupsGone(a, b, outcomes, c.exact)
    requires forall m :: m in Moving(outcomes, false) ==> m.stamp.id in a.ever && (m.stamp.id in a.nodes ==> WholeIn(a, m))
    ensures Shrunk(a, b, Moving(outcomes, false))
  {
    var done := Moving(outcomes, false);
    forall m | m in done ensures m.stamp.id !in b.nodes {
      var o :| o in outcomes && o.Compressed? && o.member == m;
    }
    forall id | id in a.ever && id in b.nodes ensures Unchanged(a, b, id) {
      forall p ensures !PathOf(done, p, id) {}
      assert a.NamesOf(id) == b.NamesOf(id);
    }
    forall p | b.Has(p) && !IsTemp(p) && b.names[p] !in a.ever ensures b.At(p).flags.compressed {
      assert p in a.names;
      assert a.names[p] in a.nodes;
    }
  }

  /** Batch after batch. */
  lemma ShrunkJoin(a: Fs, b: Fs, s: Fs, first: set<Inode>, second: set<Inode>)
    requires Shrunk(a, b, first) && Shrunk(b, s, second) && forall x :: x in second ==> x.stamp.id in a.ever
    ensures Shrunk(a, s, first + second)
  {
    forall id | id in a.ever && id in s.nodes ensures Unchanged(a, s, id) {
      assert Unchanged(b, s, id) && Unchanged(a, b, id);
    }
    forall p | s.Has(p) && !IsTemp(p) && s.names[p] !in a.ever ensures s.At(p).flags.compressed {
      var id := s.names[p];
      if id in b.ever {
        assert Unchanged(b, s, id);
        assert p in s.NamesOf(id) && p in b.NamesOf(id);
      }
    }
    forall x | x in first ensures x.stamp.id !in s.nodes {
      assert x.stamp.id in s.nodes ==> Unchanged(b, s, x.stamp.id);
    }
  }

  /** A group whose inode has not changed is as whole as it was. */
  lemma StillWhole(a: Fs, b: Fs, done: set<Inode>, m: Inode)
    requires Shrunk(a, b, done) && WholeIn(a, m)
    ensures m.stamp.id in b.nodes ==> WholeIn(b, m)
  {
    var id := m.stamp.id;
    if id in b.nodes {
      assert Unchanged(a, b, id);
      forall p | p in b.names && b.names[p] == id ensures p in m.paths {
        assert p in b.NamesOf(id) && p in a.NamesOf(id);
      }
    }
  }

  /** What compress plans are whole groups. */
  lemma PlannedIsWhole(a: Fs, dirs: seq<Path>, private: Component -> bool, floors: seq<(Path, nat)>, now: int, profiles: seq<Profile>,
                       setting: Compress.Setting, m: Entries, at: int, x: Inode)
    requires a.WellFormed() && Scanned(a, dirs, private, floors, now, profiles)
    requires Compress.Planned(setting, m, profiles, at, x)
    ensures WholeIn(a, x) && x.stamp.id in a.ever
  {
    var k :| 0 <= k < |profiles| && setting.compresses(profiles[k].dir) && x in profiles[k].inodes && Compress.Worth(setting, x, at);
    assert IsPart(a, dirs[k], private, FloorFor(floors, dirs[k]), now, profiles[k]);
    WholeGroup(a, dirs[k], private, x);
    NoRepeatIfAscending(x.paths);
  }

  /** What compress would plan now it would have planned before, of a file that has not changed. The index may have been told anything
      of files that are gone or new. */
  lemma PlannedBefore(a: Fs, b: Fs, m: Entries, n: Entries, done: set<Inode>, but: set<FileId>, dirs: seq<Path>, v: View,
                      setting: Compress.Setting, y: Inode)
    returns (x: Inode)
    requires Shrunk(a, b, done) && AllButShared(m, n, but) && forall id :: id in but ==> id !in a.ever || id !in b.nodes
    requires Scanned(a, dirs, v.private, v.floors, v.now, v.before) && Scanned(b, dirs, v.private, v.floors, v.now, v.after)
    requires Compress.Planned(setting, n, v.after, v.now, y)
    ensures Compress.Planned(setting, m, v.before, v.now, x) && x.stamp.id in b.nodes && Alike(x, y)
  {
    var k :| 0 <= k < |v.after| && setting.compresses(v.after[k].dir) && y in v.after[k].inodes && Compress.Worth(setting, y, v.now)
      && !Compress.IsShared(n, y.stamp);
    var floor := FloorFor(v.floors, dirs[k]);
    assert IsPart(a, dirs[k], v.private, floor, v.now, v.before[k]) && IsPart(b, dirs[k], v.private, floor, v.now, v.after[k]);
    assert Describes(b, y) && HoldsNames(b, dirs[k], v.private, y) && y.paths[0] in y.paths && b.Has(y.paths[0]);
    x := OldRecord(a, b, dirs[k], v.private, floor, v.now, v.before[k], v.after[k], y);
    assert SameButShared(m, n, y.stamp.id);
  }

  /** Compress has settled: with every planned group compressed, none is planned again. */
  lemma CompressSettles(a: Fs, b: Fs, m: Entries, n: Entries, done: set<Inode>, but: set<FileId>, dirs: seq<Path>, v: View,
                        setting: Compress.Setting, y: Inode)
    requires Shrunk(a, b, done) && AllButShared(m, n, but) && forall id :: id in but ==> id !in a.ever || id !in b.nodes
    requires forall x :: Compress.Planned(setting, m, v.before, v.now, x) ==> x in done
    requires Scanned(a, dirs, v.private, v.floors, v.now, v.before) && Scanned(b, dirs, v.private, v.floors, v.now, v.after)
    ensures !Compress.Planned(setting, n, v.after, v.now, y)
  {
    if Compress.Planned(setting, n, v.after, v.now, y) {
      var x := PlannedBefore(a, b, m, n, done, but, dirs, v, setting, y);
    }
  }

  /** Hashing shares nothing and forgets nothing that is shared. */
  lemma HashingKeepsShared(h: Index.Hasher, fs: Fs, m: Entries, n: Entries, asked: seq<Candidate>, seen: Fs, x: Inode)
    requires Learned(h, fs, m, n, asked) && Describes(seen, x) && forall z :: z in asked ==> Describes(seen, z.inode)
    ensures Compress.IsShared(m, x.stamp) ==> Compress.IsShared(n, x.stamp)
  {
    if Compress.IsShared(m, x.stamp) && n[x.stamp.id].entry != m[x.stamp.id].entry {
      var z :| z in asked && z.inode.stamp.id == x.stamp.id && IsHashOf(h, fs, n, z);
      assert z.inode.stamp == x.stamp;
    }
  }

  /** A round of compress and then dedupe leaves dedupe nothing to plan or to hash, and compress only what it did not get done: a file
      that it would have planned before the round and that is still there. */
  lemma RoundSettles(s: Fs, m: Entries, n: Entries, done: set<Inode>, but: set<FileId>, first: seq<Profile>, h: Index.Hasher, fs: Fs,
                     asked: seq<Candidate>, t: Trail, v: View, c: Config, setting: Compress.Setting)
    requires IsDedupe(t, v, c)
    requires Shrunk(s, t.states[0], done) && AllButShared(m, n, but) && forall id :: id in but ==> id !in s.ever || id !in t.states[0].nodes
    requires Scanned(s, t.locked, v.private, v.floors, v.now, first)
    requires Learned(h, fs, n, t.ms[0], asked) && forall z :: z in asked ==> Describes(t.states[0], z.inode)
    ensures forall y :: Compress.Planned(setting, t.ms[|t.actions|], v.after, v.now, y) ==>
              exists x :: Compress.Planned(setting, m, first, v.now, x) && x !in done && Alike(x, y)
    ensures forall r, unread :: !Wanted(t.states[|t.actions|], t.ms[|t.actions|], Candidates(c, v.after), unread, r)
    ensures forall x :: x in Candidates(c, v.after) && HasTwin(Candidates(c, v.after), x) ==> Hits(t.ms[|t.actions|], x.inode.stamp)
  {
    forall y | Compress.Planned(setting, t.ms[|t.actions|], v.after, v.now, y)
      ensures exists x :: Compress.Planned(setting, m, first, v.now, x) && x !in done && Alike(x, y)
    {
      var z := NothingToCompress(t, v, c, setting, v.now, y);
      PlannedBeforeHashing(t, v, setting, h, fs, n, asked, z);
      var x := PlannedBefore(s, t.states[0], m, n, done, but, t.locked, v.(before := first, after := v.before), setting, z);
    }
    forall r, unread ensures !Wanted(t.states[|t.actions|], t.ms[|t.actions|], Candidates(c, v.after), unread, r) {
      NothingToDedupe(t, v, c, unread, r);
    }
    forall x | x in Candidates(c, v.after) && HasTwin(Candidates(c, v.after), x) ensures Hits(t.ms[|t.actions|], x.inode.stamp) {
      NothingToHash(t, v, c, x);
    }
  }

  lemma PlannedBeforeHashing(t: Trail, v: View, setting: Compress.Setting, h: Index.Hasher, fs: Fs, mid: Entries, asked: seq<Candidate>,
                             x: Inode)
    requires Seen(t, v) && Learned(h, fs, mid, t.ms[0], asked) && forall z :: z in asked ==> Describes(t.states[0], z.inode)
    requires Compress.Planned(setting, t.ms[0], v.before, v.now, x)
    ensures Compress.Planned(setting, mid, v.before, v.now, x)
  {
    var k :| 0 <= k < |v.before| && setting.compresses(v.before[k].dir) && x in v.before[k].inodes && Compress.Worth(setting, x, v.now)
      && !Compress.IsShared(t.ms[0], x.stamp);
    assert IsPart(t.states[0], t.locked[k], v.private, FloorFor(v.floors, t.locked[k]), v.now, v.before[k]);
    HashingKeepsShared(h, fs, mid, t.ms[0], asked, t.states[0], x);
  }

  /** The groups are of different files. */
  ghost predicate Once(groups: seq<Inode>) {
    forall i, j :: 0 <= i < j < |groups| ==> groups[i].stamp.id != groups[j].stamp.id
  }

  /** Over scans of units that are apart no group is planned twice. */
  lemma {:induction false} PlannedOnce(fs: Fs, dirs: seq<Path>, private: Component -> bool, floors: seq<(Path, nat)>, scanned: int,
                                       profiles: seq<Profile>, setting: Compress.Setting, m: Entries, now: int)
    requires fs.WellFormed() && DirsApart(dirs) && Scanned(fs, dirs, private, floors, scanned, profiles)
    ensures Once(Compress.AllWorth(setting, m, profiles, now))
  {
    if profiles != [] {
      var n := |profiles| - 1;
      var front, last := Compress.AllWorth(setting, m, profiles[..n], now), Compress.WorthIn(setting, m, profiles[n].inodes, now);
      PlannedOnce(fs, dirs[..n], private, floors, scanned, profiles[..n], setting, m, now);
      assert IsPart(fs, dirs[n], private, FloorFor(floors, dirs[n]), scanned, profiles[n]);
      OnceInUnit(setting, m, profiles[n].inodes, now);
      forall x, y | x in front && y in last ensures x.stamp.id != y.stamp.id {
        PlannedApart(fs, dirs, private, floors, scanned, profiles, setting, m, now, n, x, y);
      }
      OnceJoined(front, last);
    }
  }

  lemma OnceJoined(xs: seq<Inode>, ys: seq<Inode>)
    requires Once(xs) && Once(ys)
    requires forall x, y :: x in xs && y in ys ==> x.stamp.id != y.stamp.id
    ensures Once(xs + ys)
    ensures xs + [] == xs
  {}

  lemma {:induction false} OnceInUnit(setting: Compress.Setting, m: Entries, inodes: seq<Inode>, now: int)
    requires Once(inodes)
    ensures Once(Compress.WorthIn(setting, m, inodes, now))
  {
    if inodes != [] {
      var front, last := inodes[..|inodes| - 1], inodes[|inodes| - 1];
      OnceInUnit(setting, m, front, now);
      Compress.WorthAt(setting, m, front, now);
      forall x | x in front ensures x.stamp.id != last.stamp.id {
        var i :| 0 <= i < |front| && front[i] == x;
        assert inodes[i] == x;
      }
      OnceJoined(Compress.WorthIn(setting, m, front, now), [last]);
    }
  }

  lemma PlannedApart(fs: Fs, dirs: seq<Path>, private: Component -> bool, floors: seq<(Path, nat)>, scanned: int, profiles: seq<Profile>,
                     setting: Compress.Setting, m: Entries, now: int, n: nat, x: Inode, y: Inode)
    requires fs.WellFormed() && DirsApart(dirs) && Scanned(fs, dirs, private, floors, scanned, profiles) && n < |profiles|
    requires x in Compress.AllWorth(setting, m, profiles[..n], now) && y in Compress.WorthIn(setting, m, profiles[n].inodes, now)
    ensures x.stamp.id != y.stamp.id
  {
    Compress.AllWorthAt(setting, m, profiles[..n], now);
    Compress.WorthAt(setting, m, profiles[n].inodes, now);
    var k :| 0 <= k < n && setting.compresses(profiles[..n][k].dir) && x in profiles[..n][k].inodes && Compress.Worth(setting, x, now);
    assert profiles[..n][k] == profiles[k];
    assert IsPart(fs, dirs[k], private, FloorFor(floors, dirs[k]), scanned, profiles[k]);
    assert IsPart(fs, dirs[n], private, FloorFor(floors, dirs[n]), scanned, profiles[n]);
    WholeGroup(fs, dirs[n], private, y);
    var p := x.paths[0];
    assert p in x.paths && !Under(dirs[k], dirs[n]) && !Under(dirs[n], dirs[k]);
    if x.stamp.id == y.stamp.id {
      assert p in y.paths;
      UnderBoth(p, dirs[k], dirs[n]);
      assert false;
    }
  }
}
