/** A dedupe plan applied in order: no replacement gets in the way of another. */
module Concert {
  import opened Paths
  import opened Files
  import opened Model
  import opened Preserve
  import opened Swap
  import opened Apply
  import opened Index
  import opened Dedupe
  import opened Scans

  /** What the simple plan wants passes every check on the scanned state. */
  lemma WantedStands(seen: Fs, config: Config, private: Component -> bool, dirs: seq<Path>, floors: seq<(Path, nat)>, now: int,
                     profiles: seq<Profile>, m: Entries, unread: set<FileId>, r: Replace)
    requires seen.WellFormed() && DirsApart(dirs) && Scanned(seen, dirs, private, floors, now, profiles)
    requires Wanted(seen, m, Candidates(config, profiles), unread, r) && r.how.Clone?
    ensures ReplaceSkip(seen, r, dirs).None?
    ensures Describes(seen, r.member) && NoRepeat(r.member.paths) && r.member.nlink == |r.member.paths|
  {
    var all := Candidates(config, profiles);
    ScansSeparate(seen, config, private, dirs, floors, now, profiles);
    var x, y := WantedPair(seen, m, all, unread, r);
    var k :| 0 <= k < |dirs| && FoundIn(seen, config, private, dirs[k], x);
    var l :| 0 <= l < |dirs| && FoundIn(seen, config, private, dirs[l], y);
    FoundStands(seen, config, private, dirs, k, x);
    FoundStands(seen, config, private, dirs, l, y);
    PairStands(seen, dirs, x, y, r);
  }

  lemma PairStands(seen: Fs, dirs: seq<Path>, x: Candidate, y: Candidate, r: Replace)
    requires Twins(seen, x, y) && x.inode.stamp.id != y.inode.stamp.id && r.how.Clone?
    requires x.inode.paths != [] && r == Replace(x.inode.paths[0], x.inode.stamp, y.inode, r.how)
    requires GroupSkip(seen, y.inode, dirs).None? && Describes(seen, x.inode) && Describes(seen, y.inode)
    requires Stands(seen, x.inode.paths[0], x.inode.stamp) && LockedIn(x.inode.paths[0], dirs)
    ensures ReplaceSkip(seen, r, dirs).None?
  {}

  lemma WantedPair(seen: Fs, m: Entries, all: seq<Candidate>, unread: set<FileId>, r: Replace) returns (x: Candidate, y: Candidate)
    requires Separate(all) && Wanted(seen, m, all, unread, r)
    ensures x in all && y in all && Twins(seen, x, y) && x.inode.stamp.id != y.inode.stamp.id
    ensures r == Replace(x.inode.paths[0], x.inode.stamp, y.inode, y.how)
  {
    x, y :| y in all && y.inode.stamp.id !in unread && Canonical(seen, m, all, unread, x, y) && x != y
      && !MemberOf(m, y).shared && r == Pointed(MemberOf(m, x), MemberOf(m, y));
    DifferentFiles(all, x, y);
  }

  lemma FoundStands(seen: Fs, config: Config, private: Component -> bool, dirs: seq<Path>, k: nat, x: Candidate)
    requires seen.WellFormed() && k < |dirs| && FoundIn(seen, config, private, dirs[k], x)
    ensures GroupSkip(seen, x.inode, dirs).None?
    ensures x.inode.paths != [] && Stands(seen, x.inode.paths[0], x.inode.stamp) && LockedIn(x.inode.paths[0], dirs)
    ensures NoRepeat(x.inode.paths)
  {
    NoRepeatIfAscending(x.inode.paths);
    forall p | p in x.inode.paths ensures LockedIn(p, dirs) && Stands(seen, p, x.inode.stamp) {
      assert Under(p, dirs[k]);
    }
    assert x.inode.paths[0] in x.inode.paths;
  }

  /** One clone put in place leaves every other planned one as it stood. */
  lemma OthersStand(a: Fs, r: Replace, locked: seq<Path>, pid: nat, lo: nat, hi: nat, b: Fs, g: Goal, q: Replace)
    requires a.WellFormed() && ReplaceOutcome(a, r, locked, pid, lo, hi, b, g, None) && r.how.Clone? && NoRepeat(r.member.paths)
    requires ReplaceSkip(a, q, locked).None? && q.how.Clone?
    requires q.member.stamp.id != r.member.stamp.id && q.sourceStamp.id != r.member.stamp.id
    ensures ReplaceSkip(b, q, locked).None?
  {
    ReplaceStands(a, r, locked);
    ReplaceStands(a, q, locked);
    SwappedNames(a, r, locked, pid, lo, hi, b, g);
    forall p | p in r.member.paths ensures a.names[p] == r.member.stamp.id {
      assert Stands(a, p, r.member.stamp);
    }
    forall p, stamp: Stamp | Stands(a, p, stamp) && stamp.id != r.member.stamp.id ensures Stands(b, p, stamp) {
      assert b.names[p] == a.names[p] && b.names[p] in b.nodes && b.names[p] in a.ever;
    }
  }

  /** The stamp of the inode now at the group's paths. */
  ghost function NewStamp(s: Fs, r: Replace): Stamp {
    if r.member.paths != [] && s.Has(r.member.paths[0]) then StampOf(s.names[r.member.paths[0]], s.At(r.member.paths[0]))
    else r.member.stamp
  }

  /** The index told of an applied replacement. */
  ghost function Retold(m: Entries, r: Replace, s: Fs, now: nat): Entries {
    ReplacedIn(m, r.sourceStamp, r.member.stamp, NewStamp(s, r), now)
  }

  /** Where the disk and the index stand. */
  datatype Point = Point(fs: Fs, serial: nat, entries: Entries)

  /** What came of a replacement: where things stand then, what was to be put where, and why it was left alone if it was. */
  datatype Trial = Trial(after: Point, goal: Goal, skip: Option<Skip>)

  /** One replacement tried, and the index told of it if it was applied and it is to be told. On a disk without errors of its own a
      check decides. */
  ghost predicate Tried(x: Point, r: Replace, locked: seq<Path>, pid: nat, now: nat, tell: bool, faulty: bool, t: Trial) {
    var y := t.after;
    && x.fs.WellFormed() && y.fs.WellFormed()
    && ReplaceOutcome(x.fs, r, locked, pid, x.serial, y.serial, y.fs, t.goal, t.skip)
    && (t.skip == ReplaceSkip(x.fs, r, locked) || FromDisk(t.skip))
    && (!faulty && FilesThere(x.fs, r) ==> t.skip == ReplaceSkip(x.fs, r, locked))
    && y.entries == if t.skip.None? && tell then Retold(x.entries, r, y.fs, now) else x.entries
  }

  ghost function Trials(x: Point, r: Replace, locked: seq<Path>, pid: nat, now: nat, tell: bool, faulty: bool): iset<Trial> {
    iset t: Trial | Tried(x, r, locked, pid, now, tell, faulty, t)
  }

  /** One replacement after the other: the states between, what each was to put where, and what the index was told. */
  datatype Trail = Trail(states: seq<Fs>, goals: seq<Goal>, serials: seq<nat>, ms: seq<Entries>, skips: seq<Option<Skip>>,
                         actions: seq<Replace>, locked: seq<Path>, pid: nat, now: nat)

  ghost predicate Shaped(t: Trail) {
    var n := |t.actions|;
    |t.states| == n + 1 && |t.goals| == n && |t.serials| == n + 1 && |t.ms| == n + 1 && |t.skips| == n
  }

  ghost function PointAt(t: Trail, k: nat): Point
    requires Shaped(t) && k <= |t.actions|
  {
    Point(t.states[k], t.serials[k], t.ms[k])
  }

  ghost predicate TriedAt(t: Trail, k: nat, faulty: bool)
    requires Shaped(t) && k < |t.actions|
  {
    Tried(PointAt(t, k), t.actions[k], t.locked, t.pid, t.now, true, faulty, Trial(PointAt(t, k + 1), t.goals[k], t.skips[k]))
  }

  ghost predicate IsTrail(t: Trail, faulty: bool) {
    && Shaped(t) && t.states[0].WellFormed()
    && forall k :: 0 <= k < |t.actions| ==> TriedAt(t, k, faulty)
  }

  ghost function NoTrail(a: Fs, lo: nat, m: Entries, locked: seq<Path>, pid: nat, now: nat): Trail {
    Trail([a], [], [lo], [m], [], [], locked, pid, now)
  }

  ghost function Longer(t: Trail, r: Replace, x: Trial): Trail {
    Trail(t.states + [x.after.fs], t.goals + [x.goal], t.serials + [x.after.serial], t.ms + [x.after.entries], t.skips + [x.skip],
          t.actions + [r], t.locked, t.pid, t.now)
  }

  lemma LongerIsTrail(t: Trail, r: Replace, x: Trial, faulty: bool)
    requires IsTrail(t, faulty) && x in Trials(PointAt(t, |t.actions|), r, t.locked, t.pid, t.now, true, faulty)
    ensures IsTrail(Longer(t, r, x), faulty)
  {
    var u := Longer(t, r, x);
    forall k | 0 <= k < |u.actions| ensures TriedAt(u, k, faulty) {
      if k < |t.actions| {
        assert TriedAt(t, k, faulty);
      }
    }
  }

  /** Replacements of which no check refuses any on the state they begin in, and none has to do with another's member. */
  ghost predicate InConcert(a: Fs, actions: seq<Replace>, locked: seq<Path>) {
    && NoSharedMember(actions) && NoClash(actions)
    && forall r :: r in actions ==> r.how.Clone? && NoRepeat(r.member.paths) && ReplaceSkip(a, r, locked).None?
  }

  lemma {:induction false} RestStand(t: Trail, k: nat)
    requires IsTrail(t, false) && InConcert(t.states[0], t.actions, t.locked) && k <= |t.actions|
    ensures forall i :: k <= i < |t.actions| ==> ReplaceSkip(t.states[k], t.actions[i], t.locked).None?
    ensures k > 0 ==> t.skips[k - 1].None? && ReplaceSkip(t.states[k - 1], t.actions[k - 1], t.locked).None?
  {
    if k > 0 {
      RestStand(t, k - 1);
      RestStandOn(t, k - 1);
    }
  }

  lemma RestStandOn(t: Trail, k: nat)
    requires IsTrail(t, false) && InConcert(t.states[0], t.actions, t.locked) && k < |t.actions|
    requires forall i :: k <= i < |t.actions| ==> ReplaceSkip(t.states[k], t.actions[i], t.locked).None?
    ensures t.skips[k].None?
    ensures forall i :: k < i < |t.actions| ==> ReplaceSkip(t.states[k + 1], t.actions[i], t.locked).None?
  {
    var r, a, b := t.actions[k], t.states[k], t.states[k + 1];
    assert TriedAt(t, k, false);
    ReplaceStands(a, r, t.locked);
    assert FilesThere(a, r);
    forall i | k < i < |t.actions| ensures ReplaceSkip(b, t.actions[i], t.locked).None? {
      assert r in t.actions && t.actions[i] in t.actions;
      OthersStand(a, r, t.locked, t.pid, t.serials[k], t.serials[k + 1], b, t.goals[k], t.actions[i]);
    }
  }

  /** A check that the scanned state passes, the present one passes too, as long as the files are where they were. */
  lemma StandsNow(seen: Fs, fs: Fs, r: Replace, locked: seq<Path>)
    requires Current(seen, fs) && ReplaceSkip(seen, r, locked).None? && r.how.Clone?
    requires !IsTemp(r.source) && forall p :: p in r.member.paths ==> !IsTemp(p)
    ensures ReplaceSkip(fs, r, locked).None?
  {
    ReplaceStands(seen, r, locked);
    forall p | p in r.member.paths ensures Stands(fs, p, r.member.stamp) {
      assert Stands(seen, p, r.member.stamp);
    }
  }

  /** What dedupe plans on a scan whose files are where they were works in concert. */
  lemma PlanInConcert(seen: Fs, fs: Fs, config: Config, private: Component -> bool, dirs: seq<Path>, floors: seq<(Path, nat)>, now: int,
                      profiles: seq<Profile>, m: Entries, unread: set<FileId>, actions: seq<Replace>)
    requires seen.WellFormed() && Current(seen, fs) && DirsApart(dirs) && Scanned(seen, dirs, private, floors, now, profiles)
    requires NoSharedMember(actions) && NoClash(actions)
    requires forall r :: r in actions ==> r.how.Clone? && Wanted(seen, m, Candidates(config, profiles), unread, r)
    ensures InConcert(fs, actions, dirs)
    ensures forall r :: r in actions ==> Describes(seen, r.member) && r.member.nlink == |r.member.paths|
  {
    forall r | r in actions
      ensures NoRepeat(r.member.paths) && ReplaceSkip(fs, r, dirs).None? && Describes(seen, r.member)
              && r.member.nlink == |r.member.paths|
    {
      WantedStands(seen, config, private, dirs, floors, now, profiles, m, unread, r);
      WantedIsNoTemp(seen, config, private, dirs, floors, now, profiles, m, unread, r);
      StandsNow(seen, fs, r, dirs);
    }
  }

  lemma WantedIsNoTemp(seen: Fs, config: Config, private: Component -> bool, dirs: seq<Path>, floors: seq<(Path, nat)>, now: int,
                       profiles: seq<Profile>, m: Entries, unread: set<FileId>, r: Replace)
    requires seen.WellFormed() && DirsApart(dirs) && Scanned(seen, dirs, private, floors, now, profiles)
    requires Wanted(seen, m, Candidates(config, profiles), unread, r)
    ensures !IsTemp(r.source) && forall p :: p in r.member.paths ==> !IsTemp(p)
  {
    var all := Candidates(config, profiles);
    ScansSeparate(seen, config, private, dirs, floors, now, profiles);
    var x, y := WantedPair(seen, m, all, unread, r);
    var k :| 0 <= k < |dirs| && FoundIn(seen, config, private, dirs[k], x);
    var l :| 0 <= l < |dirs| && FoundIn(seen, config, private, dirs[l], y);
    assert x.inode.paths[0] in x.inode.paths;
  }

  /** A plan of clones, applied in order on a disk without errors of its own, skips nothing. */
  lemma PlanSkipsNothing(t: Trail, seen: Fs, config: Config, private: Component -> bool, floors: seq<(Path, nat)>, now: int,
                         profiles: seq<Profile>, m: Entries, unread: set<FileId>)
    requires IsTrail(t, false) && seen.WellFormed() && Current(seen, t.states[0])
    requires DirsApart(t.locked) && Scanned(seen, t.locked, private, floors, now, profiles)
    requires NoSharedMember(t.actions) && NoClash(t.actions)
    requires forall r :: r in t.actions ==> r.how.Clone? && Wanted(seen, m, Candidates(config, profiles), unread, r)
    ensures InConcert(t.states[0], t.actions, t.locked) && forall skip :: skip in t.skips ==> skip.None?
  {
    PlanInConcert(seen, t.states[0], config, private, t.locked, floors, now, profiles, m, unread, t.actions);
    ConcertSkipsNothing(t);
  }

  lemma ConcertSkipsNothing(t: Trail)
    requires IsTrail(t, false) && InConcert(t.states[0], t.actions, t.locked)
    ensures forall skip :: skip in t.skips ==> skip.None?
  {
    forall k | 0 <= k < |t.skips| ensures t.skips[k].None? {
      RestStand(t, k + 1);
    }
  }

  /** On a disk without errors of its own a replacement that is skipped was refused by a check, and has changed nothing. */
  lemma SkippedIsRefused(x: Point, r: Replace, locked: seq<Path>, pid: nat, now: nat, t: Trial)
    requires t in Trials(x, r, locked, pid, now, true, false) && t.skip.Some?
    ensures ReplaceSkip(x.fs, r, locked).Some? && t.after.fs == x.fs && t.after.entries == x.entries
  {
    if ReplaceSkip(x.fs, r, locked).None? {
      ReplaceStands(x.fs, r, locked);
      assert FilesThere(x.fs, r);
    }
  }

  lemma {:induction false} NothingTried(t: Trail, k: nat)
    requires IsTrail(t, false) && k <= |t.actions| && forall i :: 0 <= i < |t.actions| ==> t.skips[i].Some?
    ensures t.states[k] == t.states[0] && t.ms[k] == t.ms[0]
  {
    if k > 0 {
      var i := k - 1;
      NothingTried(t, i);
      assert TriedAt(t, i, false);
      SkippedIsRefused(PointAt(t, i), t.actions[i], t.locked, t.pid, t.now, Trial(PointAt(t, i + 1), t.goals[i], t.skips[i]));
    }
  }
}
