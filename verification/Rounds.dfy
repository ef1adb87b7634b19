/** What the records of passes imply: dedupe skips nothing where nothing fails, and a round leaves the next one only what it did not
    get done. */
module Rounds {
  import opened Order
  import opened Paths
  import opened Files
  import opened Model
  import opened Preserve
  import opened Swap
  import opened Apply
  import opened Staging
  import opened Index
  import opened Dedupe
  import Compress
  import opened Scans
  import opened Reports
  import opened Concert
  import opened Passes
  import Settle

  lemma EachOf<T>(s: seq<T>, p: T -> bool)
    requires s != []
    ensures (forall x :: x in s ==> p(x)) <==> (forall x :: x in s[..|s| - 1] ==> p(x)) && p(s[|s| - 1])
  {
    assert s == s[..|s| - 1] + [s[|s| - 1]];
  }

  /** The report of replacements tells whether any was skipped, and whether any was applied. */
  lemma {:induction false} ReplacedTally(start: PassReport, actions: seq<Action>, skips: seq<Option<Skip>>, profiles: seq<Profile>)
    requires |skips| <= |actions| && AllReplaced(actions)
    ensures var r := Tallied(start, actions, skips, profiles, false);
            && start.skipped <= r.skipped && start.applied <= r.applied
            && (r.skipped == start.skipped <==> forall skip :: skip in skips ==> skip.None?)
            && (r.applied == start.applied <==> forall skip :: skip in skips ==> skip.Some?)
            && r.applied + |r.skipped| == start.applied + |start.skipped| + |skips|
  {
    if skips != [] {
      var n := |skips| - 1;
      ReplacedTally(start, actions, skips[..n], profiles);
      EachOf(skips, (skip: Option<Skip>) => skip.None?);
      EachOf(skips, (skip: Option<Skip>) => skip.Some?);
    }
  }

  lemma {:induction false} PressedTally(start: PassReport, actions: seq<Action>, skips: seq<Option<Skip>>, profiles: seq<Profile>)
    requires |skips| <= |actions| && AllPressed(actions)
    ensures var r := Tallied(start, actions, skips, profiles, false); r.skipped == start.skipped && r.applied == start.applied
  {
    if skips != [] {
      PressedTally(start, actions, skips[..|skips| - 1], profiles);
    }
  }

  lemma {:induction false} AccountTells(start: PassReport, outcomes: seq<Outcome>, k: nat)
    requires k <= |outcomes|
    ensures var r := AccountAll(start, outcomes, k);
            && start.skipped <= r.skipped && start.applied <= r.applied
            && (r.skipped == start.skipped <==> forall i :: 0 <= i < k ==> outcomes[i].Compressed?)
            && (r.applied == start.applied <==> forall i :: 0 <= i < k ==> outcomes[i].Refused?)
  {
    if k > 0 {
      AccountTells(start, outcomes, k - 1);
    }
  }

  /** Every group of every batch was compressed. */
  ghost predicate NoneRefused(batches: seq<Batch>) {
    forall b :: b in batches ==> forall o :: o in b.outcomes ==> o.Compressed?
  }

  ghost predicate AllRefused(batches: seq<Batch>) {
    forall b :: b in batches ==> forall o :: o in b.outcomes ==> o.Refused?
  }

  lemma {:induction false} BatchesTell(start: PassReport, batches: seq<Batch>)
    ensures var r := Reported(start, batches);
            && start.skipped <= r.skipped && start.applied <= r.applied
            && (r.skipped == start.skipped <==> NoneRefused(batches))
            && (r.applied == start.applied <==> AllRefused(batches))
  {
    if batches != [] {
      var n := |batches| - 1;
      var front, last := batches[..n], batches[n];
      BatchesTell(start, front);
      AccountTells(Reported(start, front), last.outcomes, |last.outcomes|);
      EachOf(batches, (b: Batch) => forall o :: o in b.outcomes ==> o.Compressed?);
      EachOf(batches, (b: Batch) => forall o :: o in b.outcomes ==> o.Refused?);
    }
  }

  /** What the record of a dedupe pass holds. */
  lemma CourseOf(e: Terms, t: Told)
    requires t in Deeds(e) && t.pass.DedupePass? && !e.dryRun
    ensures var trail, n := t.doing.trail, |t.doing.skips|;
            && IsTrail(trail, e.faulty) && trail.locked == t.before.locked && trail.now == e.clock && trail.skips == t.doing.skips
            && |trail.actions| == n <= |t.plan.planned| && trail.actions == t.plan.planned[..n]
            && trail.states[0] == t.before.at.fs && trail.ms[0] == t.plan.entries
            && trail.states[n] == t.after.at.fs && trail.ms[n] == t.after.at.entries
    ensures t.report.skipped == [] <==> forall skip :: skip in t.doing.skips ==> skip.None?
    ensures t.report.applied == 0 <==> forall skip :: skip in t.doing.skips ==> skip.Some?
    ensures t.report.applied + |t.report.skipped| == |t.doing.skips|
  {
    DeedHas(e, t);
    var start := NO_REPORT.(name := NameOf(t.pass));
    var tally, aside :| t.doing.skips in Tallies(start, t.plan.actions, t.before.profiles, e.dryRun, tally, aside)
      && IsLaid(t.doing, tally, aside, t.report);
    ReplacedTally(start, t.plan.actions, t.doing.skips, t.before.profiles);
  }

  /** And that of a compress pass. */
  lemma BatchesOf(e: Terms, t: Told)
    requires t in Deeds(e) && t.pass.CompressPass? && !e.dryRun
    ensures t.doing.batches in Sequels(e, t.before.locked, t.before.at.(entries := t.plan.entries), t.after.at)
    ensures |t.doing.skips| <= |t.plan.actions| && t.doing.laid <= |Compressions(t.plan.actions, |t.doing.skips|)|
    ensures Laid(t.doing.batches) == Compressions(t.plan.actions, |t.doing.skips|)[..t.doing.laid]
    ensures t.report.skipped == [] <==> NoneRefused(t.doing.batches)
    ensures t.report.applied == 0 <==> AllRefused(t.doing.batches)
  {
    DeedHas(e, t);
    var start := NO_REPORT.(name := NameOf(t.pass));
    var tally, aside :| t.doing.skips in Tallies(start, t.plan.actions, t.before.profiles, e.dryRun, tally, aside)
      && IsLaid(t.doing, tally, aside, t.report);
    PressedTally(start, t.plan.actions, t.doing.skips, t.before.profiles);
    BatchesTell(tally, t.doing.batches);
  }

  /** On a disk without errors of its own, in a run that only puts clones in place, dedupe skips nothing, whole or cut short, as long
      as the files are where they were scanned. */
  lemma DedupeSkipsNothing(e: Terms, t: Told)
    requires t in Deeds(e) && t.pass.DedupePass? && IsScene(e, t.before) && e.exact && e.kept && !e.faulty && !e.dryRun
    requires Current(t.before.seen, t.before.at.fs)
    ensures t.report.skipped == []
  {
    DeedHas(e, t);
    CourseOf(e, t);
    var x, trail := t.before, t.doing.trail;
    var unread := Unread(t.plan.entries, t.plan.asked);
    PlanOf(e, t.pass, x, t.plan);
    FirstOnes(t.plan.planned, |t.doing.skips|);
    PlanSkipsNothing(trail, x.seen, t.pass.config.(now := t.plan.now), e.private, e.floors, x.scanned, x.profiles, x.at.entries, unread);
  }

  /** What dedupe plans: none is in the way of another, and each is wanted. */
  lemma PlanOf(e: Terms, pass: Pass, x: Scene, w: Plan)
    requires w in Plans(e, pass, x) && pass.DedupePass? && e.exact && e.kept
    ensures NoSharedMember(w.planned) && NoClash(w.planned)
    ensures forall r :: r in w.planned ==> r.how.Clone?
    ensures forall r :: r in w.planned <==>
              Wanted(x.seen, x.at.entries, Candidates(pass.config.(now := w.now), x.profiles), Unread(w.entries, w.asked), r)
  {}

  lemma FirstOnes(planned: seq<Replace>, n: nat)
    requires n <= |planned| && NoSharedMember(planned) && NoClash(planned)
    ensures NoSharedMember(planned[..n]) && NoClash(planned[..n]) && forall r :: r in planned[..n] ==> r in planned
  {}

  lemma CurrentJoin(a: Fs, b: Fs, s: Fs)
    requires Current(a, b) && Current(b, s)
    ensures Current(a, s)
  {}

  /** Groups that were all refused are where they were. */
  lemma RefusedStays(e: Terms, locked: seq<Path>, b: Batch)
    requires Pressing(e, locked, b) && !e.faulty && forall o :: o in b.outcomes ==> o.Refused?
    ensures Current(b.before.fs, b.after.fs)
  {
    var a, s := b.before.fs, b.after.fs;
    assert Moving(b.outcomes, false) == {};
    forall p | a.Has(p) && !IsTemp(p)
      ensures s.Has(p) && s.names[p] == a.names[p] && StampOf(s.names[p], s.At(p)) == StampOf(a.names[p], a.At(p))
    {
      assert !PathOf({}, p, a.names[p]) && a.names[p] in a.ever;
    }
  }

  lemma {:induction false} AllStay(e: Terms, locked: seq<Path>, x: Point, batches: seq<Batch>, y: Point)
    requires batches in Sequels(e, locked, x, y) && !e.faulty && AllRefused(batches)
    ensures Current(x.fs, y.fs)
    decreases |batches|
  {
    if batches != [] {
      var n := |batches| - 1;
      assert batches == batches[..n] + [batches[n]];
      AllStay(e, locked, x, batches[..n], batches[n].before);
      RefusedStays(e, locked, batches[n]);
      CurrentJoin(x.fs, batches[n].before.fs, y.fs);
    }
  }

  /** On a disk without errors of its own the engine always goes by what is there: a pass that applied nothing has moved nothing. */
  lemma StaysCurrent(e: Terms, t: Told)
    requires t in WholeDeeds(e) && !t.pass.OtherPass? && e.exact && !e.faulty && !e.dryRun
    requires Current(t.before.seen, t.before.at.fs)
    ensures Current(t.after.seen, t.after.at.fs)
  {
    if t.report.applied == 0 {
      if t.pass.DedupePass? {
        CourseOf(e, t);
        NothingTried(t.doing.trail, |t.doing.skips|);
      } else {
        BatchesOf(e, t);
        AllStay(e, t.before.locked, t.before.at.(entries := t.plan.entries), t.doing.batches, t.after.at);
        CurrentJoin(t.before.seen, t.before.at.fs, t.after.at.fs);
      }
    }
  }

  /** The groups that were compressed. */
  ghost function Done(batches: seq<Batch>): set<Inode> {
    if batches == [] then {} else Done(batches[..|batches| - 1]) + Moving(batches[|batches| - 1].outcomes, false)
  }

  /** The inodes their content is in now. */
  ghost function News(outcomes: seq<Outcome>): set<FileId> {
    set o | o in outcomes && o.Compressed? :: o.after.stamp.id
  }

  ghost function AllNews(batches: seq<Batch>): set<FileId> {
    if batches == [] then {} else AllNews(batches[..|batches| - 1]) + News(batches[|batches| - 1].outcomes)
  }

  ghost function Ids(inodes: set<Inode>): set<FileId> {
    set x | x in inodes :: x.stamp.id
  }

  /** Of other files the index is told nothing. */
  lemma {:induction false} MovedKeeps(m: Entries, outcomes: seq<Outcome>, tells: bool, now: nat)
    ensures Settle.AllButShared(m, MovedAll(m, outcomes, tells, now), Ids(Moving(outcomes, false)) + News(outcomes))
  {
    if outcomes != [] {
      var n := |outcomes| - 1;
      var last := outcomes[n];
      assert outcomes == outcomes[..n] + [last];
      MovedKeeps(m, outcomes[..n], tells, now);
      MovingOneMore(outcomes[..n], last, false);
      if last.Compressed? {
        assert last.member in Moving(outcomes, false) && last.after.stamp.id in News(outcomes);
      }
      forall id | id !in Ids(Moving(outcomes, false)) + News(outcomes)
        ensures Settle.SameButShared(m, MovedAll(m, outcomes, tells, now), id)
      {
        assert id !in Ids(Moving(outcomes[..n], false)) + News(outcomes[..n]);
      }
    }
  }

  lemma ButSharedJoin(m: Entries, n: Entries, k: Entries, but: set<FileId>, more: set<FileId>)
    requires Settle.AllButShared(m, n, but) && Settle.AllButShared(n, k, more)
    ensures Settle.AllButShared(m, k, but + more)
  {
    forall id | id !in but + more ensures Settle.SameButShared(m, k, id) {
      Settle.SharedThrough(m, n, k, id);
    }
  }

  lemma MembersOf(outcomes: seq<Outcome>, groups: seq<Inode>)
    requires multiset(Answered(outcomes)) == multiset(groups)
    ensures forall o :: o in outcomes ==> o.member in groups
    ensures forall x :: x in groups ==> exists o :: o in outcomes && o.member == x
  {
    forall o | o in outcomes ensures o.member in groups {
      var i :| 0 <= i < |outcomes| && outcomes[i] == o;
      assert Answered(outcomes)[i] == o.member && o.member in multiset(Answered(outcomes));
    }
    forall x | x in groups ensures exists o :: o in outcomes && o.member == x {
      assert x in multiset(groups);
      var i :| 0 <= i < |outcomes| && Answered(outcomes)[i] == x;
      assert outcomes[i] in outcomes;
    }
  }

  /** One batch: what was compressed of it is gone, and no other file has changed. */
  lemma OneShrinks(e: Terms, locked: seq<Path>, b: Batch)
    requires Pressing(e, locked, b) && e.kept && (!e.faulty || forall o :: o in b.outcomes ==> o.Compressed?)
    requires forall g :: g in b.groups ==> g.stamp.id in b.before.fs.ever && (g.stamp.id in b.before.fs.nodes ==> WholeIn(b.before.fs, g))
    ensures Settle.Shrunk(b.before.fs, b.after.fs, Moving(b.outcomes, false))
    ensures Settle.AllButShared(b.before.entries, b.after.entries, Ids(Moving(b.outcomes, false)) + News(b.outcomes))
  {
    MembersOf(b.outcomes, b.groups);
    if e.faulty {
      assert Moving(b.outcomes, false) == Moving(b.outcomes, true);
    }
    Settle.BatchShrinks(Rules(locked, e.pid, b.before.serial, true, e.kept), b.before.fs, b.after.fs, b.outcomes);
    MovedKeeps(b.before.entries, b.outcomes, e.tells, e.clock);
  }

  /** All batches. */
  lemma {:induction false} AllShrink(e: Terms, locked: seq<Path>, x: Point, batches: seq<Batch>, y: Point)
    requires x.fs.WellFormed() && batches in Sequels(e, locked, x, y) && e.kept && (!e.faulty || NoneRefused(batches))
    requires forall g :: g in Laid(batches) ==> WholeIn(x.fs, g) && g.stamp.id in x.fs.ever
    ensures Settle.Shrunk(x.fs, y.fs, Done(batches))
    ensures Settle.AllButShared(x.entries, y.entries, Ids(Done(batches)) + AllNews(batches))
    ensures forall id :: id in AllNews(batches) ==> id !in x.fs.ever
    decreases |batches|
  {
    if batches == [] {
      Settle.NothingShrinks(x.fs);
    } else {
      var n := |batches| - 1;
      var front, last := batches[..n], batches[n];
      assert batches == front + [last];
      AllShrink(e, locked, x, front, last.before);
      MoreShrink(e, locked, x, front, last);
    }
  }

  lemma MoreShrink(e: Terms, locked: seq<Path>, x: Point, front: seq<Batch>, last: Batch)
    requires Pressing(e, locked, last) && e.kept && (!e.faulty || forall o :: o in last.outcomes ==> o.Compressed?)
    requires forall g :: g in last.groups ==> WholeIn(x.fs, g) && g.stamp.id in x.fs.ever
    requires Settle.Shrunk(x.fs, last.before.fs, Done(front))
    requires Settle.AllButShared(x.entries, last.before.entries, Ids(Done(front)) + AllNews(front))
    requires forall id :: id in AllNews(front) ==> id !in x.fs.ever
    ensures Settle.Shrunk(x.fs, last.after.fs, Done(front) + Moving(last.outcomes, false))
    ensures Settle.AllButShared(x.entries, last.after.entries,
                                Ids(Done(front) + Moving(last.outcomes, false)) + (AllNews(front) + News(last.outcomes)))
    ensures forall id :: id in News(last.outcomes) ==> id !in x.fs.ever
  {
    forall g | g in last.groups
      ensures g.stamp.id in last.before.fs.ever && (g.stamp.id in last.before.fs.nodes ==> WholeIn(last.before.fs, g))
    {
      Settle.StillWhole(x.fs, last.before.fs, Done(front), g);
    }
    OneShrinks(e, locked, last);
    MembersOf(last.outcomes, last.groups);
    Settle.ShrunkJoin(x.fs, last.before.fs, last.after.fs, Done(front), Moving(last.outcomes, false));
    ButSharedJoin(x.entries, last.before.entries, last.after.entries, Ids(Done(front)) + AllNews(front),
                  Ids(Moving(last.outcomes, false)) + News(last.outcomes));
    assert Ids(Done(front)) + AllNews(front) + (Ids(Moving(last.outcomes, false)) + News(last.outcomes))
        == Ids(Done(front) + Moving(last.outcomes, false)) + (AllNews(front) + News(last.outcomes));
  }

  /** An age the engine or a pass goes by. */
  predicate IsLimit(floors: seq<(Path, nat)>, setting: Compress.Setting, config: Config, age: nat) {
    age == 0 || age == setting.minAge || age == config.minAge || exists i :: 0 <= i < |floors| && floors[i].1 == age
  }

  /** Between the two moments no file comes to such an age. */
  ghost predicate NoneComesOfAge(floors: seq<(Path, nat)>, setting: Compress.Setting, config: Config, fs: Fs, a: int, b: int) {
    forall id, age :: id in fs.nodes && IsLimit(floors, setting, config, age) ==>
      (a - fs.nodes[id].mtime >= age <==> b - fs.nodes[id].mtime >= age)
  }

  lemma {:induction false} FloorIsLimit(floors: seq<(Path, nat)>, setting: Compress.Setting, config: Config, dir: Path)
    ensures FloorFor(floors, dir).Some? ==> IsLimit(floors, setting, config, FloorFor(floors, dir).value)
  {
    if floors != [] && floors[0].0 != dir {
      FloorIsLimit(floors[1..], setting, config, dir);
      if FloorFor(floors, dir).Some? && exists i :: 0 <= i < |floors[1..]| && floors[1..][i].1 == FloorFor(floors, dir).value {
        var i :| 0 <= i < |floors[1..]| && floors[1..][i].1 == FloorFor(floors, dir).value;
        assert floors[i + 1] == floors[1..][i];
      }
    }
  }

  lemma SameYoung(floors: seq<(Path, nat)>, setting: Compress.Setting, config: Config, fs: Fs, a: int, b: int, dir: Path, id: FileId)
    requires NoneComesOfAge(floors, setting, config, fs, a, b) && id in fs.nodes
    ensures Young(fs.nodes[id].mtime, a, FloorFor(floors, dir)) <==> Young(fs.nodes[id].mtime, b, FloorFor(floors, dir))
  {
    FloorIsLimit(floors, setting, config, dir);
    assert IsLimit(floors, setting, config, 0);
  }

  /** A scan at one of the moments is a scan at the other. */
  lemma ScannedThen(fs: Fs, dirs: seq<Path>, private: Component -> bool, floors: seq<(Path, nat)>, setting: Compress.Setting, config: Config,
                    a: int, b: int, profiles: seq<Profile>)
    requires fs.WellFormed() && Scanned(fs, dirs, private, floors, a, profiles) && NoneComesOfAge(floors, setting, config, fs, a, b)
    ensures Scanned(fs, dirs, private, floors, b, profiles)
  {
    forall k | 0 <= k < |dirs| ensures IsPart(fs, dirs[k], private, FloorFor(floors, dirs[k]), b, profiles[k]) {
      assert IsPart(fs, dirs[k], private, FloorFor(floors, dirs[k]), a, profiles[k]);
      forall id | id in fs.nodes
        ensures Young(fs.nodes[id].mtime, a, FloorFor(floors, dirs[k])) <==> Young(fs.nodes[id].mtime, b, FloorFor(floors, dirs[k]))
      {
        SameYoung(floors, setting, config, fs, a, b, dirs[k], id);
      }
    }
  }

  lemma {:induction false} EligibleThen(c: Config, now: int, inodes: seq<Inode>, how: Share)
    requires forall x :: x in inodes ==> (Eligible(c, x) <==> Eligible(c.(now := now), x))
    ensures EligibleOf(c.(now := now), inodes, how) == EligibleOf(c, inodes, how)
  {
    if inodes != [] {
      assert inodes[|inodes| - 1] in inodes;
      EligibleThen(c, now, inodes[..|inodes| - 1], how);
    }
  }

  lemma {:induction false} CandidatesThen(c: Config, now: int, profiles: seq<Profile>)
    requires forall k, x :: 0 <= k < |profiles| && x in profiles[k].inodes ==> (Eligible(c, x) <==> Eligible(c.(now := now), x))
    ensures Candidates(c.(now := now), profiles) == Candidates(c, profiles)
  {
    if profiles != [] {
      var n := |profiles| - 1;
      var last := profiles[n];
      forall k, x | 0 <= k < n && x in profiles[..n][k].inodes ensures Eligible(c, x) <==> Eligible(c.(now := now), x) {
        assert profiles[..n][k] == profiles[k];
      }
      CandidatesThen(c, now, profiles[..n]);
      if ShareOf(c, last.dir).Some? {
        EligibleThen(c, now, last.inodes, ShareOf(c, last.dir).value);
      }
      assert ShareOf(c.(now := now), last.dir) == ShareOf(c, last.dir);
    }
  }

  lemma SameAge(floors: seq<(Path, nat)>, setting: Compress.Setting, config: Config, fs: Fs, a: int, b: int, x: Inode)
    requires NoneComesOfAge(floors, setting, config, fs, a, b) && Describes(fs, x)
    ensures Compress.Worth(setting, x, a) <==> Compress.Worth(setting, x, b)
    ensures Eligible(config.(now := a), x) <==> Eligible(config.(now := b), x)
  {
    assert IsLimit(floors, setting, config, 0) && IsLimit(floors, setting, config, setting.minAge)
        && IsLimit(floors, setting, config, config.minAge);
  }

  /** What is planned on a scan at one of the moments is planned at the other. */
  lemma PlannedThen(fs: Fs, dirs: seq<Path>, private: Component -> bool, floors: seq<(Path, nat)>, setting: Compress.Setting, config: Config,
                    a: int, b: int, at: int, profiles: seq<Profile>, m: Entries)
    requires Scanned(fs, dirs, private, floors, at, profiles) && NoneComesOfAge(floors, setting, config, fs, a, b)
    ensures forall x :: Compress.Planned(setting, m, profiles, a, x) <==> Compress.Planned(setting, m, profiles, b, x)
    ensures Candidates(config.(now := a), profiles) == Candidates(config.(now := b), profiles)
  {
    forall k, x | 0 <= k < |profiles| && x in profiles[k].inodes
      ensures Compress.Worth(setting, x, a) <==> Compress.Worth(setting, x, b)
      ensures Eligible(config.(now := a), x) <==> Eligible(config.(now := b), x)
    {
      assert IsPart(fs, dirs[k], private, FloorFor(floors, dirs[k]), at, profiles[k]);
      SameAge(floors, setting, config, fs, a, b, x);
    }
    forall x ensures Compress.Planned(setting, m, profiles, a, x) <==> Compress.Planned(setting, m, profiles, b, x) {
      if Compress.Planned(setting, m, profiles, a, x) {
        var k :| 0 <= k < |profiles| && setting.compresses(profiles[k].dir) && x in profiles[k].inodes && Compress.Worth(setting, x, a)
          && !Compress.IsShared(m, x.stamp);
        assert Compress.Worth(setting, x, b);
      }
      if Compress.Planned(setting, m, profiles, b, x) {
        var k :| 0 <= k < |profiles| && setting.compresses(profiles[k].dir) && x in profiles[k].inodes && Compress.Worth(setting, x, b)
          && !Compress.IsShared(m, x.stamp);
        assert Compress.Worth(setting, x, a);
      }
    }
    CandidatesThen(config.(now := b), a, profiles);
    assert config.(now := b).(now := a) == config.(now := a);
  }

  /** The hashes change no plan: what is wanted is wanted by the index that has them. */
  lemma WantedWhenHashed(h: Hasher, seen: Fs, fs: Fs, m: Entries, n: Entries, all: seq<Candidate>, asked: seq<Candidate>, r: Replace)
    requires Separate(all) && (forall z :: z in all ==> Describes(seen, z.inode)) && Learned(h, fs, m, n, asked)
    requires forall z :: z in asked <==> z in all && HasTwin(all, z)
    requires forall z :: z in asked ==> Hits(n, z.inode.stamp)
    ensures Wanted(seen, m, all, {}, r) <==> Wanted(seen, n, all, {}, r)
  {
    forall x, y | x in all && y in all && x != y && Twins(seen, x, y) ensures MemberOf(m, x) == MemberOf(n, x) && MemberOf(m, y) == MemberOf(n, y) {
      TwinsAreAsked(seen, all, asked, x, y);
      KnownIsMember(h, fs, m, n, asked, x);
      KnownIsMember(h, fs, m, n, asked, y);
    }
    forall x, y | x in all && y in all && x != y && Twins(seen, x, y)
      ensures Canonical(seen, m, all, {}, x, y) <==> Canonical(seen, n, all, {}, x, y)
    {
      forall z | z in all && Twins(seen, z, y) ensures MemberOf(m, z) == MemberOf(n, z) {
        assert Twins(seen, y, x);
        if z != y {
          assert Twins(seen, z, y);
        }
      }
    }
  }

  /** The pass did all it planned and could read every file it asked for. Where the disk makes no errors this is for the pass to show. */
  ghost predicate AllDone(e: Terms, t: Told) {
    !e.faulty || (t.report.skipped == [] && Unread(t.plan.entries, t.plan.asked) == {})
  }

  /** A dedupe pass on a fresh scan, carried through. */
  ghost predicate FreshDedupe(e: Terms, t: Told) {
    && t in WholeDeeds(e) && t.pass.DedupePass? && IsScene(e, t.before) && t.before.seen == t.before.at.fs
    && e.exact && e.kept && !e.dryRun && AllDone(e, t)
  }

  lemma PlanReads(e: Terms, pass: Pass, x: Scene, w: Plan)
    requires w in Plans(e, pass, x) && pass.DedupePass?
    ensures var all := Candidates(pass.config.(now := w.now), x.profiles);
            && Learned(e.h, x.at.fs, x.at.entries, w.entries, w.asked)
            && forall z :: z in w.asked <==> z in all && HasTwin(all, z)
    ensures !e.faulty ==> forall z :: z in w.asked && z.inode.paths != [] && z.inode.paths[0] in x.at.fs.names ==> Hits(w.entries, z.inode.stamp)
  {}

  /** Every candidate with a twin is known to the index when the plan is made. */
  lemma AllRead(e: Terms, t: Told)
    requires FreshDedupe(e, t)
    ensures Unread(t.plan.entries, t.plan.asked) == {} && forall z :: z in t.plan.asked ==> Hits(t.plan.entries, z.inode.stamp)
  {
    DeedHas(e, t);
    var x, config := t.before, t.pass.config.(now := t.plan.now);
    PlanReads(e, t.pass, x, t.plan);
    ScansSeparate(x.seen, config, e.private, x.locked, e.floors, x.scanned, x.profiles);
    forall z | z in t.plan.asked ensures Hits(t.plan.entries, z.inode.stamp) {
      if e.faulty {
        assert !Hits(t.plan.entries, z.inode.stamp) ==> z.inode.stamp.id in Unread(t.plan.entries, t.plan.asked);
      } else {
        var k :| 0 <= k < |x.locked| && FoundIn(x.seen, config, e.private, x.locked[k], z);
        assert z.inode.paths[0] in z.inode.paths;
      }
    }
  }

  /** Nothing was skipped, and the plan was carried out to the end. */
  lemma NoneSkipped(e: Terms, t: Told)
    requires FreshDedupe(e, t)
    ensures var trail := t.doing.trail;
            && (forall skip :: skip in t.doing.skips ==> skip.None?) && trail.actions == t.plan.planned && trail.states != []
            && InConcert(trail.states[0], trail.actions, trail.locked)
            && forall r :: r in trail.actions ==> Describes(trail.states[0], r.member) && r.member.nlink == |r.member.paths|
  {
    DeedHas(e, t);
    var x, config := t.before, t.pass.config.(now := t.plan.now);
    if !e.faulty {
      DedupeSkipsNothing(e, t);
    }
    CourseOf(e, t);
    PlanOf(e, t.pass, x, t.plan);
    PlanLength(e, t);
    assert t.plan.planned[..|t.plan.planned|] == t.plan.planned;
    PlanInConcert(x.seen, x.at.fs, config, e.private, x.locked, e.floors, x.scanned, x.profiles, x.at.entries,
                  Unread(t.plan.entries, t.plan.asked), t.plan.planned);
  }

  lemma PlanLength(e: Terms, t: Told)
    requires t in WholeDeeds(e) && t.pass.DedupePass?
    ensures |t.doing.skips| == |t.plan.planned| == |t.plan.actions|
  {
    DeedHas(e, t);
    assert t.plan in Plans(e, t.pass, t.before);
  }

  lemma TrailApplied(t: Trail, faulty: bool)
    requires IsTrail(t, faulty) && InConcert(t.states[0], t.actions, t.locked) && forall skip :: skip in t.skips ==> skip.None?
    requires forall r :: r in t.actions ==> Describes(t.states[0], r.member) && r.member.nlink == |r.member.paths|
    ensures Settle.Applied(t)
  {
    forall k | 0 <= k < |t.actions| ensures Settle.AppliedAt(t, k) && t.states[k + 1].WellFormed() {
      assert TriedAt(t, k, faulty) && t.skips[k] in t.skips;
    }
    forall k | 0 <= k < |t.states| ensures t.states[k].WellFormed() {
      if k > 0 {
        var j := k - 1;
        assert TriedAt(t, j, faulty);
      }
    }
  }

  /** The engine goes by what is there when the pass has ended. */
  lemma SeenAfter(e: Terms, t: Told)
    requires FreshDedupe(e, t)
    ensures t.after.seen == t.after.at.fs && t.after.locked == t.before.locked
  {
    NoneSkipped(e, t);
    CourseOf(e, t);
  }

  /** Such a pass is a dedupe round that has settled, seen at one moment. */
  lemma IsSettled(e: Terms, t: Told, setting: Compress.Setting, config: Config, clock: int)
    requires FreshDedupe(e, t) && t.pass == DedupePass(config) && IsScene(e, t.after)
    requires NoneComesOfAge(e.floors, setting, config, t.before.seen, t.before.scanned, clock)
    requires NoneComesOfAge(e.floors, setting, config, t.before.seen, t.plan.now, clock)
    requires NoneComesOfAge(e.floors, setting, config, t.after.seen, t.after.scanned, clock)
    ensures Settle.IsDedupe(t.doing.trail, Settle.View(e.private, e.floors, clock, t.before.profiles, t.after.profiles), config.(now := clock))
  {
    var x, y, trail := t.before, t.after, t.doing.trail;
    NoneSkipped(e, t);
    CourseOf(e, t);
    TrailApplied(trail, e.faulty);
    SeenAfter(e, t);
    ScannedThen(x.seen, x.locked, e.private, e.floors, setting, config, x.scanned, clock, x.profiles);
    ScannedThen(y.seen, y.locked, e.private, e.floors, setting, config, y.scanned, clock, y.profiles);
    PlannedThen(x.seen, x.locked, e.private, e.floors, setting, config, t.plan.now, clock, x.scanned, x.profiles, x.at.entries);
    SettledPlan(e, t);
  }

  /** The plan by the index the hashes are in. */
  lemma SettledPlan(e: Terms, t: Told)
    requires FreshDedupe(e, t)
    ensures var all := Candidates(t.pass.config.(now := t.plan.now), t.before.profiles);
            && (forall r :: r in t.plan.planned <==> Wanted(t.before.seen, t.plan.entries, all, {}, r))
            && (forall z :: z in all && HasTwin(all, z) ==> Hits(t.plan.entries, z.inode.stamp))
  {
    DeedHas(e, t);
    var x, config := t.before, t.pass.config.(now := t.plan.now);
    var all := Candidates(config, x.profiles);
    AllRead(e, t);
    PlanOf(e, t.pass, x, t.plan);
    PlanReads(e, t.pass, x, t.plan);
    ScansSeparate(x.seen, config, e.private, x.locked, e.floors, x.scanned, x.profiles);
    forall z | z in all ensures Describes(x.seen, z.inode) {
      var k :| 0 <= k < |x.locked| && FoundIn(x.seen, config, e.private, x.locked[k], z);
    }
    forall r ensures r in t.plan.planned <==> Wanted(x.seen, t.plan.entries, all, {}, r) {
      WantedWhenHashed(e.h, x.seen, x.at.fs, x.at.entries, t.plan.entries, all, t.plan.asked, r);
    }
  }

  /** A round of compress and then dedupe, carried through. */
  ghost predicate TwoPasses(e: Terms, setting: Compress.Setting, config: Config, t: Told, u: Told) {
    && t in WholeDeeds(e) && t.pass == CompressPass(setting) && u.pass == DedupePass(config)
    && IsScene(e, t.before) && t.before.seen == t.before.at.fs && u.before == t.after
    && AllDone(e, t) && FreshDedupe(e, u) && IsScene(e, u.after)
  }

  /** All through the round and until `now` no file comes of age. */
  ghost predicate OneAge(e: Terms, setting: Compress.Setting, config: Config, t: Told, u: Told, clock: int) {
    && NoneComesOfAge(e.floors, setting, config, t.before.seen, t.before.scanned, clock)
    && NoneComesOfAge(e.floors, setting, config, t.before.seen, t.plan.now, clock)
    && NoneComesOfAge(e.floors, setting, config, u.before.seen, u.before.scanned, clock)
    && NoneComesOfAge(e.floors, setting, config, u.before.seen, u.plan.now, clock)
    && NoneComesOfAge(e.floors, setting, config, u.after.seen, u.after.scanned, clock)
  }

  /** A group that the backend was given and that was left as it was. */
  ghost predicate WasRefused(batches: seq<Batch>, x: Inode) {
    exists b, o :: b in batches && o in b.outcomes && o.Refused? && o.member == x
  }

  /** Dedupe is handed the scan of what compress has left. */
  lemma FreshAfterCompress(e: Terms, t: Told)
    requires t in WholeDeeds(e) && t.pass.CompressPass? && !e.dryRun && t.before.seen == t.before.at.fs
    requires t.report.applied > 0 || t.plan.actions == []
    ensures t.after.seen == t.after.at.fs
  {
    BatchesOf(e, t);
    DeedHas(e, t);
    if t.report.applied == 0 {
      assert t.doing.laid == 0 && t.doing.batches == [];
    }
  }

  /** What a compress pass carried through has made of the files and of the index. */
  lemma CompressDone(e: Terms, t: Told, setting: Compress.Setting)
    requires t in WholeDeeds(e) && t.pass == CompressPass(setting) && IsScene(e, t.before) && t.before.seen == t.before.at.fs
    requires e.kept && !e.dryRun && AllDone(e, t)
    ensures var done, news := Done(t.doing.batches), AllNews(t.doing.batches);
            && Settle.Shrunk(t.before.at.fs, t.after.at.fs, done)
            && Settle.AllButShared(t.plan.entries, t.after.at.entries, Ids(done) + news)
            && (forall id :: id in Ids(done) + news ==> id !in t.before.at.fs.ever || id !in t.after.at.fs.nodes)
  {
    DeedHas(e, t);
    var x := t.before;
    CompressPlanOf(e, t.pass, x, t.plan);
    BatchesOf(e, t);
    var laid := Compressions(t.plan.actions, |t.doing.skips|)[..t.doing.laid];
    forall g | g in Laid(t.doing.batches) ensures WholeIn(x.at.fs, g) && g.stamp.id in x.at.fs.ever {
      assert g in Compressions(t.plan.actions, |t.doing.skips|);
      CompressionsAt(t.plan.actions, |t.doing.skips|, g);
      Settle.PlannedIsWhole(x.seen, x.locked, e.private, e.floors, x.scanned, x.profiles, setting, x.at.entries, t.plan.now, g);
    }
    AllShrink(e, x.locked, x.at.(entries := t.plan.entries), t.doing.batches, t.after.at);
  }

  lemma CompressPlanOf(e: Terms, pass: Pass, x: Scene, w: Plan)
    requires w in Plans(e, pass, x) && pass.CompressPass?
    ensures AllPressed(w.actions) && Compress.SameEntries(x.at.entries, w.entries)
    ensures forall y :: DoCompress(y) in w.actions <==> Compress.Planned(pass.setting, x.at.entries, x.profiles, w.now, y)
  {}

  /** A group that was planned and not compressed was refused. */
  lemma RefusedIfLeft(e: Terms, t: Told, x: Inode)
    requires t in WholeDeeds(e) && t.pass.CompressPass? && !e.dryRun && DoCompress(x) in t.plan.actions && x !in Done(t.doing.batches)
    ensures WasRefused(t.doing.batches, x)
  {
    DeedHas(e, t);
    BatchesOf(e, t);
    var n := |t.plan.actions|;
    CompressionsAt(t.plan.actions, n, x);
    assert t.plan.actions[..n] == t.plan.actions;
    var laid := Compressions(t.plan.actions, n);
    assert laid[..|laid|] == laid;
    RefusedInBatch(e, t.before.locked, t.before.at.(entries := t.plan.entries), t.doing.batches, t.after.at, x);
  }

  lemma {:induction false} RefusedInBatch(e: Terms, locked: seq<Path>, x: Point, batches: seq<Batch>, y: Point, g: Inode)
    requires batches in Sequels(e, locked, x, y) && g in Laid(batches) && g !in Done(batches)
    ensures WasRefused(batches, g)
    decreases |batches|
  {
    var n := |batches| - 1;
    var last := batches[n];
    assert batches == batches[..n] + [last];
    if g in last.groups {
      MembersOf(last.outcomes, last.groups);
      var o :| o in last.outcomes && o.member == g;
      assert o.Compressed? ==> g in Moving(last.outcomes, false);
      assert last in batches;
    } else {
      RefusedInBatch(e, locked, x, batches[..n], last.before, g);
      var b, o :| b in batches[..n] && o in b.outcomes && o.Refused? && o.member == g;
      assert b in batches;
    }
  }

  /** After a round of compress and then dedupe, carried through, dedupe has nothing to plan and nothing to hash, and compress only
      groups that were refused; as long as no file comes of age. */
  lemma RoundLeaves(e: Terms, setting: Compress.Setting, config: Config, t: Told, u: Told, clock: int)
    requires TwoPasses(e, setting, config, t, u) && OneAge(e, setting, config, t, u, clock)
    ensures var z, c := u.after, config.(now := clock);
            && (forall r, unread :: !Wanted(z.seen, z.at.entries, Candidates(c, z.profiles), unread, r))
            && (forall x :: x in Candidates(c, z.profiles) && HasTwin(Candidates(c, z.profiles), x) ==> Hits(z.at.entries, x.inode.stamp))
            && (forall y :: Compress.Planned(setting, z.at.entries, z.profiles, clock, y) ==>
                  exists x :: WasRefused(t.doing.batches, x) && Settle.Alike(x, y))
  {
    var a, z, trail, done := t.before, u.after, u.doing.trail, Done(t.doing.batches);
    var v := Settle.View(e.private, e.floors, clock, u.before.profiles, z.profiles);
    IsSettled(e, u, setting, config, clock);
    CourseOf(e, u);
    SeenAfter(e, u);
    CompressDone(e, t, setting);
    ScannedThen(a.seen, a.locked, e.private, e.floors, setting, config, a.scanned, clock, a.profiles);
    AskedAreScanned(e, u);
    Settle.RoundSettles(a.at.fs, t.plan.entries, t.after.at.entries, done, Ids(done) + AllNews(t.doing.batches), a.profiles, e.h, u.before.at.fs,
                        u.plan.asked, trail, v, config.(now := clock), setting);
    forall y | Compress.Planned(setting, z.at.entries, z.profiles, clock, y) ensures exists x :: WasRefused(t.doing.batches, x) && Settle.Alike(x, y) {
      var x :| Compress.Planned(setting, t.plan.entries, a.profiles, clock, x) && x !in done && Settle.Alike(x, y);
      LeftWasPlanned(e, t, setting, config, clock, x);
    }
  }

  lemma LeftWasPlanned(e: Terms, t: Told, setting: Compress.Setting, config: Config, clock: int, x: Inode)
    requires t in WholeDeeds(e) && t.pass == CompressPass(setting) && IsScene(e, t.before) && !e.dryRun
    requires NoneComesOfAge(e.floors, setting, config, t.before.seen, t.plan.now, clock)
    requires Compress.Planned(setting, t.plan.entries, t.before.profiles, clock, x) && x !in Done(t.doing.batches)
    ensures WasRefused(t.doing.batches, x)
  {
    DeedHas(e, t);
    var a := t.before;
    CompressPlanOf(e, t.pass, a, t.plan);
    PlannedThen(a.seen, a.locked, e.private, e.floors, setting, config, t.plan.now, clock, a.scanned, a.profiles, t.plan.entries);
    SamePlanned(setting, a.at.entries, t.plan.entries, a.profiles, t.plan.now, x);
    RefusedIfLeft(e, t, x);
  }

  lemma SamePlanned(setting: Compress.Setting, m: Entries, n: Entries, profiles: seq<Profile>, now: int, x: Inode)
    requires Compress.SameEntries(m, n)
    ensures Compress.Planned(setting, m, profiles, now, x) <==> Compress.Planned(setting, n, profiles, now, x)
  {
    forall y: Inode ensures Compress.IsShared(m, y.stamp) <==> Compress.IsShared(n, y.stamp) {}
  }

  lemma AskedAreScanned(e: Terms, u: Told)
    requires FreshDedupe(e, u)
    ensures Learned(e.h, u.before.at.fs, u.before.at.entries, u.plan.entries, u.plan.asked)
    ensures forall z :: z in u.plan.asked ==> Describes(u.before.seen, z.inode)
  {
    DeedHas(e, u);
    var x, config := u.before, u.pass.config.(now := u.plan.now);
    PlanReads(e, u.pass, x, u.plan);
    ScansSeparate(x.seen, config, e.private, x.locked, e.floors, x.scanned, x.profiles);
    forall z | z in u.plan.asked ensures Describes(x.seen, z.inode) {
      var k :| 0 <= k < |x.locked| && FoundIn(x.seen, config, e.private, x.locked[k], z);
    }
  }

  /** The records of the passes of a round that ran, of the first `k`: each begins where the one before it ended. */
  ghost predicate InRound(e: Terms, passes: seq<Pass>, opts: Options, k: nat, x: Scene, told: seq<Told>, y: Scene)
    requires k <= |passes|
    decreases k
  {
    if k == 0 then told == [] && x == y
    else if Runs(passes[k - 1], opts) then
      && told != []
      && var last := told[|told| - 1];
         && last.pass == passes[k - 1] && last in WholeDeeds(e) && IsScene(e, last.before) && last.after == y
         && InRound(e, passes, opts, k - 1, x, told[..|told| - 1], last.before)
    else InRound(e, passes, opts, k - 1, x, told, y)
  }

  ghost function RoundsOf(e: Terms, passes: seq<Pass>, opts: Options, k: nat, x: Scene, y: Scene): iset<seq<Told>> {
    iset told: seq<Told> | k <= |passes| && InRound(e, passes, opts, k, x, told, y)
  }

  lemma RoundBegins(e: Terms, passes: seq<Pass>, opts: Options, x: Scene)
    ensures [] in RoundsOf(e, passes, opts, 0, x, x)
  {}

  lemma PassedOver(e: Terms, passes: seq<Pass>, opts: Options, k: nat, x: Scene, told: seq<Told>, y: Scene)
    requires k < |passes| && !Runs(passes[k], opts) && told in RoundsOf(e, passes, opts, k, x, y)
    ensures told in RoundsOf(e, passes, opts, k + 1, x, y)
  {}

  lemma OneMorePass(e: Terms, passes: seq<Pass>, opts: Options, k: nat, x: Scene, told: seq<Told>, t: Told)
    requires k < |passes| && Runs(passes[k], opts) && told in RoundsOf(e, passes, opts, k, x, t.before)
    requires t.pass == passes[k] && t in WholeDeeds(e) && IsScene(e, t.before)
    ensures told + [t] in RoundsOf(e, passes, opts, k + 1, x, t.after)
  {
    assert (told + [t])[..|told|] == told;
  }

  /** What a pass leaves of what the engine knows: where nothing fails it is up to date, and dedupe skipped nothing. */
  lemma PassKeeps(e: Terms, t: Told)
    requires t in Deeds(e) || t in WholeDeeds(e)
    requires IsScene(e, t.before) && !t.pass.OtherPass? && e.exact && !e.faulty && !e.dryRun
    requires Current(t.before.seen, t.before.at.fs)
    ensures e.kept && t.pass.DedupePass? ==> t.report.skipped == []
    ensures t in WholeDeeds(e) ==> Current(t.after.seen, t.after.at.fs)
  {
    if e.kept && t.pass.DedupePass? {
      DedupeSkipsNothing(e, t);
    }
    if t in WholeDeeds(e) {
      StaysCurrent(e, t);
    }
  }

  lemma RoundOfTwo(e: Terms, setting: Compress.Setting, config: Config, opts: Options, x: Scene, told: seq<Told>, y: Scene)
    requires told in RoundsOf(e, [CompressPass(setting), DedupePass(config)], opts, 2, x, y)
    ensures |told| == 2 && told[0].pass == CompressPass(setting) && told[1].pass == DedupePass(config)
    ensures told[0] in WholeDeeds(e) && told[1] in WholeDeeds(e)
    ensures told[0].before == x && told[0].after == told[1].before && told[1].after == y
    ensures IsScene(e, x) && IsScene(e, told[1].before)
  {
    var passes := [CompressPass(setting), DedupePass(config)];
    assert Runs(passes[0], opts) && Runs(passes[1], opts);
    var front := told[..|told| - 1];
    assert InRound(e, passes, opts, 1, x, front, told[|told| - 1].before);
    assert InRound(e, passes, opts, 0, x, front[..|front| - 1], front[|front| - 1].before);
  }

  lemma NothingRefused(e: Terms, t: Told)
    requires t in Deeds(e) && t.pass.CompressPass? && !e.dryRun && t.report.skipped == []
    ensures forall x :: !WasRefused(t.doing.batches, x)
  {
    BatchesOf(e, t);
  }

  /** A compress pass with nothing to do. */
  lemma IdleCompress(e: Terms, t: Told)
    requires t in WholeDeeds(e) && t.pass.CompressPass? && !e.dryRun && t.plan.actions == []
    ensures t.after.at.fs == t.before.at.fs && t.after.seen == t.before.seen && t.after.profiles == t.before.profiles
    ensures t.after.scanned == t.before.scanned && t.after.locked == t.before.locked
    ensures Compress.SameEntries(t.before.at.entries, t.after.at.entries)
  {
    DeedHas(e, t);
    BatchesOf(e, t);
    CompressPlanOf(e, t.pass, t.before, t.plan);
    assert t.doing.laid == 0 && t.doing.batches == [];
  }

  lemma WantedSame(seen: Fs, m: Entries, n: Entries, all: seq<Candidate>, unread: set<FileId>, r: Replace)
    requires Compress.SameEntries(m, n) && Wanted(seen, n, all, unread, r)
    ensures Wanted(seen, m, all, unread, r)
  {
    forall x: Candidate ensures MemberOf(m, x) == MemberOf(n, x) {}
    var x, y :| y in all && y.inode.stamp.id !in unread && Canonical(seen, n, all, unread, x, y) && x != y
      && !MemberOf(n, y).shared && r == Pointed(MemberOf(n, x), MemberOf(n, y));
    assert Canonical(seen, m, all, unread, x, y);
  }

  /** A dedupe pass that compress has left nothing new, where nothing was wanted. */
  lemma IdleDedupe(e: Terms, setting: Compress.Setting, config: Config, v: Told, w: Told, clock: int)
    requires v in WholeDeeds(e) && v.pass.CompressPass? && v.plan.actions == [] && !e.dryRun && e.exact && e.kept
    requires w in WholeDeeds(e) && w.pass == DedupePass(config) && w.before == v.after && IsScene(e, v.before)
    requires NoneComesOfAge(e.floors, setting, config, v.before.seen, w.plan.now, clock)
    requires forall r, unread ::
               !Wanted(v.before.seen, v.before.at.entries, Candidates(config.(now := clock), v.before.profiles), unread, r)
    ensures w.plan.actions == []
  {
    DeedHas(e, w);
    var x := v.before;
    IdleCompress(e, v);
    PlanOf(e, w.pass, w.before, w.plan);
    PlannedThen(x.seen, x.locked, e.private, e.floors, setting, config, w.plan.now, clock, x.scanned, x.profiles, x.at.entries);
    StillUnwanted(x.seen, x.at.entries, w.before.at.entries, Candidates(config.(now := clock), x.profiles), Unread(w.plan.entries, w.plan.asked));
    SomeIn(w.plan.planned);
    PlanLength(e, w);
  }

  lemma StillUnwanted(seen: Fs, m: Entries, n: Entries, all: seq<Candidate>, unread: set<FileId>)
    requires Compress.SameEntries(m, n) && forall r, missing :: !Wanted(seen, m, all, missing, r)
    ensures forall r :: !Wanted(seen, n, all, unread, r)
  {
    forall r ensures !Wanted(seen, n, all, unread, r) {
      if Wanted(seen, n, all, unread, r) {
        WantedSame(seen, m, n, all, unread, r);
      }
    }
  }

  lemma SomeIn(planned: seq<Replace>)
    ensures planned != [] ==> exists r :: r in planned
  {
    if planned != [] {
      assert planned[0] in planned;
    }
  }

  lemma SomeGroupIn(actions: seq<Action>)
    requires AllPressed(actions)
    ensures actions != [] ==> exists g :: DoCompress(g) in actions
  {
    if actions != [] {
      assert DoCompress(actions[0].inode) in actions;
    }
  }

  /** Two rounds of compress and dedupe, one after the other, the first carried through: the second plans to compress only what the
      first had refused, and with nothing refused it plans nothing at all. As long as no file comes of age. */
  lemma NextRoundIdles(e: Terms, setting: Compress.Setting, config: Config, opts: Options, x: Scene, t: Told, u: Told, y: Scene,
                       v: Told, w: Told, z: Scene, clock: int)
    requires [t, u] in RoundsOf(e, [CompressPass(setting), DedupePass(config)], opts, 2, x, y)
    requires [v, w] in RoundsOf(e, [CompressPass(setting), DedupePass(config)], opts, 2, y, z)
    requires e.exact && e.kept && !e.dryRun && x.seen == x.at.fs && AllDone(e, t) && AllDone(e, u)
    requires t.report.applied > 0 || t.plan.actions == []
    requires OneAge(e, setting, config, t, u, clock)
    requires NoneComesOfAge(e.floors, setting, config, y.seen, v.plan.now, clock)
    requires NoneComesOfAge(e.floors, setting, config, y.seen, w.plan.now, clock)
    ensures forall g :: DoCompress(g) in v.plan.actions ==> exists f :: WasRefused(t.doing.batches, f) && Settle.Alike(f, g)
    ensures t.report.skipped == [] ==> v.plan.actions == [] && w.plan.actions == []
  {
    DeedHas(e, v);
    RoundOfTwo(e, setting, config, opts, x, [t, u], y);
    RoundOfTwo(e, setting, config, opts, y, [v, w], z);
    FreshAfterCompress(e, t);
    RoundLeaves(e, setting, config, t, u, clock);
    CompressPlanOf(e, v.pass, y, v.plan);
    PlannedThen(y.seen, y.locked, e.private, e.floors, setting, config, v.plan.now, clock, y.scanned, y.profiles, y.at.entries);
    if t.report.skipped == [] {
      NothingRefused(e, t);
      SomeGroupIn(v.plan.actions);
      IdleCompress(e, v);
      IdleDedupe(e, setting, config, v, w, clock);
    }
  }

  /** A round that was carried through: what it found, what its passes did, and what it left. */
  datatype Lap = Lap(before: Scene, told: seq<Told>, after: Scene)

  /** Round after round, each from where the one before it ended. */
  ghost predicate Lapped(e: Terms, passes: seq<Pass>, opts: Options, laps: seq<Lap>) {
    && (forall i :: 0 <= i < |laps| ==> laps[i].told in RoundsOf(e, passes, opts, |passes|, laps[i].before, laps[i].after))
    && (forall i, j :: 0 <= i && j == i + 1 < |laps| ==> laps[i].after == laps[j].before)
  }

  ghost function Laps(e: Terms, passes: seq<Pass>, opts: Options): iset<seq<Lap>> {
    iset laps: seq<Lap> | Lapped(e, passes, opts, laps)
  }

  /** So many rounds, the last of which left `y`. */
  ghost function LapsTo(e: Terms, passes: seq<Pass>, opts: Options, n: nat, y: Scene): iset<seq<Lap>> {
    iset laps: seq<Lap> | Lapped(e, passes, opts, laps) && |laps| == n && (laps != [] ==> laps[n - 1].after == y)
  }

  lemma NoLapYet(e: Terms, passes: seq<Pass>, opts: Options, x: Scene)
    ensures [] in Laps(e, passes, opts) && [] in LapsTo(e, passes, opts, 0, x)
  {}

  lemma LapsAre(e: Terms, passes: seq<Pass>, opts: Options, n: nat, y: Scene, laps: seq<Lap>)
    requires laps in LapsTo(e, passes, opts, n, y)
    ensures laps in Laps(e, passes, opts) && |laps| == n
  {}

  lemma OneMoreLap(e: Terms, passes: seq<Pass>, opts: Options, n: nat, y: Scene, laps: seq<Lap>, lap: Lap)
    requires laps in LapsTo(e, passes, opts, n, y) && lap.before == y
    requires lap.told in RoundsOf(e, passes, opts, |passes|, lap.before, lap.after)
    ensures laps + [lap] in LapsTo(e, passes, opts, n + 1, lap.after) && laps + [lap] in Laps(e, passes, opts)
  {}

  /** Of the rounds of one run: once compress had nothing refused and all was done, the next round, if one is made, plans nothing. */
  lemma LapIdles(e: Terms, setting: Compress.Setting, config: Config, opts: Options, laps: seq<Lap>, i: nat, j: nat, t: Told, u: Told,
                 v: Told, w: Told, clock: int)
    requires laps in Laps(e, [CompressPass(setting), DedupePass(config)], opts) && j == i + 1 < |laps|
    requires laps[i].told == [t, u] && laps[j].told == [v, w]
    requires e.exact && e.kept && !e.dryRun && laps[i].before.seen == laps[i].before.at.fs && AllDone(e, t) && AllDone(e, u)
    requires (t.report.applied > 0 || t.plan.actions == []) && t.report.skipped == []
    requires OneAge(e, setting, config, t, u, clock)
    requires NoneComesOfAge(e.floors, setting, config, laps[j].before.seen, v.plan.now, clock)
    requires NoneComesOfAge(e.floors, setting, config, laps[j].before.seen, w.plan.now, clock)
    ensures v.plan.actions == [] && w.plan.actions == []
  {
    assert laps[i].after == laps[j].before;
    NextRoundIdles(e, setting, config, opts, laps[i].before, t, u, laps[i].after, v, w, laps[j].after, clock);
  }
}
