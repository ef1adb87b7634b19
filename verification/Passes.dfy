/** What a pass is told to do and what it does: the record of one pass of a run, and what such records imply. */
module Passes {
  import opened Order
  import opened Paths
  import opened Files
  import opened Model
  import opened Preserve
  import opened Swap
  import opened Apply
  import opened Staging
  import opened Index
  import Dedupe
  import Compress
  import opened Scans
  import opened Reports
  import opened Concert

  /** Copies handed to the backend at once. */
  const COMPRESS_BATCH: nat := 256
  datatype Action =
    | DoReplace(replace: Replace)
    | DoCompress(inode: Inode)
    | Remove(dir: Path, reason: string)
    | RemoveTarget(target: Path, dir: Path, reason: string, bytes: nat)

  /** The two lossless passes, and any other. */
  datatype Pass =
    | DedupePass(config: Dedupe.Config)
    | CompressPass(setting: Compress.Setting)
    | OtherPass(name: string, lossy: bool)

  datatype Options = Options(dryRun: bool, lossy: seq<string>, untilSettled: bool)

  /** A lossy pass runs only when it is named. */
  predicate Runs(pass: Pass, opts: Options) {
    pass.OtherPass? && pass.lossy ==> pass.name in opts.lossy
  }

  predicate Lossless(passes: seq<Pass>, opts: Options) {
    forall i :: 0 <= i < |passes| && Runs(passes[i], opts) ==> !passes[i].OtherPass?
  }

  /** No pass puts hardlinks in place of files. */
  predicate ClonesOnly(passes: seq<Pass>, opts: Options) {
    && Lossless(passes, opts)
    && forall i :: 0 <= i < |passes| && passes[i].DedupePass? ==> !passes[i].config.linkFallback
  }

  /** What holds for the whole of a run. */
  datatype Terms = Terms(private: Component -> bool, floors: seq<(Path, nat)>, pid: nat, faulty: bool, dryRun: bool, h: Hasher, clock: nat,
                         exact: bool, kept: bool, tells: bool)

  /** `t` is what became of the first actions, all of them replacements: from `x` to `y`, with these skips. */
  ghost predicate Course(e: Terms, t: Trail, x: Point, locked: seq<Path>, actions: seq<Action>, skips: seq<Option<Skip>>, y: Point) {
    var n := |skips|;
    && IsTrail(t, e.faulty) && t.locked == locked && t.pid == e.pid && t.now == e.clock && t.skips == skips
    && n <= |actions| && (forall i :: 0 <= i < n ==> actions[i] == DoReplace(t.actions[i]))
    && x == Point(t.states[0], t.serials[0], t.ms[0]) && y == Point(t.states[n], t.serials[n], t.ms[n])
  }

  ghost function Courses(e: Terms, x: Point, locked: seq<Path>, actions: seq<Action>, skips: seq<Option<Skip>>, y: Point): iset<Trail> {
    iset t: Trail | Course(e, t, x, locked, actions, skips, y)
  }

  ghost function CourseFrom(e: Terms, x: Point, locked: seq<Path>): Trail {
    NoTrail(x.fs, x.serial, x.entries, locked, e.pid, e.clock)
  }

  lemma CourseBegins(e: Terms, x: Point, locked: seq<Path>, actions: seq<Action>)
    requires x.fs.WellFormed()
    ensures CourseFrom(e, x, locked) in Courses(e, x, locked, actions, [], x)
  {}

  lemma LongerCourse(e: Terms, t: Trail, x: Point, locked: seq<Path>, actions: seq<Action>, skips: seq<Option<Skip>>, y: Point, z: Trial,
                     more: seq<Option<Skip>>)
    requires t in Courses(e, x, locked, actions, skips, y) && |skips| < |actions| && actions[|skips|].DoReplace? && more == skips + [z.skip]
    requires z in Trials(y, actions[|skips|].replace, locked, e.pid, e.clock, true, e.faulty)
    ensures Longer(t, actions[|skips|].replace, z) in Courses(e, x, locked, actions, more, z.after)
  {
    LongerIsTrail(t, actions[|skips|].replace, z, e.faulty);
  }

  /** The course with one more replacement, where there is one to follow. */
  ghost function Followed(follows: bool, t: Trail, action: Action, z: Trial): Trail {
    if follows && action.DoReplace? then Longer(t, action.replace, z) else t
  }

  lemma FollowedOn(e: Terms, follows: bool, t: Trail, x: Point, locked: seq<Path>, actions: seq<Action>, skips: seq<Option<Skip>>, y: Point,
                   z: Trial)
    requires |skips| < |actions|
    requires follows ==> AllReplaced(actions) && t in Courses(e, x, locked, actions, skips, y)
    requires follows ==> z in Trials(y, actions[|skips|].replace, locked, e.pid, e.clock, true, e.faulty)
    ensures follows ==> Followed(follows, t, actions[|skips|], z) in Courses(e, x, locked, actions, skips + [z.skip], z.after)
  {
    if follows {
      LongerCourse(e, t, x, locked, actions, skips, y, z, skips + [z.skip]);
    }
  }

  /** So many of the groups laid aside are a whole number of batches, or all there are. */
  predicate WholeBatches(n: nat, all: nat) {
    n == all || n % COMPRESS_BATCH == 0
  }

  lemma NextIsWhole(n: nat, end: nat, all: nat)
    requires n < all && WholeBatches(n, all) && end == if n + COMPRESS_BATCH <= all then n + COMPRESS_BATCH else all
    ensures WholeBatches(end, all)
  {}

  /** A batch of groups as it was handled. */
  datatype Batch = Batch(groups: seq<Inode>, outcomes: seq<Outcome>, before: Point, after: Point)

  /** The index once every pass that keeps one was told where the content of compressed groups is now. */
  ghost function MovedAll(m: Entries, outcomes: seq<Outcome>, tells: bool, now: nat): Entries {
    if outcomes == [] then m
    else
      var last, front := outcomes[|outcomes| - 1], MovedAll(m, outcomes[..|outcomes| - 1], tells, now);
      if last.Compressed? && tells then RewrittenIn(front, last.member.stamp, last.after.stamp, now) else front
  }

  /** Each group came to one outcome; what was compressed has moved, whole, to a new file, and the index follows. */
  ghost predicate Pressing(e: Terms, locked: seq<Path>, x: Batch) {
    && x.before.fs.WellFormed() && x.after.fs in Steps(Rules(locked, e.pid, x.before.serial, true, e.kept), x.before.fs, {})
    && multiset(Answered(x.outcomes)) == multiset(x.groups)
    && x.after.fs in Presses(x.before.fs, Moving(x.outcomes, e.faulty)) && GroupsGone(x.before.fs, x.after.fs, x.outcomes, true)
    && (forall o :: o in x.outcomes && o.Compressed? ==> o.after.stamp.id !in x.before.fs.ever)
    && (e.kept ==> x.after.entries == MovedAll(x.before.entries, x.outcomes, e.tells, e.clock))
  }

  /** Batch after batch, from `x` to `y`. */
  ghost predicate Batched(e: Terms, locked: seq<Path>, x: Point, batches: seq<Batch>, y: Point)
    decreases |batches|
  {
    if batches == [] then x == y
    else
      var n := |batches| - 1;
      Pressing(e, locked, batches[n]) && batches[n].after == y && Batched(e, locked, x, batches[..n], batches[n].before)
  }

  ghost function Sequels(e: Terms, locked: seq<Path>, x: Point, y: Point): iset<seq<Batch>> {
    iset batches: seq<Batch> | Batched(e, locked, x, batches, y)
  }

  lemma OneMoreBatch(e: Terms, locked: seq<Path>, x: Point, batches: seq<Batch>, b: Batch, start: PassReport, report: PassReport,
                     aside: seq<Inode>, n: nat, end: nat)
    requires batches in Sequels(e, locked, x, b.before) && Pressing(e, locked, b)
    requires n <= end <= |aside| && batches in Layings(aside[..n], start, report) && b.groups == aside[n..end]
    ensures batches + [b] in Sequels(e, locked, x, b.after)
    ensures batches + [b] in Layings(aside[..end], start, AccountAll(report, b.outcomes, |b.outcomes|))
  {
    assert (batches + [b])[..|batches|] == batches;
    assert aside[..end] == aside[..n] + aside[n..end];
  }

  /** All groups of the batches, in order. */
  function Laid(batches: seq<Batch>): seq<Inode> {
    if batches == [] then [] else Laid(batches[..|batches| - 1]) + batches[|batches| - 1].groups
  }

  /** What is reported when the batches are accounted for. */
  function Reported(start: PassReport, batches: seq<Batch>): PassReport {
    if batches == [] then start
    else
      var last := batches[|batches| - 1];
      AccountAll(Reported(start, batches[..|batches| - 1]), last.outcomes, |last.outcomes|)
  }

  /** The ways to lay out groups in batches that are then reported so. */
  ghost function Layings(groups: seq<Inode>, start: PassReport, report: PassReport): iset<seq<Batch>> {
    iset batches: seq<Batch> | Laid(batches) == groups && report == Reported(start, batches)
  }

  lemma NothingLaid(e: Terms, locked: seq<Path>, x: Point, start: PassReport)
    ensures [] in Sequels(e, locked, x, x) && [] in Layings([], start, start)
  {}

  predicate Tells(passes: seq<Pass>) {
    exists i :: 0 <= i < |passes| && passes[i].DedupePass?
  }

  lemma TellsOneMore(passes: seq<Pass>, i: nat)
    requires i < |passes|
    ensures Tells(passes[..i + 1]) <==> Tells(passes[..i]) || passes[i].DedupePass?
  {
    assert passes[..i + 1] == passes[..i] + [passes[i]];
    if Tells(passes[..i]) {
      var j :| 0 <= j < i && passes[..i][j].DedupePass?;
      assert passes[..i + 1][j].DedupePass?;
    }
    if passes[i].DedupePass? {
      assert passes[..i + 1][i].DedupePass?;
    }
  }

  /** The bytes an action is planned for. */
  function BytesOf(action: Action, profiles: seq<Profile>): nat {
    match action
    case DoReplace(replace) => replace.member.blocks
    case DoCompress(inode) => inode.blocks
    case Remove(dir, _) => SumIn(dir, profiles)
    case RemoveTarget(_, _, _, bytes) => bytes
  }

  /** The report with one more action planned. */
  function Entered(report: PassReport, action: Action, bytes: nat): PassReport {
    report.(planned := report.planned + 1, plannedBytes := report.plannedBytes + bytes,
            removals := report.removals + if action.Remove? || action.RemoveTarget? then [(action.dir, action.reason)] else [])
  }

  /** What the report is after an action that was tried. */
  function Closed(report: PassReport, action: Action, skip: Option<Skip>, bytes: nat): PassReport {
    if action.DoCompress? then report
    else if skip.None? then report.(applied := report.applied + 1, freedBytes := report.freedBytes + bytes)
    else if action.DoReplace? then Skipped(report, action.replace.member, skip.value)
    else report.(skipped := report.skipped + [(action.dir, skip.value)])
  }

  /** One more action planned, and if this is no dry run, what came of it. */
  function Counted(report: PassReport, action: Action, skip: Option<Skip>, bytes: nat, dryRun: bool): PassReport {
    var entered := Entered(report, action, bytes);
    if dryRun then entered else Closed(entered, action, skip, bytes)
  }

  /** The first actions counted, one by one, as each came out. */
  function Tallied(start: PassReport, actions: seq<Action>, skips: seq<Option<Skip>>, profiles: seq<Profile>, dryRun: bool): PassReport
    requires |skips| <= |actions|
  {
    if skips == [] then start
    else
      var n := |skips| - 1;
      Counted(Tallied(start, actions, skips[..n], profiles, dryRun), actions[n], skips[n], BytesOf(actions[n], profiles), dryRun)
  }

  predicate AllReplaced(actions: seq<Action>) {
    forall i :: 0 <= i < |actions| ==> actions[i].DoReplace?
  }

  predicate AllPressed(actions: seq<Action>) {
    forall i :: 0 <= i < |actions| ==> actions[i].DoCompress?
  }

  /** The groups among the first `k` actions that are for the backend. */
  function Compressions(actions: seq<Action>, k: nat): seq<Inode>
    requires k <= |actions|
  {
    if k == 0 then []
    else
      var front := Compressions(actions, k - 1);
      if actions[k - 1].DoCompress? then front + [actions[k - 1].inode] else front
  }

  const DEDUPE: string := "dedupe"

  function NameOf(pass: Pass): string {
    match pass
    case DedupePass(_) => DEDUPE
    case CompressPass(_) => "compress"
    case OtherPass(name, _) => name
  }

  /** The passes that run, in order. */
  function RunningNames(passes: seq<Pass>, opts: Options, k: nat): seq<string>
    requires k <= |passes|
  {
    if k == 0 then []
    else
      var front := RunningNames(passes, opts, k - 1);
      if Runs(passes[k - 1], opts) then front + [NameOf(passes[k - 1])] else front
  }

  /** `at` are the places, in order, of those of the first `k` passes that are not lossy or that the options name. */
  ghost predicate Named(passes: seq<Pass>, opts: Options, k: nat, at: seq<nat>) {
    && (forall i: nat :: i in at <==> i < k && i < |passes| && (passes[i].OtherPass? && passes[i].lossy ==> passes[i].name in opts.lossy))
    && forall j, l :: 0 <= j < l < |at| ==> at[j] < at[l]
  }

  /** One report for each such pass, in order, and no other. */
  ghost predicate ReportsOf(passes: seq<Pass>, opts: Options, k: nat, round: seq<PassReport>) {
    exists at: seq<nat> :: Named(passes, opts, k, at) && AreOf(passes, at, round)
  }

  ghost predicate AreOf(passes: seq<Pass>, at: seq<nat>, round: seq<PassReport>) {
    |round| == |at| && forall j :: 0 <= j < |at| ==> at[j] < |passes| && round[j].name == NameOf(passes[at[j]])
  }

  lemma {:induction false} NamesNamed(passes: seq<Pass>, opts: Options, k: nat) returns (at: seq<nat>)
    requires k <= |passes|
    ensures Named(passes, opts, k, at) && |at| == |RunningNames(passes, opts, k)|
    ensures forall j :: 0 <= j < |at| ==> at[j] < |passes| && RunningNames(passes, opts, k)[j] == NameOf(passes[at[j]])
  {
    at := [];
    if k > 0 {
      at := NamesNamed(passes, opts, k - 1);
      assert forall j :: 0 <= j < |at| ==> at[j] in at;
      if Runs(passes[k - 1], opts) {
        at := at + [k - 1];
      }
    }
  }

  /** Reports under the names of the passes that ran are theirs. */
  lemma RunningReports(passes: seq<Pass>, opts: Options, k: nat, round: seq<PassReport>)
    requires k <= |passes| && |round| == |RunningNames(passes, opts, k)|
    requires forall j :: 0 <= j < |round| ==> round[j].name == RunningNames(passes, opts, k)[j]
    ensures ReportsOf(passes, opts, k, round)
  {
    var at := NamesNamed(passes, opts, k);
    assert AreOf(passes, at, round);
  }

  /** Every pass that is neither dedupe nor compress is lossy, and the options name none of them. */
  ghost predicate NoneNamed(passes: seq<Pass>, opts: Options) {
    forall i :: 0 <= i < |passes| && passes[i].OtherPass? ==> passes[i].lossy && passes[i].name !in opts.lossy
  }

  lemma NoneNamedLossless(passes: seq<Pass>, opts: Options)
    requires NoneNamed(passes, opts)
    ensures Lossless(passes, opts)
  {}

  predicate WithAll(inode: Inode, dir: Path) {
    forall p :: p in inode.paths ==> Under(p, dir)
  }

  function SumOfInodes(dir: Path, inodes: seq<Inode>): nat {
    if inodes == [] then 0
    else
      var last := inodes[|inodes| - 1];
      SumOfInodes(dir, inodes[..|inodes| - 1]) + if WithAll(last, dir) then last.blocks else 0
  }

  /** The allocated bytes of the files whose every path lies in `dir`: a link from outside survives. */
  function SumIn(dir: Path, profiles: seq<Profile>): nat {
    if profiles == [] then 0
    else
      var last := profiles[|profiles| - 1];
      SumIn(dir, profiles[..|profiles| - 1]) + if Under(dir, last.dir) then SumOfInodes(dir, last.inodes) else 0
  }

  /** What may have come of the first actions when this is the report, and these groups are laid aside. */
  ghost function Tallies(start: PassReport, actions: seq<Action>, profiles: seq<Profile>, dryRun: bool, report: PassReport,
                         aside: seq<Inode>): iset<seq<Option<Skip>>>
  {
    iset skips: seq<Option<Skip>> |
      && |skips| <= |actions| && report == Tallied(start, actions, skips, profiles, dryRun)
      && aside == if dryRun then [] else Compressions(actions, |skips|)
  }

  lemma NothingTallied(start: PassReport, actions: seq<Action>, profiles: seq<Profile>, dryRun: bool)
    ensures [] in Tallies(start, actions, profiles, dryRun, start, [])
  {}

  lemma TalliedOneMore(start: PassReport, actions: seq<Action>, skips: seq<Option<Skip>>, profiles: seq<Profile>, dryRun: bool,
                       report: PassReport, aside: seq<Inode>, skip: Option<Skip>)
    requires skips in Tallies(start, actions, profiles, dryRun, report, aside) && |skips| < |actions|
    ensures var action := actions[|skips|];
            skips + [skip] in Tallies(start, actions, profiles, dryRun,
                                      Counted(report, action, skip, BytesOf(action, profiles), dryRun), Aside(aside, action, dryRun))
  {
    assert (skips + [skip])[..|skips|] == skips;
  }

  /** The actions done on the spot, of those tried. */
  ghost function DoneOf(actions: seq<Action>, skips: seq<Option<Skip>>): seq<Action>
    requires |skips| <= |actions|
  {
    if skips == [] then []
    else
      var n := |skips| - 1;
      DoneOf(actions, skips[..n]) + if !actions[n].DoCompress? && skips[n].None? then [actions[n]] else []
  }

  /** Where an action is told of: by the first path of a group, or the dir to go. */
  ghost function WhereOf(action: Action): Path {
    match action
    case DoReplace(replace) => if replace.member.paths == [] then [] else replace.member.paths[0]
    case DoCompress(inode) => if inode.paths == [] then [] else inode.paths[0]
    case Remove(dir, _) => dir
    case RemoveTarget(_, dir, _, _) => dir
  }

  /** What was left alone of what was tried on the spot, and why. */
  ghost function LeftOf(actions: seq<Action>, skips: seq<Option<Skip>>): seq<(Path, Skip)>
    requires |skips| <= |actions|
  {
    if skips == [] then []
    else
      var n := |skips| - 1;
      LeftOf(actions, skips[..n])
      + if !actions[n].DoCompress? && skips[n].Some? then [(WhereOf(actions[n]), skips[n].value)] else []
  }

  ghost function RemovalsOf(actions: seq<Action>): seq<(Path, string)> {
    if actions == [] then []
    else
      var last := actions[|actions| - 1];
      RemovalsOf(actions[..|actions| - 1]) + if last.Remove? || last.RemoveTarget? then [(last.dir, last.reason)] else []
  }

  /** The groups with every path in `dir`, of the unit that `dir` lies in. */
  ghost function GroupsInside(dir: Path, profiles: seq<Profile>): seq<Inode> {
    if profiles == [] then []
    else
      var last := profiles[|profiles| - 1];
      GroupsInside(dir, profiles[..|profiles| - 1]) + if last.dir <= dir then Inside(dir, last.inodes) else []
  }

  ghost predicate AllBelow(inode: Inode, dir: Path) {
    forall p :: p in inode.paths ==> dir <= p
  }

  ghost function Inside(dir: Path, inodes: seq<Inode>): seq<Inode> {
    if inodes == [] then []
    else
      var last := inodes[|inodes| - 1];
      Inside(dir, inodes[..|inodes| - 1]) + if AllBelow(last, dir) then [last] else []
  }

  lemma BlocksOneMore(inodes: seq<Inode>, x: Inode)
    ensures Blocks(inodes + [x]) == Blocks(inodes) + x.blocks
  {
    assert (inodes + [x])[..|inodes|] == inodes;
  }

  lemma {:induction false} SumIsOfInside(dir: Path, inodes: seq<Inode>)
    ensures SumOfInodes(dir, inodes) == Blocks(Inside(dir, inodes))
  {
    if inodes != [] {
      var front, last := inodes[..|inodes| - 1], inodes[|inodes| - 1];
      SumIsOfInside(dir, front);
      BlocksOneMore(Inside(dir, front), last);
      assert WithAll(last, dir) <==> AllBelow(last, dir);
      assert Inside(dir, inodes) == if AllBelow(last, dir) then Inside(dir, front) + [last] else Inside(dir, front);
    }
  }

  /** What removing a dir is told to free is the size of the groups that go with it, and of no file that is linked from outside it. */
  lemma {:induction false} SumIsOfGroups(dir: Path, profiles: seq<Profile>)
    ensures SumIn(dir, profiles) == Blocks(GroupsInside(dir, profiles))
  {
    if profiles != [] {
      var front, last := profiles[..|profiles| - 1], profiles[|profiles| - 1];
      SumIsOfGroups(dir, front);
      SumIsOfInside(dir, last.inodes);
      BlocksJoin(GroupsInside(dir, front), if last.dir <= dir then Inside(dir, last.inodes) else []);
    }
  }

  /** What an action is planned for, by its kind. */
  ghost predicate PlannedFor(action: Action, profiles: seq<Profile>, bytes: nat) {
    match action
    case DoReplace(replace) => bytes == replace.member.blocks
    case DoCompress(inode) => bytes == inode.blocks
    case Remove(dir, _) => bytes == Blocks(GroupsInside(dir, profiles))
    case RemoveTarget(_, _, _, told) => bytes == told
  }

  lemma BytesArePlanned(action: Action, profiles: seq<Profile>)
    ensures PlannedFor(action, profiles, BytesOf(action, profiles))
  {
    if action.Remove? {
      SumIsOfGroups(action.dir, profiles);
    }
  }

  /** `sizes` are what the actions are planned for, one by one. */
  ghost predicate Sized(actions: seq<Action>, profiles: seq<Profile>, sizes: seq<nat>) {
    |sizes| == |actions| && forall i :: 0 <= i < |actions| ==> PlannedFor(actions[i], profiles, sizes[i])
  }

  ghost function SumOf(sizes: seq<nat>): nat {
    if sizes == [] then 0 else SumOf(sizes[..|sizes| - 1]) + sizes[|sizes| - 1]
  }

  /** The sizes of what was done on the spot. */
  ghost function SumDone(actions: seq<Action>, skips: seq<Option<Skip>>, sizes: seq<nat>): nat
    requires |skips| <= |actions| && |skips| <= |sizes|
  {
    if skips == [] then 0
    else
      var n := |skips| - 1;
      SumDone(actions, skips[..n], sizes) + if !actions[n].DoCompress? && skips[n].None? then sizes[n] else 0
  }

  /** One more action entered and what came of it. */
  lemma CountedTells(report: PassReport, action: Action, skip: Option<Skip>, profiles: seq<Profile>, bytes: nat, dryRun: bool)
    requires PlannedFor(action, profiles, bytes)
    ensures var r := Counted(report, action, skip, BytesOf(action, profiles), dryRun);
            && r.name == report.name && r.planned == report.planned + 1 && r.plannedBytes == report.plannedBytes + bytes
            && r.removals == report.removals + (if action.Remove? || action.RemoveTarget? then [(action.dir, action.reason)] else [])
            && (if dryRun || action.DoCompress? then r.applied == report.applied && r.freedBytes == report.freedBytes && r.skipped == report.skipped
                else if skip.None? then r.applied == report.applied + 1 && r.freedBytes == report.freedBytes + bytes && r.skipped == report.skipped
                else r.applied == report.applied && r.freedBytes == report.freedBytes && r.skipped == report.skipped + [(WhereOf(action), skip.value)])
  {
    SizeIsOne(action, profiles, bytes);
  }

  lemma {:induction false} PlannedTells(start: PassReport, actions: seq<Action>, skips: seq<Option<Skip>>, profiles: seq<Profile>,
                                        dryRun: bool, sizes: seq<nat>)
    requires |skips| <= |actions| && Sized(actions, profiles, sizes)
    ensures var r := Tallied(start, actions, skips, profiles, dryRun);
            && r.name == start.name && r.planned == start.planned + |skips| && r.plannedBytes == start.plannedBytes + SumOf(sizes[..|skips|])
            && r.removals == start.removals + RemovalsOf(actions[..|skips|])
  {
    if skips != [] {
      var n := |skips| - 1;
      PlannedTells(start, actions, skips[..n], profiles, dryRun, sizes);
      CountedTells(Tallied(start, actions, skips[..n], profiles, dryRun), actions[n], skips[n], profiles, sizes[n], dryRun);
      assert actions[..n + 1][..n] == actions[..n] && sizes[..n + 1][..n] == sizes[..n];
    }
  }

  lemma {:induction false} DoneTells(start: PassReport, actions: seq<Action>, skips: seq<Option<Skip>>, profiles: seq<Profile>,
                                     dryRun: bool, sizes: seq<nat>)
    requires |skips| <= |actions| && Sized(actions, profiles, sizes)
    ensures var r := Tallied(start, actions, skips, profiles, dryRun);
            if dryRun then r.applied == start.applied && r.freedBytes == start.freedBytes && r.skipped == start.skipped
            else && r.applied == start.applied + |DoneOf(actions, skips)| && r.freedBytes == start.freedBytes + SumDone(actions, skips, sizes)
                 && r.skipped == start.skipped + LeftOf(actions, skips)
  {
    if skips != [] {
      var n := |skips| - 1;
      DoneTells(start, actions, skips[..n], profiles, dryRun, sizes);
      CountedTells(Tallied(start, actions, skips[..n], profiles, dryRun), actions[n], skips[n], profiles, sizes[n], dryRun);
    }
  }

  /** What a report of tried actions says, line by line: each action is planned, with its size; a removal is listed with its reason. What
      was done on the spot is applied and its size freed, and what was left alone is listed with the reason; on a dry run nothing is. */
  lemma TallyTells(start: PassReport, actions: seq<Action>, skips: seq<Option<Skip>>, profiles: seq<Profile>, dryRun: bool,
                   report: PassReport, aside: seq<Inode>, sizes: seq<nat>)
    requires skips in Tallies(start, actions, profiles, dryRun, report, aside) && Sized(actions, profiles, sizes)
    ensures |skips| <= |actions| && report.name == start.name
    ensures report.planned == start.planned + |skips| && report.plannedBytes == start.plannedBytes + SumOf(sizes[..|skips|])
    ensures report.removals == start.removals + RemovalsOf(actions[..|skips|])
    ensures if dryRun then report.applied == start.applied && report.freedBytes == start.freedBytes && report.skipped == start.skipped
            else && report.applied == start.applied + |DoneOf(actions, skips)|
                 && report.freedBytes == start.freedBytes + SumDone(actions, skips, sizes)
                 && report.skipped == start.skipped + LeftOf(actions, skips)
    ensures forall inode :: inode in aside <==> !dryRun && DoCompress(inode) in actions[..|skips|]
  {
    PlannedTells(start, actions, skips, profiles, dryRun, sizes);
    DoneTells(start, actions, skips, profiles, dryRun, sizes);
    forall inode {
      CompressionsAt(actions, |skips|, inode);
    }
  }

  lemma SizeIsOne(action: Action, profiles: seq<Profile>, bytes: nat)
    requires PlannedFor(action, profiles, bytes)
    ensures bytes == BytesOf(action, profiles)
  {
    BytesArePlanned(action, profiles);
  }

  /** A group to compress is laid aside. */
  function Aside(aside: seq<Inode>, action: Action, dryRun: bool): seq<Inode> {
    if !dryRun && action.DoCompress? then aside + [action.inode] else aside
  }

  /** What has been planned is done, skipped, or laid aside; on a dry run it is only planned. */
  predicate Open(r: PassReport, aside: seq<Inode>, dryRun: bool) {
    if dryRun then aside == [] && r.applied == 0 && r.skipped == [] && r.freedBytes == 0
    else r.planned == r.applied + |r.skipped| + |aside| && r.freedBytes + Blocks(aside) <= r.plannedBytes
  }

  /** Counting an action leaves nothing planned unaccounted for. */
  lemma StaysOpen(action: Action, report: PassReport, aside: seq<Inode>, skip: Option<Skip>, bytes: nat, dryRun: bool)
    requires Open(report, aside, dryRun) && (action.DoCompress? ==> bytes == action.inode.blocks)
    ensures Open(Counted(report, action, skip, bytes, dryRun), Aside(aside, action, dryRun), dryRun)
  {
    if action.DoCompress? {
      assert (aside + [action.inode])[..|aside|] == aside;
    }
  }

  lemma {:induction false} TalliedOpen(start: PassReport, actions: seq<Action>, skips: seq<Option<Skip>>, profiles: seq<Profile>,
                                       dryRun: bool, report: PassReport, aside: seq<Inode>)
    requires skips in Tallies(start, actions, profiles, dryRun, report, aside) && Open(start, [], dryRun)
    ensures |skips| <= |actions| && report.planned == start.planned + |skips| && report.name == start.name && Open(report, aside, dryRun)
  {
    if skips != [] {
      var n := |skips| - 1;
      var front := Tallied(start, actions, skips[..n], profiles, dryRun);
      var before := if dryRun then [] else Compressions(actions, n);
      TalliedOpen(start, actions, skips[..n], profiles, dryRun, front, before);
      StaysOpen(actions[n], front, before, skips[n], BytesOf(actions[n], profiles), dryRun);
    }
  }

  /** What a pass finds, or leaves: the disk and the index, and the scans the engine goes by. */
  datatype Scene = Scene(at: Point, seen: Fs, locked: seq<Path>, profiles: seq<Profile>, scanned: int)

  /** What a pass planned, of dedupe also the replacements and the files it asked the hashes of, and the index then. */
  datatype Plan = Plan(now: int, actions: seq<Action>, planned: seq<Replace>, asked: seq<Dedupe.Candidate>, entries: Entries)

  /** How a plan was carried out: what came of each action, the course if all were replacements, and of the groups laid aside so many
      handled, batch by batch. */
  datatype Doing = Doing(skips: seq<Option<Skip>>, trail: Trail, laid: nat, batches: seq<Batch>)

  datatype Told = Told(pass: Pass, before: Scene, plan: Plan, doing: Doing, after: Scene, report: PassReport)

  predicate Are(actions: seq<Action>, planned: seq<Replace>) {
    |actions| == |planned| && forall i :: 0 <= i < |actions| ==> actions[i] == DoReplace(planned[i])
  }

  /** What a lossless pass plans: dedupe what comparing the scanned bytes asks for, compress what is worth it. */
  ghost predicate PlanIs(e: Terms, pass: Pass, x: Scene, w: Plan) {
    match pass
    case DedupePass(config) =>
      var all := Dedupe.Candidates(config.(now := w.now), x.profiles);
      && Are(w.actions, w.planned) && Dedupe.NoSharedMember(w.planned) && Dedupe.NoClash(w.planned)
      && (e.exact ==> forall r :: r in w.planned ==> r.how.Clone?)
      && (e.kept ==> forall r :: r in w.planned <==> Dedupe.Wanted(x.seen, x.at.entries, all, Dedupe.Unread(w.entries, w.asked), r))
      && Dedupe.Learned(e.h, x.at.fs, x.at.entries, w.entries, w.asked)
      && (forall z :: z in w.asked <==> z in all && Dedupe.HasTwin(all, z))
      && (!e.faulty ==> forall z :: z in w.asked && z.inode.paths != [] && z.inode.paths[0] in x.at.fs.names ==> Hits(w.entries, z.inode.stamp))
    case CompressPass(setting) =>
      && AllPressed(w.actions) && Compress.SameEntries(x.at.entries, w.entries)
      && (forall inode :: DoCompress(inode) in w.actions <==> Compress.Planned(setting, x.at.entries, x.profiles, w.now, inode))
    case OtherPass(_, _) => w.entries == x.at.entries
  }

  ghost function Plans(e: Terms, pass: Pass, x: Scene): iset<Plan> {
    iset w: Plan | PlanIs(e, pass, x, w)
  }

  /** What kind of actions a pass plans. */
  predicate IsKind(pass: Pass, actions: seq<Action>) {
    (pass.DedupePass? ==> AllReplaced(actions)) && (pass.CompressPass? ==> AllPressed(actions))
  }

  /** A plan carried out, in whole or in part: all that came of its actions is in the report. */
  ghost predicate Did(e: Terms, tell: bool, x: Point, locked: seq<Path>, actions: seq<Action>, start: PassReport, profiles: seq<Profile>,
                      y: Point, report: PassReport, d: Doing) {
    && (exists tally, aside ::
          d.skips in Tallies(start, actions, profiles, e.dryRun, tally, aside) && IsLaid(d, tally, aside, report))
    && (!e.dryRun && tell && AllReplaced(actions) ==> d.batches == [] && d.trail in Courses(e, x, locked, actions, d.skips, y))
    && (!e.dryRun && AllPressed(actions) ==> d.batches in Sequels(e, locked, x, y))
    && (d.laid == 0 ==> d.batches == [])
  }

  /** Of the groups laid aside so many were handled, and then reported so. */
  ghost predicate IsLaid(d: Doing, tally: PassReport, aside: seq<Inode>, report: PassReport) {
    d.laid <= |aside| && d.batches in Layings(aside[..d.laid], tally, report)
  }

  ghost function Doings(e: Terms, tell: bool, x: Point, locked: seq<Path>, actions: seq<Action>, start: PassReport, profiles: seq<Profile>,
                        y: Point, report: PassReport): iset<Doing>
  {
    iset d: Doing | Did(e, tell, x, locked, actions, start, profiles, y, report, d)
  }

  lemma IsDoing(e: Terms, tell: bool, x: Point, z: Point, locked: seq<Path>, actions: seq<Action>, start: PassReport, profiles: seq<Profile>,
                tally: PassReport, aside: seq<Inode>, left: seq<Path>, y: Point, report: PassReport, d: Doing, whole: bool)
    requires d.skips in Tallies(start, actions, profiles, e.dryRun, tally, aside)
    requires d.laid <= |aside| && d.batches in Layings(aside[..d.laid], tally, report) && d.batches in Sequels(e, left, z, y)
    requires AllReplaced(actions) || d.laid == 0 ==> d.batches == []
    requires AllPressed(actions) ==> z == x && left == locked
    requires !e.dryRun && tell && AllReplaced(actions) ==> d.trail in Courses(e, x, locked, actions, d.skips, z)
    requires whole ==> |d.skips| == |actions| && (e.dryRun || d.laid == |aside|)
    ensures d in Doings(e, tell, x, locked, actions, start, profiles, y, report) && (whole ==> d in WholeDoings(actions, e.dryRun))
  {
    assert IsLaid(d, tally, aside, report);
  }

  /** Plans carried out to the end. */
  ghost function WholeDoings(actions: seq<Action>, dryRun: bool): iset<Doing> {
    iset d: Doing | |d.skips| == |actions| && (!dryRun ==> d.laid == |Compressions(actions, |actions|)|)
  }

  /** The parts of a record. */
  datatype Part = Planned | Carried

  /** What a pass planned, and what came of it. */
  ghost predicate IsTrue(e: Terms, t: Told, part: Part) {
    match part
    case Planned => t.plan in Plans(e, t.pass, t.before)
    case Carried => t.doing in Doings(e, t.pass.DedupePass?, t.before.at.(entries := t.plan.entries), t.before.locked, t.plan.actions,
                                      NO_REPORT.(name := NameOf(t.pass)), t.before.profiles, t.after.at, t.report)
  }

  /** A record that is true in each of its parts. */
  ghost predicate AllTrue(e: Terms, t: Told) {
    forall part :: IsTrue(e, t, part)
  }

  ghost function Deeds(e: Terms): iset<Told> {
    iset t: Told | AllTrue(e, t)
  }

  lemma IsDeed(e: Terms, t: Told, x: Point, start: PassReport)
    requires t.plan in Plans(e, t.pass, t.before) && start == NO_REPORT.(name := NameOf(t.pass))
    requires x == t.before.at.(entries := t.plan.entries)
    requires t.doing in Doings(e, t.pass.DedupePass?, x, t.before.locked, t.plan.actions, start, t.before.profiles, t.after.at, t.report)
    ensures t in Deeds(e)
  {
    forall part ensures IsTrue(e, t, part) {}
  }

  lemma DeedHas(e: Terms, t: Told)
    requires t in Deeds(e)
    ensures t.plan in Plans(e, t.pass, t.before)
    ensures t.doing in Doings(e, t.pass.DedupePass?, t.before.at.(entries := t.plan.entries), t.before.locked, t.plan.actions,
                              NO_REPORT.(name := NameOf(t.pass)), t.before.profiles, t.after.at, t.report)
  {
    assert IsTrue(e, t, Planned) && IsTrue(e, t, Carried);
  }

  ghost predicate IsOf(t: Told, pass: Pass, now: int, before: Scene, after: Scene, report: PassReport) {
    t.pass == pass && t.plan.now == now && t.before == before && t.after == after && t.report == report
  }

  /** Nothing that was planned was left for want of time. */
  ghost predicate Finished(e: Terms, t: Told) {
    t.report.planned == |t.plan.actions| && t.doing in WholeDoings(t.plan.actions, e.dryRun)
  }

  /** Passes carried through, after which the engine has looked again where it must. */
  ghost function WholeDeeds(e: Terms): iset<Told> {
    iset t: Told | t in Deeds(e) && Finished(e, t) && LookedAgain(t)
  }

  lemma IsWhole(e: Terms, t: Told, later: Scene)
    requires t in Deeds(e) && Finished(e, t) && later.at == t.after.at && LookedAgain(t.(after := later))
    ensures t.(after := later) in Deeds(e) && t.(after := later) in WholeDeeds(e)
  {
    forall part ensures IsTrue(e, t.(after := later), part) {
      assert IsTrue(e, t, part);
    }
  }

  ghost predicate IsScene(e: Terms, x: Scene) {
    && x.seen.WellFormed() && x.at.fs.WellFormed() && DirsApart(x.locked)
    && Scanned(x.seen, x.locked, e.private, e.floors, x.scanned, x.profiles)
  }

  /** The engine looked again if a lossless pass applied anything, and else goes by what it saw before. */
  ghost predicate LookedAgain(t: Told) {
    !t.pass.OtherPass? ==>
      && t.after.locked == t.before.locked
      && (if t.report.applied > 0 then t.after.seen == t.after.at.fs
          else t.after.seen == t.before.seen && t.after.profiles == t.before.profiles && t.after.scanned == t.before.scanned)
  }

  lemma {:induction false} CompressionsAt(actions: seq<Action>, k: nat, x: Inode)
    requires k <= |actions|
    ensures x in Compressions(actions, k) <==> DoCompress(x) in actions[..k]
  {
    if k > 0 {
      CompressionsAt(actions, k - 1, x);
      assert actions[..k] == actions[..k - 1] + [actions[k - 1]];
    }
  }

  lemma {:induction false} NoneLaid(actions: seq<Action>, k: nat)
    requires k <= |actions| && AllReplaced(actions)
    ensures Compressions(actions, k) == []
  {
    if k > 0 {
      NoneLaid(actions, k - 1);
    }
  }
}
