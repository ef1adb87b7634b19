/** A whole run: guards, scans, rounds of passes under the locks taken once, removals, and the report
    (`run_with` in `src/engine.rs`). */
module Run {
  import opened Order
  import opened Paths
  import opened Files
  import opened Model
  import opened Preserve
  import opened Swap
  import opened Apply
  import opened Staging
  import opened Index
  import Dedupe
  import Compress
  import opened Scans
  import opened Truth
  import opened Removal
  import opened Reports
  import opened Guards
  import opened Concert
  import opened Passes
  import opened Rounds

  /** Rounds a run makes at most. */
  const MAX_ROUNDS: nat := 8

  /** No two files a build may read have one hash and different bytes. */
  ghost predicate NoCollision(h: Hasher, fs: Fs) {
    forall p, q :: fs.Has(p) && !IsTemp(p) && fs.Has(q) && !IsTemp(q) && h(fs.At(p).bytes) == h(fs.At(q).bytes) ==>
                     fs.At(p).bytes == fs.At(q).bytes
  }

  lemma MoreGone(c: Rules, a: Fs, s: Fs, gone: set<Path>, more: set<Path>)
    requires gone <= more && s in Steps(c, a, gone)
    ensures s in Steps(c, a, more)
  {
    forall p | !In(p, more) ensures !In(p, gone) {}
  }

  lemma MoreGoneHistory(c: Rules, a: Fs, states: seq<Fs>, from: nat, gone: set<Path>, more: set<Path>)
    requires gone <= more && states in Histories(from, c, a, gone)
    ensures states in Histories(from, c, a, more)
  {
    forall i | from <= i < |states| ensures Step(c, a, states[i], more) {
      MoreGone(c, a, states[i], gone, more);
    }
  }

  /** A stretch of a run under rules of its own, seen from where the run began. */
  lemma Stretch(c: Rules, d: Rules, a0: Fs, a: Fs, s: Fs, gone: set<Path>, states: seq<Fs>, more: seq<Fs>, from: nat)
    requires Within(d, c) && a in Steps(c, a0, gone) && states in Histories(from, c, a0, gone)
    requires s in Steps(d, a, {}) && Grown(states, more) && more in Histories(|states|, d, a, {})
    ensures s in Steps(c, a0, gone) && more in Histories(from, c, a0, gone)
  {
    MoreGone(d, a, s, {}, gone);
    StepWidens(d, c, a, s, gone);
    StepThenStep(c, a0, a, s, gone, gone);
    MoreGoneHistory(d, a, more, |states|, {}, gone);
    HistoryFromStart(more, |states|, d, c, a0, a, gone, gone);
    HistoryJoin(states, more, from, c, a0, gone);
  }

  /** Removing a temp of a locked unit. */
  lemma SweepStep(d: Rules, a: Fs, temp: Path)
    requires a.WellFormed() && temp in a.names && IsTemp(temp) && LockedIn(temp, d.locked)
    ensures a.Unlink(temp) in Steps(d, a, {})
  {
    UnlinkWellFormed(a, temp);
    UnlinkIsStable(a, a, d.exact, temp);
    var t := a.Unlink(temp);
    if d.kept {
      forall p | a.Has(p) && !IsTemp(p) && !In(p, {}) ensures t.Has(p) && SameFile(a.At(p), t.At(p), d.exact) {
        assert t.names[p] == a.names[p] && t.names[p] in t.nodes;
      }
    }
  }

  lemma UnlinkIsCurrent(a: Fs, temp: Path)
    requires a.WellFormed() && temp in a.names && IsTemp(temp)
    ensures Current(a, a.Unlink(temp))
  {
    var t := a.Unlink(temp);
    UnlinkWellFormed(a, temp);
    forall p | a.Has(p) && !IsTemp(p)
      ensures t.Has(p) && t.names[p] == a.names[p] && StampOf(t.names[p], t.At(p)) == StampOf(a.names[p], a.At(p))
    {
      assert t.names[p] in t.nodes;
    }
  }

  /** Removing a dir, in whole or in part. */
  lemma PruneStep(d: Rules, a: Fs, s: Fs, dir: Path)
    requires a.WellFormed() && s.WellFormed() && Pruned(a, s, dir) && !d.kept
    ensures s in Steps(d, a, {dir})
  {
    forall p | !In(p, {dir}) ensures !Under(p, dir) {
      assert Under(p, dir) ==> dir in {dir} && In(p, {dir});
    }
  }

  lemma PruneHistory(d: Rules, a: Fs, states: seq<Fs>, from: nat, dir: Path)
    requires a.WellFormed() && !d.kept
    requires forall i :: from <= i < |states| ==> Pruned(a, states[i], dir) && states[i].WellFormed()
    ensures states in Histories(from, d, a, {dir})
  {
    forall i | from <= i < |states| ensures Step(d, a, states[i], {dir}) {
      PruneStep(d, a, states[i], dir);
    }
  }

  lemma PruneStretch(c: Rules, a0: Fs, a: Fs, s: Fs, gone: set<Path>, dir: Path, states: seq<Fs>, more: seq<Fs>, from: nat)
    requires !c.kept && a in Steps(c, a0, gone) && states in Histories(from, c, a0, gone)
    requires s.WellFormed() && Pruned(a, s, dir) && Grown(states, more)
    requires forall i :: |states| <= i < |more| ==> Pruned(a, more[i], dir) && more[i].WellFormed()
    ensures s in Steps(c, a0, gone + {dir}) && more in Histories(from, c, a0, gone + {dir})
  {
    var all := gone + {dir};
    PruneStep(c, a, s, dir);
    MoreGone(c, a, s, {dir}, all);
    StepThenStep(c, a0, a, s, gone, all);
    PruneHistory(c, a, more, |states|, dir);
    MoreGoneHistory(c, a, more, |states|, {dir}, all);
    HistoryFromStart(more, |states|, c, c, a0, a, gone, all);
    MoreGoneHistory(c, a0, states, from, gone, all);
    HistoryJoin(states, more, from, c, a0, all);
  }

  /** What compressed groups became, seen from where the run began. */
  lemma AfterLived(states: seq<Fs>, later: nat, begin: nat, locked: seq<Path>, outcomes: seq<Outcome>)
    requires states in Reasons(later, locked, outcomes) && begin <= later
    ensures forall o :: o in outcomes && o.Compressed? ==> Lived(states, begin, o.after.stamp)
  {
    forall o | o in outcomes && o.Compressed? ensures Lived(states, begin, o.after.stamp) {
      assert Grounded(states, later, locked, o);
      var k :| later <= k < |states| && Live(states[k], o.after.stamp);
    }
  }

  /** The state the scans are of is one the disk was in. */
  ghost predicate WasSeen(states: seq<Fs>, begin: nat, seen: Fs) {
    exists k :: begin <= k < |states| && states[k] == seen
  }

  lemma TrustLasts(known: Entries, m: Entries, states: seq<Fs>, more: seq<Fs>, begin: nat, seen: Fs)
    requires m in Datings(known, states, begin) && WasSeen(states, begin, seen) && Grown(states, more)
    ensures m in Datings(known, more, begin) && WasSeen(more, begin, seen)
  {
    DatedOn(known, m, states, more, begin);
    var k :| begin <= k < |states| && states[k] == seen;
    assert more[k] == seen;
  }

  lemma RetoldDated(known: Entries, m: Entries, r: Replace, fs: Fs, states: seq<Fs>, begin: nat, now: nat)
    requires m in Datings(known, states, begin) && begin < |states| && states in EndingIn(fs)
    requires r.member.paths != [] && fs.Has(r.member.paths[0]) && fs.WellFormed()
    ensures Retold(m, r, fs, now) in Datings(known, states, begin)
  {
    assert Live(states[|states| - 1], NewStamp(fs, r));
    PutDated(known, m, Retold(m, r, fs, now), states, begin, NewStamp(fs, r));
  }

  /** What a pass may be told to replace. */
  ghost predicate Vouching(c: Rules, h: Hasher, seen: Fs, m: Entries, replace: Replace) {
    && (c.exact ==> replace.how.Clone?)
    && (c.kept ==> Vouched(seen, replace) && Right(h, m, seen, replace.sourceStamp.id))
  }

  /** A record that a pass may be told to compress. */
  ghost predicate Scanned1(c: Rules, seen: Fs, inode: Inode) {
    (forall p :: p in inode.paths ==> !IsTemp(p)) && (c.kept ==> Describes(seen, inode))
  }

  /** What a pass may be let do: with lossless passes alone, nothing but what the scan vouches for. */
  ghost predicate May(c: Rules, h: Hasher, seen: Fs, m: Entries, action: Action) {
    match action
    case DoReplace(replace) => Vouching(c, h, seen, m, replace)
    case DoCompress(inode) => Scanned1(c, seen, inode)
    case _ => !c.kept
  }

  ghost function DutiesBy(c: Rules, h: Hasher, seen: Fs, m: Entries): iset<seq<Action>> {
    iset actions: seq<Action> | forall i :: 0 <= i < |actions| ==> May(c, h, seen, m, actions[i])
  }

  lemma AllMay(c: Rules, h: Hasher, seen: Fs, m: Entries, actions: seq<Action>)
    requires forall i :: 0 <= i < |actions| ==> May(c, h, seen, m, actions[i])
    ensures actions in DutiesBy(c, h, seen, m)
  {}

  lemma ReplacesMayBe(c: Rules, h: Hasher, seen: Fs, m: Entries, planned: seq<Replace>, actions: seq<Action>)
    requires (forall r :: r in planned ==> Vouching(c, h, seen, m, r)) && Are(actions, planned)
    ensures actions in DutiesBy(c, h, seen, m)
  {
    forall i | 0 <= i < |actions| ensures May(c, h, seen, m, actions[i]) {
      assert planned[i] in planned;
    }
  }

  lemma GroupsMayBe(c: Rules, h: Hasher, seen: Fs, m: Entries, planned: seq<Inode>, actions: seq<Action>)
    requires forall x :: x in planned ==> Scanned1(c, seen, x)
    requires |actions| == |planned| && forall i :: 0 <= i < |actions| ==> actions[i] == DoCompress(planned[i])
    ensures actions in DutiesBy(c, h, seen, m)
    ensures forall x :: DoCompress(x) in actions <==> x in planned
  {
    forall i | 0 <= i < |actions| ensures May(c, h, seen, m, actions[i]) {
      assert planned[i] in planned;
    }
    forall x ensures DoCompress(x) in actions <==> x in planned {
      if x in planned {
        var i :| 0 <= i < |planned| && planned[i] == x;
        assert actions[i] == DoCompress(x);
      }
    }
  }

  lemma StillDuties(c: Rules, h: Hasher, seen: Fs, m: Entries, n: Entries, actions: seq<Action>)
    requires actions in DutiesBy(c, h, seen, m) && (c.kept ==> forall id :: Right(h, m, seen, id) ==> Right(h, n, seen, id))
    ensures actions in DutiesBy(c, h, seen, n)
  {
    forall i | 0 <= i < |actions| ensures May(c, h, seen, n, actions[i]) {
      assert May(c, h, seen, m, actions[i]);
    }
  }

  /** The removals a run may have made so far. */
  ghost predicate OnRecord(units: seq<Path>, was: Taken, c: Rules, locked: seq<Path>, busy: seq<Path>, unsure: seq<Path>, gone: set<Path>,
                           removals: seq<Removed>) {
    && gone == Dirs(removals)
    && Grew(was.unsure, unsure) && Grew(was.busy, busy) && (forall u :: u in busy ==> u in was.busy || u in c.locked)
    && (forall r :: r in removals ==>
          && Allowed(units, r) && Grew(was.unsure, r.unsure) && Grew(was.busy, r.busy) && Grew(r.locked, c.locked)
          && Grew(r.unsure, unsure) && Grew(r.busy, busy) && Grew(locked, r.locked))
    && InTurn(removals)
  }

  ghost function Records(units: seq<Path>, was: Taken, c: Rules, locked: seq<Path>, busy: seq<Path>, unsure: seq<Path>, gone: set<Path>):
    iset<seq<Removed>>
  {
    iset removals: seq<Removed> | OnRecord(units, was, c, locked, busy, unsure, gone, removals)
  }

  /** The state of `run_with`. */
  class Engine {
    const disk: Disk
    const index: Index.HashIndex
    const opts: Options
    const private: Component -> bool
    const floors: seq<(Path, nat)>
    var locked: seq<Path>
    var busy: seq<Path>
    var unsure: seq<Path>
    var profiles: seq<Profile>
    const h: Hasher
    ghost const units: seq<Path>
    /** The rules of the whole run, and the state, history and index it began with. */
    ghost const c: Rules
    ghost const start: Fs
    ghost const from: nat
    ghost const known: Entries
    ghost const was: Taken
    /** The state the profiles are scans of. */
    ghost var seen: Fs
    ghost var gone: set<Path>
    ghost var removals: seq<Removed>

    /** A run that has its guards and has not looked at a file yet. */
    constructor (disk: Disk, index: Index.HashIndex, opts: Options, private: Component -> bool, taken: Taken,
                 h: Hasher, ghost units: seq<Path>, ghost exact: bool, ghost kept: bool)
      requires disk.Valid()
      ensures this.disk == disk && this.index == index && this.opts == opts && this.private == private
      ensures floors == taken.floors && locked == taken.locked && busy == taken.busy && unsure == taken.unsure && profiles == []
      ensures this.h == h && this.units == units && was == taken && c == Rules(taken.locked, disk.pid, disk.serial, exact, kept)
      ensures start == disk.fs && from == |disk.states| && known == index.entries
      ensures seen == disk.fs && gone == {} && removals == []
    {
      this.disk, this.index, this.opts, this.private, this.floors := disk, index, opts, private, taken.floors;
      this.locked, this.busy, this.unsure, this.profiles := taken.locked, taken.busy, taken.unsure, [];
      this.h, this.units, this.was, this.c := h, units, taken, Rules(taken.locked, disk.pid, disk.serial, exact, kept);
      this.start, this.from, this.known := disk.fs, |disk.states|, index.entries;
      this.seen, this.gone, this.removals := disk.fs, {}, [];
    }

    /** Every state of the disk since the run began is one the rules allow. */
    ghost predicate OnDisk()
      reads this, disk
    {
      && disk.Valid() && c.pid == disk.pid && c.lo <= disk.serial
      && disk.fs in Steps(c, start, gone) && disk.states in Histories(from, c, start, gone) && 0 < from <= |disk.states|
    }

    /** The locked units are units the run began with, and every other one is busy. */
    ghost predicate Holding()
      reads this
    {
      && DirsApart(units) && DirsApart(locked)
      && Grew(locked, c.locked) && Grew(c.locked, units)
      && (forall u :: u in units ==> u in c.locked || u in busy)
    }

    /** The run may work in its units. */
    ghost predicate InPlace()
      reads this, disk
    {
      Holding() && (opts.dryRun || Workable(disk.fs, locked, disk.pid, disk.serial))
    }

    /** Which of the disk's states the run began in. */
    ghost function First(): nat {
      if from == 0 then 0 else from - 1
    }

    /** If only lossless passes run, nothing is gone and the index is right, and it knows only versions of files that there were. */
    ghost predicate Trusted()
      reads this, disk, index
    {
      && seen.WellFormed()
      && (c.kept ==>
            && gone == {} && Knows(h, index.entries, seen, disk.fs) && Kept(start, seen, {}, false)
            && index.entries in Datings(known, disk.states, First()) && WasSeen(disk.states, First(), seen))
    }

    ghost predicate Recorded()
      reads this
    {
      removals in Records(units, was, c, locked, busy, unsure, gone)
    }

    ghost function Here(): Point
      reads disk, index
    {
      Point(disk.fs, disk.serial, index.entries)
    }

    /** What the next pass finds, by scans made at `scanned`. */
    ghost function View(scanned: int): Scene
      reads this, disk, index
    {
      Scene(Here(), seen, locked, profiles, scanned)
    }

    ghost function TermsOf(passes: seq<Pass>): Terms
      reads index
    {
      Terms(private, floors, disk.pid, disk.faulty, opts.dryRun, h, index.now, c.exact, c.kept, Tells(passes))
    }

    /** What a pass may be told to replace. */
    ghost predicate Vouches(replace: Replace)
      reads this, index
    {
      Vouching(c, h, seen, index.entries, replace)
    }

    /** The rules of what is done next. */
    ghost function Now(exact: bool): Rules
      reads this, disk
    {
      Rules(locked, disk.pid, disk.serial, exact || c.exact, c.kept)
    }

    lemma NowWithin(exact: bool)
      requires OnDisk() && Holding()
      ensures Within(Now(exact), c)
    {
      forall p | LockedIn(p, locked) ensures LockedIn(p, c.locked) {
        var i :| 0 <= i < |locked| && Under(p, locked[i]);
        assert locked[i] in c.locked;
      }
    }

    /** One replacement on the disk. */
    method ReplaceOnDisk(replace: Replace) returns (skip: Option<Skip>, ghost g: Goal)
      requires OnDisk() && InPlace() && Trusted() && !opts.dryRun && Vouches(replace)
      modifies disk`fs, disk`states, disk`serial
      ensures OnDisk() && InPlace() && Trusted()
      ensures Trial(Here(), g, skip) in Trials(old(Here()), replace, locked, disk.pid, index.now, false, disk.faulty)
    {
      ghost var a, states, m := disk.fs, disk.states, index.entries;
      ghost var d := Now(false);
      NowWithin(false);
      skip, g := ApplyReplace(disk, replace, locked, seen, d);
      Stretch(c, d, start, a, disk.fs, gone, states, disk.states, from);
      if c.kept {
        KnowsAfterReplace(h, m, seen, a, replace, locked, disk.pid, d.lo, disk.serial, disk.fs, g, skip);
        TrustLasts(known, m, states, disk.states, First(), seen);
      }
    }

    /** The pass told of a replacement. */
    method TellReplaced(replace: Replace, stamp: Stamp, ghost a: Fs, ghost lo: nat, ghost g: Goal)
      requires Trusted() && OnDisk() && replace.member.paths != [] && disk.fs.Has(replace.member.paths[0])
      requires stamp == NewStamp(disk.fs, replace)
      requires ReplaceOutcome(a, replace, locked, disk.pid, lo, disk.serial, disk.fs, g, None)
      requires c.kept ==> Vouched(seen, replace) && Knows(h, index.entries, seen, a)
      modifies index`entries
      ensures Trusted() && index.entries == Retold(old(index.entries), replace, disk.fs, index.now)
      ensures c.kept ==> forall id :: Right(h, old(index.entries), seen, id) ==> Right(h, index.entries, seen, id)
    {
      ghost var m := index.entries;
      if c.kept {
        KnowsReplaced(h, m, seen, a, replace, locked, disk.pid, lo, disk.serial, disk.fs, g, stamp, index.now);
        RetoldDated(known, m, replace, disk.fs, disk.states, First(), index.now);
      }
      Dedupe.Replaced(index, replace, stamp);
    }

    /** One replacement, and the pass told of it. */
    method ReplaceOne(replace: Replace, tell: bool) returns (r: Io<Option<Skip>>, ghost g: Goal)
      requires OnDisk() && InPlace() && Trusted() && !opts.dryRun && Vouches(replace)
      modifies disk`fs, disk`states, disk`serial, index`entries
      ensures OnDisk() && InPlace() && Trusted()
      ensures c.kept ==> forall id :: Right(h, old(index.entries), seen, id) ==> Right(h, index.entries, seen, id)
      ensures r.Done? ==> Trial(Here(), g, r.value) in Trials(old(Here()), replace, locked, disk.pid, index.now, tell, disk.faulty)
    {
      ghost var a, lo := disk.fs, disk.serial;
      var skip;
      skip, g := ReplaceOnDisk(replace);
      if skip.Some? {
        return Done(skip), g;
      }
      var stamp := ReadStamp(disk, replace.member.paths[0]);
      if stamp.Fail? {
        return Fail(stamp.error), g;
      }
      if tell {
        TellReplaced(replace, stamp.value, a, lo, g);
      }
      return Done(None), g;
    }

    /** What is known of the outcome for a group: the scan's record, and if it was compressed, a new file with its bytes. */
    ghost predicate Vouched1(o: Outcome, fs: Fs, states: seq<Fs>)
      reads this
    {
      c.kept ==>
        && Describes(seen, o.member)
        && (o.Compressed? ==>
              && Lived(states, First(), o.after.stamp)
              && o.after.stamp.id !in seen.ever && o.after.stamp.id in fs.ever
              && (o.after.stamp.id in fs.nodes ==> fs.nodes[o.after.stamp.id].bytes == seen.nodes[o.member.stamp.id].bytes))
    }

    /** The index once the first `k` passes were told that a group's content has moved: told twice is told once. */
    function Moved(m: Entries, passes: seq<Pass>, k: nat, o: Outcome): Entries
      requires o.Compressed? && k <= |passes|
      reads this, index
    {
      if Tells(passes[..k]) then RewrittenIn(m, o.member.stamp, o.after.stamp, index.now) else m
    }

    /** Every pass that keeps an index is told where the content of compressed groups is now. */
    method TellRewritten(passes: seq<Pass>, o: Outcome)
      requires Trusted() && o.Compressed? && Vouched1(o, disk.fs, disk.states)
      modifies index`entries
      ensures Trusted()
      ensures o.member.stamp.id != o.after.stamp.id ==> index.entries == Moved(old(index.entries), passes, |passes|, o)
    {
      for i := 0 to |passes|
        invariant Trusted()
        invariant o.member.stamp.id != o.after.stamp.id ==> index.entries == Moved(old(index.entries), passes, i, o)
      {
        TellsOneMore(passes, i);
        if passes[i].DedupePass? {
          if c.kept {
            KnowsRewritten(h, index.entries, seen, disk.fs, o.member.stamp, o.after.stamp, index.now);
            PutDated(known, index.entries, RewrittenIn(index.entries, o.member.stamp, o.after.stamp, index.now), disk.states, First(),
                     o.after.stamp);
          }
          Dedupe.Rewritten(index, o.member.stamp, o.after.stamp);
        }
      }
    }

    /** One outcome, told to the passes and accounted for. */
    method AccountNext(o: Outcome, passes: seq<Pass>, report: PassReport) returns (more: PassReport)
      requires Trusted() && Vouched1(o, disk.fs, disk.states)
      modifies index`entries
      ensures Trusted() && more == Account1(report, o)
      ensures c.kept ==> index.entries == if o.Compressed? && Tells(passes)
                                          then RewrittenIn(old(index.entries), o.member.stamp, o.after.stamp, index.now)
                                          else old(index.entries)
    {
      if o.Compressed? {
        assert passes[..|passes|] == passes;
        TellRewritten(passes, o);
      }
      more := Account1(report, o);
    }

    /** The outcomes of a batch, told to the passes and accounted for. */
    method AccountFor(outcomes: seq<Outcome>, passes: seq<Pass>, report: PassReport) returns (more: PassReport)
      requires Trusted() && forall o :: o in outcomes ==> Vouched1(o, disk.fs, disk.states)
      modifies index`entries
      ensures Trusted()
      ensures more == AccountAll(report, outcomes, |outcomes|)
      ensures c.kept ==> index.entries == MovedAll(old(index.entries), outcomes, Tells(passes), index.now)
    {
      more := report;
      for i := 0 to |outcomes|
        invariant Trusted() && more == AccountAll(report, outcomes, i)
        invariant c.kept ==> index.entries == MovedAll(old(index.entries), outcomes[..i], Tells(passes), index.now)
      {
        assert outcomes[..i + 1][..i] == outcomes[..i];
        more := AccountNext(outcomes[i], passes, more);
      }
      assert outcomes[..|outcomes|] == outcomes;
    }

    /** One batch of groups on the disk. */
    method CompressOnDisk(batch: seq<Inode>) returns (outcomes: seq<Outcome>)
      requires OnDisk() && InPlace() && Trusted() && !opts.dryRun
      requires Staging.Planned(seen, disk.fs, batch, c.kept)
      modifies disk`fs, disk`states, disk`serial
      ensures OnDisk() && InPlace() && Trusted()
      ensures multiset(Answered(outcomes)) == multiset(batch)
      ensures forall o :: o in outcomes ==> Vouched1(o, disk.fs, disk.states)
      ensures forall o :: o in outcomes && o.Compressed? ==> o.after.stamp.id !in old(disk.fs).ever
      ensures disk.fs in Steps(old(Now(true)), old(disk.fs), {})
      ensures disk.fs in Presses(old(disk.fs), Moving(outcomes, disk.faulty)) && GroupsGone(old(disk.fs), disk.fs, outcomes, true)
      ensures disk.states in Reasons(|old(disk.states)| - 1, locked, outcomes)
    {
      ghost var a, states := disk.fs, disk.states;
      ghost var d := Now(true);
      NowWithin(true);
      outcomes := ApplyCompress(disk, batch, locked, d, seen);
      Stretch(c, d, start, a, disk.fs, gone, states, disk.states, from);
      if c.kept {
        KnowsAfterExact(h, index.entries, seen, a, disk.fs);
        TrustLasts(known, index.entries, states, disk.states, First(), seen);
        AfterLived(disk.states, |states| - 1, First(), locked, outcomes);
      }
    }

    /** One batch of groups compressed, every group accounted for. */
    method CompressBatch(batch: seq<Inode>, passes: seq<Pass>, report: PassReport) returns (more: PassReport, ghost b: Batch)
      requires OnDisk() && InPlace() && Trusted() && !opts.dryRun
      requires Staging.Planned(seen, disk.fs, batch, c.kept)
      modifies disk`fs, disk`states, disk`serial, index`entries
      ensures OnDisk() && InPlace() && Trusted()
      ensures Advanced(report, more, |batch|, Blocks(batch))
      ensures b.groups == batch && b.before == old(Here()) && b.after == Here() && Pressing(TermsOf(passes), locked, b)
      ensures more == AccountAll(report, b.outcomes, |b.outcomes|)
      ensures disk.states in Reasons(|old(disk.states)| - 1, locked, b.outcomes)
    {
      ghost var x := Here();
      var found := CompressOnDisk(batch);
      AnsweredAll(found, batch);
      more := AccountFor(found, passes, report);
      AccountAdvances(report, found, |found|);
      assert Answered(found)[..|found|] == Answered(found);
      b := Batch(batch, found, x, Here());
    }

    /** Deletes `dir` whole unless the caller refused it; what is gone is not worked on any longer: `remove`. */
    method RemoveDir(dir: Path, refused: Option<Skip>, ghost whole: bool) returns (skip: Option<Skip>)
      requires OnDisk() && InPlace() && Trusted() && Recorded() && !opts.dryRun && !c.kept
      requires refused.None? ==> Allowed(units, Removed(dir, whole, locked, busy, unsure))
      modifies disk`fs, disk`states, this`locked, this`gone, this`removals
      ensures OnDisk() && InPlace() && Trusted() && Recorded()
      ensures refused.Some? ==> skip == refused && disk.fs == old(disk.fs) && locked == old(locked) && removals == old(removals)
      ensures refused.None? && skip.Some? ==> FromDisk(skip)
      ensures refused.None? ==> removals == old(removals) + [Removed(dir, whole, old(locked), busy, unsure)]
      ensures refused.None? ==> locked == if skip.None? then Without(old(locked), dir) else old(locked)
      ensures skip.None? ==> forall p :: p in disk.fs.names ==> !Under(p, dir)
    {
      if refused.Some? {
        return refused;
      }
      var done := Prune(dir, whole);
      if done.Fail? {
        return Some(FailedAs(done.error));
      }
      WithoutAt(locked, dir);
      FewerWorkable(disk.fs, disk.fs, locked, Without(locked, dir), disk.pid, disk.serial);
      locked := Without(locked, dir);
      return None;
    }

    /** The removal on the disk, and the record of it. */
    method Prune(dir: Path, ghost whole: bool) returns (done: Io<()>)
      requires OnDisk() && InPlace() && Trusted() && Recorded() && !opts.dryRun && !c.kept
      requires Allowed(units, Removed(dir, whole, locked, busy, unsure))
      modifies disk`fs, disk`states, this`gone, this`removals
      ensures OnDisk() && InPlace() && Trusted() && Recorded()
      ensures removals == old(removals) + [Removed(dir, whole, locked, busy, unsure)]
      ensures done.Done? ==> forall p :: p in disk.fs.names ==> !Under(p, dir)
    {
      ghost var a, states := disk.fs, disk.states;
      done := disk.RemoveDirAll(dir);
      PruneStretch(c, start, a, disk.fs, gone, dir, states, disk.states, from);
      FewerWorkable(a, disk.fs, locked, locked, disk.pid, disk.serial);
      gone := gone + {dir};
      removals := removals + [Removed(dir, whole, locked, busy, unsure)];
    }

    /** The scans of all locked units, as the next pass sees them. */
    method Rescan(now: int) returns (r: Io<()>)
      requires OnDisk() && Holding() && Trusted() && Recorded()
      modifies this`profiles, this`unsure, this`seen
      ensures OnDisk() && Holding() && Trusted() && Recorded()
      ensures Grew(old(unsure), unsure)
      ensures r.Done? ==> seen == disk.fs && Scanned(seen, locked, private, floors, now, profiles)
      ensures r.Done? ==> forall u :: u in locked && HasYoung(disk.fs, u, private, FloorFor(floors, u), now) ==> u in unsure
      ensures r.Fail? ==> seen == old(seen) && profiles == old(profiles)
    {
      var found;
      found, unsure := ScanAll(disk, locked, private, floors, unsure, now);
      if found.Fail? {
        return Fail(found.error);
      }
      profiles := found.value;
      if c.kept {
        assert WasSeen(disk.states, First(), disk.fs) by {
          assert disk.states[|disk.states| - 1] == disk.fs;
        }
        KnowsScanned(h, index.entries, seen, disk.fs);
        KeptTransitive(start, seen, disk.fs, {}, {}, false);
      }
      seen := disk.fs;
      return Done(());
    }

    ghost predicate Compressible(inode: Inode)
      reads this
    {
      Scanned1(c, seen, inode)
    }

    /** Plans of which every action may be done. */
    ghost function Duties(): iset<seq<Action>>
      reads this, index
    {
      DutiesBy(c, h, seen, index.entries)
    }

    /** A pass whose plan the run can vouch for as far as its rules promise. */
    ghost predicate Fits(pass: Pass)
      reads this
    {
      && (pass.OtherPass? ==> !c.kept && !c.exact)
      && (c.exact && pass.DedupePass? ==> !pass.config.linkFallback)
    }

    method PlanDedupe(config: Dedupe.Config, ghost scanned: int) returns (planned: seq<Replace>, ghost asked: seq<Dedupe.Candidate>)
      requires OnDisk() && InPlace() && Trusted() && Scanned(seen, locked, private, floors, scanned, profiles)
      requires c.exact ==> !config.linkFallback
      requires c.kept ==> NoCollision(h, start)
      modifies index`entries
      ensures Trusted() && forall r :: r in planned ==> Vouches(r)
      ensures c.kept ==> forall r :: r in planned <==>
                Dedupe.Wanted(seen, old(index.entries), Dedupe.Candidates(config, profiles), Dedupe.Unread(index.entries, asked), r)
      ensures Dedupe.NoSharedMember(planned) && Dedupe.NoClash(planned)
      ensures Dedupe.Learned(h, disk.fs, old(index.entries), index.entries, asked)
      ensures forall z :: z in asked <==> z in Dedupe.Candidates(config, profiles) && Dedupe.HasTwin(Dedupe.Candidates(config, profiles), z)
      ensures !disk.faulty ==> forall z :: z in asked && z.inode.paths != [] && z.inode.paths[0] in disk.fs.names ==> Hits(index.entries, z.inode.stamp)
    {
      ghost var all := Dedupe.Candidates(config, profiles);
      ScansSeparate(seen, config, private, locked, floors, scanned, profiles);
      ghost var m := index.entries;
      var hashed;
      planned, hashed, asked := Dedupe.Plan(config, profiles, index, disk, h, seen);
      if c.kept {
        ScansPicture(seen, disk.fs, config, private, locked, floors, scanned, profiles, false);
        ScansCollisionFree(h, start, seen, config, private, locked, floors, scanned, profiles);
        KnowsLearned(h, m, index.entries, seen, disk.fs, asked);
        ghost var k :| First() <= k < |disk.states| && disk.states[k] == seen;
        LearnedDated(h, known, m, index.entries, seen, disk.fs, asked, disk.states, First(), k);
        forall r | r in planned ensures Vouched(seen, r) && Right(h, index.entries, seen, r.sourceStamp.id) {
          var x := WantedIsVouched(seen, disk.fs, m, index.entries, all, asked, r);
        }
      }
      forall r | r in planned && c.exact ensures r.how.Clone? {
        ProperShares(seen, config, private, locked, all, r);
      }
    }

    method PlanCompress(setting: Compress.Setting, now: int, ghost scanned: int) returns (planned: seq<Inode>)
      requires Trusted() && Scanned(seen, locked, private, floors, scanned, profiles)
      modifies index`entries
      ensures Trusted() && forall inode :: inode in planned ==> Compressible(inode)
      ensures Compress.SameEntries(old(index.entries), index.entries)
      ensures forall inode :: inode in planned <==> Compress.Planned(setting, old(index.entries), profiles, now, inode)
    {
      ghost var m := index.entries;
      planned := Compress.Plan(setting, profiles, index, now);
      if c.kept {
        KnowsSame(h, m, index.entries, seen, disk.fs);
        SameDated(known, m, index.entries, disk.states, First());
      }
      forall inode | inode in planned ensures Compressible(inode) {
        PlannedIsScanned(seen, setting, m, private, locked, floors, scanned, profiles, now, inode);
      }
    }

    /** `pass.plan(&profiles)`. What any other pass plans is its own affair, but it compresses scanned files only. */
    method PlanPass(pass: Pass, now: int, ghost scanned: int, ghost passes: seq<Pass>) returns (actions: seq<Action>, ghost w: Plan)
      requires OnDisk() && InPlace() && Trusted() && Scanned(seen, locked, private, floors, scanned, profiles)
      requires Fits(pass) && (c.kept ==> NoCollision(h, start))
      modifies index`entries
      ensures Trusted() && actions in Duties() && IsKind(pass, actions)
      ensures w.now == now && w.actions == actions && w.entries == index.entries && w in Plans(TermsOf(passes), pass, old(View(scanned)))
    {
      match pass {
        case DedupePass(config) =>
          var planned;
          ghost var asked;
          planned, asked := PlanDedupe(config.(now := now), scanned);
          actions := seq(|planned|, i requires 0 <= i < |planned| => DoReplace(planned[i]));
          ReplacesMayBe(c, h, seen, index.entries, planned, actions);
          w := Plan(now, actions, planned, asked, index.entries);
        case CompressPass(setting) =>
          var planned := PlanCompress(setting, now, scanned);
          actions := seq(|planned|, i requires 0 <= i < |planned| => DoCompress(planned[i]));
          GroupsMayBe(c, h, seen, index.entries, planned, actions);
          w := Plan(now, actions, [], [], index.entries);
        case OtherPass(_, _) =>
          actions := PlanOther();
          w := Plan(now, actions, [], [], index.entries);
      }
    }

    /** Whatever a pass plans that is neither dedupe nor compress. */
    method PlanOther() returns (actions: seq<Action>)
      requires !c.kept && !c.exact
      ensures actions in Duties()
    {
      actions := *;
      if exists i, p :: 0 <= i < |actions| && actions[i].DoCompress? && p in actions[i].inode.paths && IsTemp(p) {
        actions := [];
      }
      forall i | 0 <= i < |actions| ensures May(c, h, seen, index.entries, actions[i]) {
        if actions[i].DoCompress? {
          forall p | p in actions[i].inode.paths ensures !IsTemp(p) {}
        }
      }
      AllMay(c, h, seen, index.entries, actions);
    }

    /** Why a removal is not even tried. */
    function Refusal(action: Action): Option<Skip>
      reads this
    {
      match action
      case Remove(dir, _) => RemoveRefusal(dir, locked, unsure)
      case RemoveTarget(target, dir, _, _) => TargetRefusal(target, dir, locked, busy, unsure)
      case _ => None
    }

    /** A removal is let through only where it spares what it must. */
    lemma RefusalSpares(action: Action)
      requires Holding() && (action.Remove? || action.RemoveTarget?) && Refusal(action).None?
      ensures Allowed(units, Removed(action.dir, action.RemoveTarget?, locked, busy, unsure))
    {
      if action.Remove? {
        RemovalAllowed(units, action.dir, locked, busy, unsure);
      } else {
        TargetRemovalAllowed(units, action.target, action.dir, locked, busy, unsure);
      }
    }

    /** A removal tried, unless a rule refuses it. */
    method TryRemoval(action: Action) returns (skip: Option<Skip>)
      requires OnDisk() && InPlace() && Trusted() && Recorded() && !opts.dryRun && !c.kept
      requires action.Remove? || action.RemoveTarget?
      modifies disk`fs, disk`states, this`locked, this`gone, this`removals
      ensures OnDisk() && InPlace() && Trusted() && Recorded() && Grew(locked, old(locked))
      ensures old(Refusal(action)).Some? ==>
                skip == old(Refusal(action)) && disk.fs == old(disk.fs) && locked == old(locked) && removals == old(removals)
      ensures old(Refusal(action)).None? ==>
                (skip.None? || FromDisk(skip)) && removals == old(removals) + [Removed(action.dir, action.RemoveTarget?, old(locked), busy, unsure)]
      ensures |removals| > |old(removals)| <==>
                if action.Remove? then MayRemove(action.dir, old(locked), unsure)
                else MayRemoveOf(action.target, action.dir, old(locked), busy, unsure)
      ensures skip.None? ==> locked == Without(old(locked), action.dir) && forall p :: p in disk.fs.names ==> !Under(p, action.dir)
    {
      var refused := Refusal(action);
      RefusedExactly(if action.Remove? then [] else action.target, action.dir, locked, busy, unsure);
      if refused.None? {
        RefusalSpares(action);
      }
      WithoutAt(locked, action.dir);
      skip := RemoveDir(action.dir, refused, action.RemoveTarget?);
    }

    /** One action, or a group laid aside for a batch. On a dry run it is only counted. */
    method DoAction(action: Action, tell: bool, report: PassReport, toCompress: seq<Inode>)
      returns (r: Io<()>, more: PassReport, aside: seq<Inode>, ghost skip: Option<Skip>, ghost g: Goal)
      requires OnDisk() && InPlace() && Trusted() && Recorded() && May(c, h, seen, index.entries, action)
      modifies disk`fs, disk`states, disk`serial, index`entries, this`locked, this`gone, this`removals
      ensures OnDisk() && InPlace() && Trusted() && Recorded()
      ensures aside == Aside(toCompress, action, opts.dryRun)
      ensures c.kept ==> forall id :: Right(h, old(index.entries), seen, id) ==> Right(h, index.entries, seen, id)
      ensures opts.dryRun || !(action.Remove? || action.RemoveTarget?) ==> locked == old(locked) && removals == old(removals)
      ensures opts.dryRun || action.DoCompress? ==> disk.fs == old(disk.fs) && disk.states == old(disk.states) && Here() == old(Here())
      ensures old(removals) <= removals && Grew(locked, old(locked))
      ensures r.Done? ==> more == Counted(report, action, skip, BytesOf(action, profiles), opts.dryRun)
      ensures r.Done? && !opts.dryRun && action.DoReplace? ==>
                Trial(Here(), g, skip) in Trials(old(Here()), action.replace, locked, disk.pid, index.now, tell, disk.faulty)
      ensures r.Done? && !opts.dryRun && (action.Remove? || action.RemoveTarget?) ==>
                && (skip.None? ==> forall p :: p in disk.fs.names ==> !Under(p, action.dir))
                && (if old(Refusal(action)).Some? then skip == old(Refusal(action)) && removals == old(removals)
                    else (skip.None? || FromDisk(skip)) && |removals| == |old(removals)| + 1)
    {
      g := Goal([], FileId(0, 0), [], 0, 0, false, false);
      aside, skip := toCompress, None;
      var bytes := BytesOf(action, profiles);
      more := Entered(report, action, bytes);
      r := Done(());
      if opts.dryRun {
        return;
      }
      match action {
        case DoCompress(inode) =>
          aside := toCompress + [inode];
        case DoReplace(replace) =>
          var outcome;
          outcome, g := ReplaceOne(replace, tell);
          if outcome.Fail? {
            r := Fail(outcome.error);
            return;
          }
          skip := outcome.value;
          more := Closed(more, action, outcome.value, bytes);
        case _ =>
          var outcome := TryRemoval(action);
          skip := outcome;
          more := Closed(more, action, outcome, bytes);
      }
    }

    /** `interrupt.due()`: the clock and the caller's flag are not part of the model. */
    method Due() returns (why: Option<Interrupted>)
    {
      why := *;
    }

    /** The next action, and what came of it noted down. */
    method TryNoted(actions: seq<Action>, k: nat, tell: bool, start: PassReport, report: PassReport, toCompress: seq<Inode>,
                    ghost skips: seq<Option<Skip>>)
      returns (r: Io<()>, more: PassReport, aside: seq<Inode>, ghost skip: Option<Skip>, ghost g: Goal)
      requires OnDisk() && InPlace() && Trusted() && Recorded() && |skips| == k < |actions| && actions in Duties()
      requires skips in Tallies(start, actions, profiles, opts.dryRun, report, toCompress)
      modifies disk`fs, disk`states, disk`serial, index`entries, this`locked, this`gone, this`removals
      ensures OnDisk() && InPlace() && Trusted() && Recorded() && actions in Duties()
      ensures opts.dryRun || !(actions[k].Remove? || actions[k].RemoveTarget?) ==> locked == old(locked) && removals == old(removals)
      ensures opts.dryRun || actions[k].DoCompress? ==> disk.fs == old(disk.fs) && disk.states == old(disk.states) && Here() == old(Here())
      ensures old(removals) <= removals && Grew(locked, old(locked))
      ensures r.Done? ==> skips + [skip] in Tallies(start, actions, profiles, opts.dryRun, more, aside)
      ensures r.Done? && !opts.dryRun && actions[k].DoReplace? ==>
                Trial(Here(), g, skip) in Trials(old(Here()), actions[k].replace, locked, disk.pid, index.now, tell, disk.faulty)
    {
      r, more, aside, skip, g := DoAction(actions[k], tell, report, toCompress);
      StillDuties(c, h, seen, old(index.entries), index.entries, actions);
      if r.Done? {
        TalliedOneMore(start, actions, skips, profiles, opts.dryRun, report, toCompress, skip);
      }
    }

    /** The next action, and where the course leads with it. */
    method TryNext(actions: seq<Action>, k: nat, tell: bool, start: PassReport, report: PassReport, toCompress: seq<Inode>, ghost e: Terms,
                   ghost x: Point, ghost skips: seq<Option<Skip>>, ghost trail: Trail)
      returns (r: Io<()>, more: PassReport, aside: seq<Inode>, ghost skip: Option<Skip>, ghost longer: Trail)
      requires OnDisk() && InPlace() && Trusted() && Recorded() && |skips| == k < |actions| && actions in Duties()
      requires e.pid == disk.pid && e.clock == index.now && e.faulty == disk.faulty
      requires skips in Tallies(start, actions, profiles, opts.dryRun, report, toCompress)
      requires Follows(tell, actions) ==> trail in Courses(e, x, locked, actions, skips, Here())
      modifies disk`fs, disk`states, disk`serial, index`entries, this`locked, this`gone, this`removals
      ensures OnDisk() && InPlace() && Trusted() && Recorded() && actions in Duties()
      ensures opts.dryRun || !(actions[k].Remove? || actions[k].RemoveTarget?) ==> locked == old(locked) && removals == old(removals)
      ensures opts.dryRun || actions[k].DoCompress? ==> disk.fs == old(disk.fs) && disk.states == old(disk.states) && Here() == old(Here())
      ensures old(removals) <= removals && Grew(locked, old(locked))
      ensures r.Done? ==> skips + [skip] in Tallies(start, actions, profiles, opts.dryRun, more, aside)
      ensures r.Done? && Follows(tell, actions) ==> longer in Courses(e, x, locked, actions, skips + [skip], Here())
    {
      ghost var y, held := Here(), locked;
      ghost var g;
      r, more, aside, skip, g := TryNoted(actions, k, tell, start, report, toCompress, skips);
      longer := trail;
      if r.Done? {
        FollowedOn(e, Follows(tell, actions), trail, x, held, actions, skips, y, Trial(Here(), g, skip));
        longer := Followed(Follows(tell, actions), trail, actions[k], Trial(Here(), g, skip));
      }
    }

    /** Nothing but replacements is done, and the passes are told of them. */
    predicate Follows(tell: bool, actions: seq<Action>) {
      !opts.dryRun && tell && AllReplaced(actions)
    }

    /** The actions of a pass in turn, until one fails for good or the run has to let go. What came of each is in the report, and of
        replacements alone `trail` is the course. */
    method TryActions(actions: seq<Action>, tell: bool, start: PassReport, ghost e: Terms)
      returns (r: Io<()>, report: PassReport, aside: seq<Inode>, tried: bool, why: Option<Interrupted>, ghost skips: seq<Option<Skip>>,
               ghost trail: Trail)
      requires OnDisk() && InPlace() && Trusted() && Recorded() && actions in Duties()
      requires e.pid == disk.pid && e.clock == index.now && e.faulty == disk.faulty
      modifies disk`fs, disk`states, disk`serial, index`entries, this`locked, this`gone, this`removals
      ensures OnDisk() && InPlace() && Trusted() && Recorded() && actions in Duties()
      ensures opts.dryRun ==> disk.fs == old(disk.fs) && disk.states == old(disk.states)
      ensures opts.dryRun || !tried ==> locked == old(locked) && removals == old(removals)
      ensures old(removals) <= removals && Grew(locked, old(locked))
      ensures r.Done? ==> skips in Tallies(start, actions, profiles, opts.dryRun, report, aside)
      ensures r.Done? && why.None? ==> |skips| == |actions|
      ensures AllReplaced(actions) || AllPressed(actions) ==> !tried
      ensures opts.dryRun || AllPressed(actions) ==> Here() == old(Here())
      ensures r.Done? && Follows(tell, actions) ==> trail in Courses(e, old(Here()), old(locked), actions, skips, Here())
    {
      r, report, aside, tried, why, skips := Done(()), start, [], false, None, [];
      ghost var was, held, x := removals, locked, Here();
      trail := CourseFrom(e, x, held);
      CourseBegins(e, x, held, actions);
      NothingTallied(start, actions, profiles, opts.dryRun);
      for k := 0 to |actions|
        invariant OnDisk() && InPlace() && Trusted() && Recorded() && actions in Duties()
        invariant opts.dryRun ==> disk.fs == old(disk.fs) && disk.states == old(disk.states)
        invariant opts.dryRun || !tried ==> locked == held && removals == was
        invariant was <= removals && Grew(locked, held)
        invariant r.Done? && why.None? && |skips| == k && skips in Tallies(start, actions, profiles, opts.dryRun, report, aside)
        invariant AllReplaced(actions) || AllPressed(actions) ==> !tried
        invariant opts.dryRun || AllPressed(actions) ==> Here() == x
        invariant Follows(tell, actions) ==> trail in Courses(e, x, held, actions, skips, Here())
      {
        why := Due();
        if why.Some? {
          break;
        }
        ghost var skip;
        r, report, aside, skip, trail := TryNext(actions, k, tell, start, report, aside, e, x, skips, trail);
        tried := tried || (!opts.dryRun && (actions[k].Remove? || actions[k].RemoveTarget?));
        if r.Fail? {
          break;
        }
        skips := skips + [skip];
      }
    }

    /** The next batch of the groups laid aside. */
    method CompressNext(aside: seq<Inode>, n: nat, passes: seq<Pass>, start: PassReport, report: PassReport, ghost batches: seq<Batch>,
                        ghost x: Point)
      returns (end: nat, more: PassReport, ghost b: Batch)
      requires OnDisk() && InPlace() && Trusted() && !opts.dryRun && n < |aside| && WholeBatches(n, |aside|)
      requires forall inode :: inode in aside ==> Compressible(inode)
      requires batches in Sequels(TermsOf(passes), locked, x, Here()) && batches in Layings(aside[..n], start, report)
      requires Advanced(start, report, n, Blocks(aside[..n]))
      modifies disk`fs, disk`states, disk`serial, index`entries
      ensures OnDisk() && InPlace() && Trusted()
      ensures n < end <= |aside| && WholeBatches(end, |aside|)
      ensures batches + [b] in Sequels(TermsOf(passes), locked, x, Here()) && batches + [b] in Layings(aside[..end], start, more)
      ensures Advanced(start, more, end, Blocks(aside[..end]))
    {
      end := if n + COMPRESS_BATCH <= |aside| then n + COMPRESS_BATCH else |aside|;
      NextIsWhole(n, end, |aside|);
      var batch := aside[n..end];
      MayCompress(batch);
      more, b := CompressBatch(batch, passes, report);
      OneMoreBatch(TermsOf(passes), locked, x, batches, b, start, report, aside, n, end);
      assert aside[..end] == aside[..n] + batch;
      BlocksJoin(aside[..n], batch);
    }

    /** The groups laid aside, batch by batch: all of them, or a whole number of batches if the run has to let go. */
    method CompressAll(aside: seq<Inode>, passes: seq<Pass>, start: PassReport)
      returns (report: PassReport, why: Option<Interrupted>, n: nat, ghost batches: seq<Batch>)
      requires OnDisk() && InPlace() && Trusted()
      requires forall inode :: inode in aside ==> Compressible(inode)
      requires opts.dryRun ==> aside == []
      modifies disk`fs, disk`states, disk`serial, index`entries
      ensures OnDisk() && InPlace() && Trusted()
      ensures opts.dryRun ==> disk.fs == old(disk.fs) && disk.states == old(disk.states)
      ensures n <= |aside| && WholeBatches(n, |aside|) && (why.None? ==> n == |aside|)
      ensures batches in Sequels(TermsOf(passes), locked, old(Here()), Here()) && batches in Layings(aside[..n], start, report)
      ensures Advanced(start, report, n, Blocks(aside[..n])) && (n == 0 ==> batches == [])
    {
      report, why, batches, n := start, None, [], 0;
      NothingLaid(TermsOf(passes), locked, Here(), start);
      assert aside[..0] == [];
      while n < |aside|
        invariant OnDisk() && InPlace() && Trusted() && why.None? && n <= |aside| && WholeBatches(n, |aside|)
        invariant opts.dryRun ==> disk.fs == old(disk.fs) && disk.states == old(disk.states)
        invariant batches in Sequels(TermsOf(passes), locked, old(Here()), Here()) && batches in Layings(aside[..n], start, report)
        invariant Advanced(start, report, n, Blocks(aside[..n])) && (n == 0 ==> batches == [])
      {
        why := Due();
        if why.Some? {
          break;
        }
        ghost var b;
        n, report, b := CompressNext(aside, n, passes, start, report, batches, old(Here()));
        batches := batches + [b];
      }
    }

    lemma MayCompress(batch: seq<Inode>)
      requires Trusted() && forall inode :: inode in batch ==> Compressible(inode)
      ensures Staging.Planned(seen, disk.fs, batch, c.kept)
    {}

    /** The groups a pass laid aside handled, and everything in its report accounted for. */
    method CompressLaid(plan: seq<Action>, aside: seq<Inode>, tell: bool, passes: seq<Pass>, start: PassReport, tally: PassReport,
                        cut: Option<Interrupted>, ghost x: Point, ghost held: seq<Path>, ghost skips: seq<Option<Skip>>, ghost trail: Trail)
      returns (report: PassReport, why: Option<Interrupted>, ghost d: Doing)
      requires OnDisk() && InPlace() && Trusted() && plan in Duties() && Open(start, [], opts.dryRun)
      requires skips in Tallies(start, plan, profiles, opts.dryRun, tally, aside) && (cut.None? ==> |skips| == |plan|)
      requires AllPressed(plan) ==> Here() == x && locked == held
      requires Follows(tell, plan) ==> trail in Courses(TermsOf(passes), x, held, plan, skips, Here())
      modifies disk`fs, disk`states, disk`serial, index`entries
      ensures OnDisk() && InPlace() && Trusted()
      ensures opts.dryRun ==> disk.fs == old(disk.fs) && disk.states == old(disk.states)
      ensures Accounted(report, opts.dryRun, why) && report.name == start.name && report.planned == start.planned + |skips|
      ensures d in Doings(TermsOf(passes), tell, x, held, plan, start, profiles, Here(), report) && |d.skips| == |skips|
      ensures why.None? ==> d in WholeDoings(plan, opts.dryRun)
    {
      ghost var e, z := TermsOf(passes), Here();
      var n;
      ghost var batches;
      report, why, n, batches := CompressRest(plan, aside, passes, start, tally, cut, skips);
      d := Doing(skips, trail, n, batches);
      IsDoing(e, tell, x, z, held, plan, start, profiles, tally, aside, locked, Here(), report, d, why.None?);
    }

    /** The groups laid aside handled, unless the run is dry. */
    method CompressRest(plan: seq<Action>, aside: seq<Inode>, passes: seq<Pass>, start: PassReport, tally: PassReport,
                        cut: Option<Interrupted>, ghost skips: seq<Option<Skip>>)
      returns (report: PassReport, why: Option<Interrupted>, n: nat, ghost batches: seq<Batch>)
      requires OnDisk() && InPlace() && Trusted() && plan in Duties() && Open(start, [], opts.dryRun)
      requires skips in Tallies(start, plan, profiles, opts.dryRun, tally, aside) && (cut.None? ==> |skips| == |plan|)
      modifies disk`fs, disk`states, disk`serial, index`entries
      ensures OnDisk() && InPlace() && Trusted()
      ensures opts.dryRun ==> disk.fs == old(disk.fs) && disk.states == old(disk.states)
      ensures batches in Sequels(TermsOf(passes), locked, old(Here()), Here()) && (AllReplaced(plan) || n == 0 ==> batches == [])
      ensures n <= |aside| && batches in Layings(aside[..n], tally, report)
      ensures Accounted(report, opts.dryRun, why) && report.name == start.name && report.planned == start.planned + |skips|
      ensures why.None? ==> cut.None? && n == |aside|
    {
      TalliedOpen(start, plan, skips, profiles, opts.dryRun, tally, aside);
      AsideMayBe(plan, |skips|);
      if AllReplaced(plan) {
        NoneLaid(plan, |skips|);
      }
      NothingLaid(TermsOf(passes), locked, Here(), tally);
      report, why, n, batches := tally, cut, 0, [];
      if !opts.dryRun {
        var later;
        report, later, n, batches := CompressAll(aside, passes, tally);
        CompressedOpen(tally, aside, report, later, aside[..n]);
        why := if later.Some? then later else why;
      }
    }

    /** A plan carried out: its actions in turn, and then the groups laid aside. */
    method CarryOut(plan: seq<Action>, tell: bool, passes: seq<Pass>, start: PassReport)
      returns (r: Io<()>, report: PassReport, tried: bool, why: Option<Interrupted>, ghost d: Doing)
      requires OnDisk() && InPlace() && Trusted() && Recorded() && plan in Duties() && Open(start, [], opts.dryRun)
      modifies disk`fs, disk`states, disk`serial, index`entries, this`locked, this`gone, this`removals
      ensures OnDisk() && InPlace() && Trusted() && Recorded()
      ensures opts.dryRun ==> disk.fs == old(disk.fs) && disk.states == old(disk.states)
      ensures opts.dryRun || !tried ==> locked == old(locked) && removals == old(removals)
      ensures old(removals) <= removals && Grew(locked, old(locked)) && (AllReplaced(plan) || AllPressed(plan) ==> !tried)
      ensures r.Done? ==> Accounted(report, opts.dryRun, why) && report.name == start.name && report.planned == start.planned + |d.skips|
      ensures r.Done? ==> d in Doings(TermsOf(passes), tell, old(Here()), old(locked), plan, start, profiles, Here(), report)
      ensures r.Done? && why.None? ==> d in WholeDoings(plan, opts.dryRun)
    {
      hide Engine.OnDisk, Engine.InPlace, Engine.Trusted, Engine.Recorded;
      ghost var x, held := Here(), locked;
      var tally, aside;
      ghost var skips, trail;
      r, tally, aside, tried, why, skips, trail := TryActions(plan, tell, start, TermsOf(passes));
      report, d := tally, Doing(skips, trail, 0, []);
      if r.Done? {
        report, why, d := CompressLaid(plan, aside, tell, passes, start, tally, why, x, held, skips, trail);
      }
    }

    /** A pass planned on the scans and applied. */
    method ApplyPass(pass: Pass, passes: seq<Pass>, now: int, ghost scanned: int)
      returns (r: Io<()>, report: PassReport, tried: bool, why: Option<Interrupted>, ghost t: Told)
      requires OnDisk() && InPlace() && Trusted() && Recorded()
      requires Scanned(seen, locked, private, floors, scanned, profiles)
      requires Fits(pass) && (c.kept ==> NoCollision(h, start))
      modifies disk`fs, disk`states, disk`serial, index`entries, this`locked, this`gone, this`removals
      ensures OnDisk() && InPlace() && Trusted() && Recorded()
      ensures opts.dryRun ==> disk.fs == old(disk.fs) && disk.states == old(disk.states)
      ensures opts.dryRun || !tried ==> locked == old(locked) && removals == old(removals)
      ensures old(removals) <= removals && Grew(locked, old(locked)) && (!pass.OtherPass? ==> !tried)
      ensures r.Done? ==> Accounted(report, opts.dryRun, why) && report.name == NameOf(pass)
      ensures r.Done? ==> IsOf(t, pass, now, old(View(scanned)), View(scanned), report) && t in Deeds(TermsOf(passes))
      ensures r.Done? && why.None? ==> Finished(TermsOf(passes), t)
    {
      hide PlanIs, Did;
      ghost var x, e := View(scanned), TermsOf(passes);
      ghost var w, d;
      var plan;
      plan, w := PlanPass(pass, now, scanned, passes);
      ghost var y := Here();
      r, report, tried, why, d := CarryOut(plan, pass.DedupePass?, passes, NO_REPORT.(name := NameOf(pass)));
      t := Told(pass, x, w, d, View(scanned), report);
      if r.Done? {
        IsDeed(e, t, y, NO_REPORT.(name := NameOf(pass)));
      }
    }

    lemma {:induction false} AsideMayBe(actions: seq<Action>, k: nat)
      requires k <= |actions| && actions in Duties()
      ensures forall inode :: inode in Compressions(actions, k) ==> Compressible(inode)
    {
      if k > 0 {
        AsideMayBe(actions, k - 1);
        assert May(c, h, seen, index.entries, actions[k - 1]);
      }
    }

    /** Units with files in use are noted as busy, and all are scanned again if anything has changed. */
    method LookAgain(report: PassReport, tried: bool, ghost scanned: int) returns (r: Io<()>, ghost rescanned: int)
      requires OnDisk() && InPlace() && Trusted() && Recorded()
      requires report.applied == 0 && !tried ==> Scanned(seen, locked, private, floors, scanned, profiles)
      modifies this`busy, this`unsure, this`profiles, this`seen
      ensures OnDisk() && InPlace() && Trusted() && Recorded()
      ensures r.Done? ==> Scanned(seen, locked, private, floors, rescanned, profiles)
      ensures Grew(old(unsure), unsure) && Grew(old(busy), busy)
      ensures forall u :: u in busy <==> u in old(busy) || (u in locked && FoundBusy(report.skipped, u))
      ensures r.Done? && (report.applied > 0 || tried) ==> seen == disk.fs
      ensures report.applied == 0 && !tried ==> r.Done? && View(rescanned) == old(View(scanned))
    {
      rescanned := scanned;
      r := Done(());
      busy := NoteBusy(report.skipped, locked, busy);
      if report.applied > 0 || tried {
        var clock: int := *;
        rescanned := clock;
        r := Rescan(clock);
      }
    }

    /** The end of a pass, and its record. */
    method EndPass(passes: seq<Pass>, report: PassReport, tried: bool, ghost scanned: int, ghost t: Told)
      returns (r: Io<()>, ghost rescanned: int, ghost whole: Told)
      requires OnDisk() && InPlace() && Trusted() && Recorded()
      requires report.applied == 0 && !tried ==> Scanned(seen, locked, private, floors, scanned, profiles)
      requires t in Deeds(TermsOf(passes)) && Finished(TermsOf(passes), t) && t.after == View(scanned) && t.report == report
      requires !t.pass.OtherPass? ==> !tried && View(scanned).(at := t.before.at) == t.before
      modifies this`busy, this`unsure, this`profiles, this`seen
      ensures OnDisk() && InPlace() && Trusted() && Recorded()
      ensures r.Done? ==> Scanned(seen, locked, private, floors, rescanned, profiles)
      ensures Grew(old(unsure), unsure) && Grew(old(busy), busy)
      ensures forall u :: u in busy <==> u in old(busy) || (u in locked && FoundBusy(report.skipped, u))
      ensures r.Done? && (report.applied > 0 || tried) ==> seen == disk.fs
      ensures whole == t.(after := View(rescanned)) && (r.Done? ==> whole in WholeDeeds(TermsOf(passes)))
    {
      r, rescanned := LookAgain(report, tried, scanned);
      whole := t.(after := View(rescanned));
      if r.Done? {
        IsWhole(TermsOf(passes), t, View(rescanned));
      }
    }

    /** One pass, and the units rescanned if it changed anything. */
    method RunPass(pass: Pass, passes: seq<Pass>, now: int, ghost scanned: int)
      returns (r: Io<()>, report: PassReport, why: Option<Interrupted>, ghost rescanned: int, ghost t: Told)
      requires OnDisk() && InPlace() && Trusted() && Recorded()
      requires Scanned(seen, locked, private, floors, scanned, profiles)
      requires Fits(pass) && (c.kept ==> NoCollision(h, start))
      modifies disk`fs, disk`states, disk`serial, index`entries
      modifies this`locked, this`gone, this`removals, this`busy, this`unsure, this`profiles, this`seen
      ensures OnDisk() && InPlace() && Trusted() && Recorded()
      ensures r.Done? && why.None? ==> Scanned(seen, locked, private, floors, rescanned, profiles)
      ensures opts.dryRun ==> disk.fs == old(disk.fs) && disk.states == old(disk.states)
      ensures old(removals) <= removals && Grew(locked, old(locked)) && Grew(old(unsure), unsure) && Grew(old(busy), busy)
      ensures !pass.OtherPass? ==> removals == old(removals)
      ensures r.Done? ==> Accounted(report, opts.dryRun, why) && report.name == NameOf(pass)
      ensures r.Done? && why.None? && (report.applied > 0 || removals != old(removals)) ==> seen == disk.fs
      ensures r.Done? && why.None? ==> forall u :: u in busy <==> u in old(busy) || (u in locked && FoundBusy(report.skipped, u))
      ensures r.Done? ==> IsOf(t, pass, now, old(View(scanned)), View(rescanned), report)
      ensures r.Done? ==> t in if why.None? then WholeDeeds(TermsOf(passes)) else Deeds(TermsOf(passes))
    {
      rescanned := scanned;
      var tried;
      r, report, tried, why, t := ApplyPass(pass, passes, now, scanned);
      if r.Done? && why.None? {
        r, rescanned, t := EndPass(passes, report, tried, scanned, t);
      }
    }

    /** What a temp that a dead process left would be called: none is hidden from the scan, and the units are dirs. */
    ghost predicate Sweepable()
      reads this, disk
    {
      && (forall i :: 0 <= i < |locked| ==> locked[i] !in disk.fs.names && !IsTemp(locked[i]))
      && (forall p :: p in disk.fs.names && LockedIn(p, locked) && OwnTemp(p, disk.pid, disk.serial) ==>
            exists i :: 0 <= i < |locked| && Visible(private, locked[i], p))
    }

    /** Removes one temp that a dead run left. */
    method SweepOne(temp: Path) returns (r: Io<()>)
      requires OnDisk() && Holding() && Trusted() && IsTemp(temp) && LockedIn(temp, locked)
      modifies disk`fs, disk`states
      ensures OnDisk() && Trusted()
      ensures disk.fs.names.Keys <= old(disk.fs).names.Keys
      ensures r.Done? ==> temp !in disk.fs.names
      ensures Current(old(disk.fs), disk.fs)
    {
      ghost var a, states := disk.fs, disk.states;
      ghost var d := Now(true);
      NowWithin(true);
      if temp in a.names {
        SweepStep(d, a, temp);
        UnlinkIsCurrent(a, temp);
      }
      r := disk.RemoveFile(temp);
      if r.Done? {
        HistoryOneMore(states, |states|, disk.fs, d, a, {});
        Stretch(c, d, start, a, disk.fs, gone, states, disk.states, from);
        if c.kept {
          KnowsAfterExact(h, index.entries, seen, a, disk.fs);
          TrustLasts(known, index.entries, states, disk.states, First(), seen);
        }
      }
    }

    /** The temps of one unit. */
    method SweepUnit(temps: seq<Path>) returns (r: Io<()>, removed: nat)
      requires OnDisk() && Holding() && Trusted() && forall t :: t in temps ==> IsTemp(t) && LockedIn(t, locked)
      modifies disk`fs, disk`states
      ensures OnDisk() && Trusted() && disk.fs.names.Keys <= old(disk.fs).names.Keys && Current(old(disk.fs), disk.fs)
      ensures r.Done? ==> removed == |temps| && forall t :: t in temps ==> t !in disk.fs.names
    {
      removed := 0;
      for j := 0 to |temps|
        invariant OnDisk() && Trusted() && disk.fs.names.Keys <= old(disk.fs).names.Keys && Current(old(disk.fs), disk.fs)
        invariant removed == j && forall t :: t in temps[..j] ==> t !in disk.fs.names
      {
        ghost var a := disk.fs;
        var one := SweepOne(temps[j]);
        CurrentJoin(old(disk.fs), a, disk.fs);
        if one.Fail? {
          return one, removed;
        }
        removed := removed + 1;
      }
      assert temps[..|temps|] == temps;
      r := Done(());
    }

    /** Removes every temp the scans came upon. One that cannot be removed ends the run. */
    method Sweep() returns (r: Io<()>, removed: nat)
      requires OnDisk() && Holding() && Trusted() && !opts.dryRun
      requires forall i, t :: 0 <= i < |profiles| && t in profiles[i].staleTemps ==> IsTemp(t) && LockedIn(t, locked)
      modifies disk`fs, disk`states
      ensures OnDisk() && Trusted() && disk.fs.names.Keys <= old(disk.fs).names.Keys && Current(old(disk.fs), disk.fs)
      ensures r.Done? ==> removed == StaleTemps(profiles, |profiles|)
      ensures r.Done? ==> forall i, t :: 0 <= i < |profiles| && t in profiles[i].staleTemps ==> t !in disk.fs.names
    {
      removed := 0;
      for k := 0 to |profiles|
        invariant OnDisk() && Trusted() && disk.fs.names.Keys <= old(disk.fs).names.Keys && Current(old(disk.fs), disk.fs)
        invariant removed == StaleTemps(profiles, k)
        invariant forall i, t :: 0 <= i < k && t in profiles[i].staleTemps ==> t !in disk.fs.names
      {
        ghost var a := disk.fs;
        var one, some := SweepUnit(profiles[k].staleTemps);
        CurrentJoin(old(disk.fs), a, disk.fs);
        if one.Fail? {
          return one, removed + some;
        }
        removed := removed + some;
      }
      r := Done(());
    }

    /** The first scan, and away with what a dead run left: no temp that a scan can see is there any longer. */
    method Begin(now: int) returns (r: Io<()>, removed: nat)
      requires OnDisk() && Holding() && Trusted() && Recorded() && Sweepable()
      modifies disk`fs, disk`states, this`profiles, this`unsure, this`seen
      ensures OnDisk() && Holding() && Trusted() && Recorded()
      ensures Grew(old(unsure), unsure)
      ensures r.Done? ==> InPlace() && Scanned(seen, locked, private, floors, now, profiles) && UpToDate()
      ensures r.Done? && !opts.dryRun ==> NoTempVisible(disk.fs, private, locked)
      ensures r.Done? ==> removed == if opts.dryRun then 0 else |TempsIn(old(disk.fs), private, locked)|
      ensures opts.dryRun ==> disk.fs == old(disk.fs) && disk.states == old(disk.states)
    {
      removed := 0;
      r := Rescan(now);
      if r.Done? && !opts.dryRun {
        ScannedTemps(seen, locked, private, floors, now, profiles);
        StaleCount(seen, private, locked, floors, now, profiles, |profiles|);
        assert locked[..|locked|] == locked;
        r, removed := Sweep();
        if r.Done? {
          SweptWorkable(seen, disk.fs, locked, private, floors, now, profiles, disk.pid, disk.serial);
        }
      }
    }

    /** What the engine goes by is what is there, where clones alone are put in place and nothing fails. */
    ghost predicate UpToDate()
      reads this, disk
    {
      c.exact && !disk.faulty && !opts.dryRun ==> Current(seen, disk.fs)
    }

    /** What such a run vouches for: that it skips no replacement. */
    ghost predicate Smooth()
      reads this
    {
      c.exact && c.kept && !disk.faulty
    }

    /** One pass of a round, and its record. */
    method RunNext(passes: seq<Pass>, k: nat, round: seq<PassReport>, ghost scanned: int, ghost x: Scene, ghost told: seq<Told>)
      returns (r: Io<()>, report: PassReport, why: Option<Interrupted>, ghost rescanned: int, ghost t: Told)
      requires OnDisk() && InPlace() && Trusted() && Recorded() && UpToDate()
      requires Scanned(seen, locked, private, floors, scanned, profiles)
      requires k < |passes| && Runs(passes[k], opts) && Fits(passes[k]) && (c.kept ==> NoCollision(h, start))
      requires round in RoundReports(passes, opts, k, None, Smooth())
      requires told in RoundsOf(TermsOf(passes), passes, opts, k, x, View(scanned))
      modifies disk`fs, disk`states, disk`serial, index`entries
      modifies this`locked, this`gone, this`removals, this`busy, this`unsure, this`profiles, this`seen
      ensures OnDisk() && InPlace() && Trusted() && Recorded()
      ensures r.Done? && why.None? ==> Scanned(seen, locked, private, floors, rescanned, profiles) && UpToDate()
      ensures opts.dryRun ==> disk.fs == old(disk.fs) && disk.states == old(disk.states)
      ensures old(removals) <= removals && Grew(locked, old(locked)) && Grew(old(unsure), unsure) && Grew(old(busy), busy)
      ensures !passes[k].OtherPass? ==> removals == old(removals)
      ensures r.Done? ==> round + [report] in RoundReports(passes, opts, k + 1, why, Smooth())
      ensures r.Done? && why.None? ==> told + [t] in RoundsOf(TermsOf(passes), passes, opts, k + 1, x, View(rescanned)) && t.report == report
    {
      ghost var e := TermsOf(passes);
      var now: int := *;
      r, report, why, rescanned, t := RunPass(passes[k], passes, now, scanned);
      if r.Done? {
        if c.exact && !disk.faulty && !opts.dryRun {
          PassKeeps(e, t);
        }
        OneMoreReport(passes, opts, k, round, report, why, Smooth());
        if why.None? {
          OneMorePass(e, passes, opts, k, x, told, t);
        }
      }
    }

    /** The next pass of a round, if it runs. */
    method RoundStep(passes: seq<Pass>, k: nat, before: seq<PassReport>, progressed: bool, ghost scanned: int, ghost x: Scene,
                     ghost told: seq<Told>)
      returns (r: Io<()>, round: seq<PassReport>, applied: bool, why: Option<Interrupted>, ghost rescanned: int, ghost more: seq<Told>)
      requires OnDisk() && InPlace() && Trusted() && Recorded() && UpToDate()
      requires Scanned(seen, locked, private, floors, scanned, profiles)
      requires k < |passes| && (Runs(passes[k], opts) ==> Fits(passes[k])) && (c.kept ==> NoCollision(h, start))
      requires before in RoundReports(passes, opts, k, None, Smooth()) && progressed == AnyApplied(before)
      requires told in RoundsOf(TermsOf(passes), passes, opts, k, x, View(scanned))
      modifies disk`fs, disk`states, disk`serial, index`entries
      modifies this`locked, this`gone, this`removals, this`busy, this`unsure, this`profiles, this`seen
      ensures OnDisk() && InPlace() && Trusted() && Recorded()
      ensures r.Done? && why.None? ==> Scanned(seen, locked, private, floors, rescanned, profiles) && UpToDate()
      ensures opts.dryRun ==> disk.fs == old(disk.fs) && disk.states == old(disk.states)
      ensures old(removals) <= removals && Grew(locked, old(locked)) && Grew(old(unsure), unsure) && Grew(old(busy), busy)
      ensures Lossless(passes, opts) ==> removals == old(removals)
      ensures r.Done? ==> round in RoundReports(passes, opts, k + 1, why, Smooth()) && applied == AnyApplied(round)
      ensures r.Done? && why.None? ==> more in RoundsOf(TermsOf(passes), passes, opts, k + 1, x, View(rescanned))
    {
      r, round, applied, why, rescanned, more := Done(()), before, progressed, None, scanned, told;
      if Runs(passes[k], opts) {
        var report;
        ghost var t;
        r, report, why, rescanned, t := RunNext(passes, k, before, scanned, x, told);
        assert (before + [report])[..|before|] == before;
        round, applied, more := before + [report], progressed || report.applied > 0, told + [t];
      } else {
        PassedOver(TermsOf(passes), passes, opts, k, x, told, View(scanned));
        NoReport(passes, opts, k, round, Smooth());
      }
    }

    /** One round: every pass that runs, in turn. */
    method RunRound(passes: seq<Pass>, ghost scanned: int)
      returns (r: Io<()>, round: seq<PassReport>, progressed: bool, why: Option<Interrupted>, ghost rescanned: int, ghost told: seq<Told>,
               ghost ran: nat)
      requires OnDisk() && InPlace() && Trusted() && Recorded() && UpToDate()
      requires Scanned(seen, locked, private, floors, scanned, profiles)
      requires forall i :: 0 <= i < |passes| && Runs(passes[i], opts) ==> Fits(passes[i])
      requires c.kept ==> NoCollision(h, start)
      modifies disk`fs, disk`states, disk`serial, index`entries
      modifies this`locked, this`gone, this`removals, this`busy, this`unsure, this`profiles, this`seen
      ensures OnDisk() && InPlace() && Trusted() && Recorded()
      ensures r.Done? && why.None? ==> Scanned(seen, locked, private, floors, rescanned, profiles) && UpToDate() && ran == |passes|
      ensures opts.dryRun ==> disk.fs == old(disk.fs) && disk.states == old(disk.states)
      ensures old(removals) <= removals && Grew(locked, old(locked)) && Grew(old(unsure), unsure) && Grew(old(busy), busy)
      ensures Lossless(passes, opts) ==> removals == old(removals)
      ensures r.Done? ==> ran <= |passes| && round in RoundReports(passes, opts, ran, why, Smooth()) && progressed == AnyApplied(round)
      ensures r.Done? ==> ReportsOf(passes, opts, ran, round)
      ensures r.Done? && why.None? ==> told in RoundsOf(TermsOf(passes), passes, opts, |passes|, old(View(scanned)), View(rescanned))
    {
      hide Scanned, Engine.OnDisk, Engine.InPlace, Engine.Trusted, Engine.Recorded, Engine.UpToDate;
      r, round, progressed, why, rescanned, told, ran := Done(()), [], false, None, scanned, [], 0;
      RoundBegins(TermsOf(passes), passes, opts, View(scanned));
      for k := 0 to |passes|
        invariant OnDisk() && InPlace() && Trusted() && Recorded() && UpToDate() && why.None? && r.Done? && ran == k
        invariant Scanned(seen, locked, private, floors, rescanned, profiles)
        invariant opts.dryRun ==> disk.fs == old(disk.fs) && disk.states == old(disk.states)
        invariant old(removals) <= removals && Grew(locked, old(locked)) && Grew(old(unsure), unsure) && Grew(old(busy), busy)
        invariant Lossless(passes, opts) ==> removals == old(removals)
        invariant round in RoundReports(passes, opts, k, None, Smooth()) && progressed == AnyApplied(round)
        invariant told in RoundsOf(TermsOf(passes), passes, opts, k, old(View(scanned)), View(rescanned))
      {
        r, round, progressed, why, rescanned, told := RoundStep(passes, k, round, progressed, rescanned, old(View(scanned)), told);
        ran := k + 1;
        if r.Fail? || why.Some? {
          break;
        }
      }
      if r.Done? {
        RoundIsOf(passes, opts, ran, why, Smooth(), round);
      }
    }
  }

  /** A round's reports: those of the passes that ran of the first `k`, each accounted for; and if `smooth`, dedupe has skipped nothing. */
  ghost predicate AreReports(passes: seq<Pass>, opts: Options, k: nat, why: Option<Interrupted>, smooth: bool, round: seq<PassReport>) {
    && k <= |passes| && RoundAccounted(round, opts.dryRun, why) && NamesOfReports(round) == RunningNames(passes, opts, k)
    && (smooth ==> NoneSkippedBy(DEDUPE, round))
  }

  ghost function RoundReports(passes: seq<Pass>, opts: Options, k: nat, why: Option<Interrupted>, smooth: bool): iset<seq<PassReport>> {
    iset round: seq<PassReport> | AreReports(passes, opts, k, why, smooth, round)
  }

  lemma RoundIsOf(passes: seq<Pass>, opts: Options, k: nat, why: Option<Interrupted>, smooth: bool, round: seq<PassReport>)
    requires k <= |passes| && round in RoundReports(passes, opts, k, why, smooth)
    ensures ReportsOf(passes, opts, k, round)
  {
    NamesAreOf(passes, opts, k, round);
  }

  lemma NamesAreOf(passes: seq<Pass>, opts: Options, k: nat, total: seq<PassReport>)
    requires k <= |passes| && NamesOfReports(total) == RunningNames(passes, opts, k)
    ensures ReportsOf(passes, opts, k, total)
  {
    forall j | 0 <= j < |total| ensures total[j].name == RunningNames(passes, opts, k)[j] {
      assert NamesOfReports(total)[j] == total[j].name;
    }
    assert |NamesOfReports(total)| == |total|;
    RunningReports(passes, opts, k, total);
  }

  ghost predicate NoneSkippedBy(name: string, round: seq<PassReport>) {
    forall i :: 0 <= i < |round| && round[i].name == name ==> round[i].skipped == []
  }

  lemma OneMoreReport(passes: seq<Pass>, opts: Options, k: nat, round: seq<PassReport>, report: PassReport, why: Option<Interrupted>,
                      smooth: bool)
    requires k < |passes| && Runs(passes[k], opts) && round in RoundReports(passes, opts, k, None, smooth)
    requires Accounted(report, opts.dryRun, why) && report.name == NameOf(passes[k])
    requires smooth ==> !passes[k].OtherPass? && (passes[k].DedupePass? ==> report.skipped == [])
    ensures round + [report] in RoundReports(passes, opts, k + 1, why, smooth)
  {
    assert NamesOfReports(round + [report]) == NamesOfReports(round) + [report.name];
  }

  lemma NoReport(passes: seq<Pass>, opts: Options, k: nat, round: seq<PassReport>, smooth: bool)
    requires k < |passes| && !Runs(passes[k], opts) && round in RoundReports(passes, opts, k, None, smooth)
    ensures round in RoundReports(passes, opts, k + 1, None, smooth)
  {}

  /** What a pass reports: all that was planned came to something, unless the run let go; a dry run only plans. */
  predicate Accounted(r: PassReport, dryRun: bool, why: Option<Interrupted>) {
    && Covered(r)
    && (!dryRun && why.None? ==> Balanced(r))
    && (dryRun ==> r.applied == 0 && r.skipped == [] && r.freedBytes == 0)
  }

  predicate AnyApplied(round: seq<PassReport>) {
    round != [] && (AnyApplied(round[..|round| - 1]) || round[|round| - 1].applied > 0)
  }

  function StaleTemps(profiles: seq<Profile>, k: nat): nat
    requires k <= |profiles|
  {
    if k == 0 then 0 else StaleTemps(profiles, k - 1) + |profiles[k - 1].staleTemps|
  }

  ghost predicate RoundAccounted(round: seq<PassReport>, dryRun: bool, why: Option<Interrupted>) {
    forall i :: 0 <= i < |round| ==> Accounted(round[i], dryRun, if i == |round| - 1 then why else None)
  }

  function NamesOfReports(round: seq<PassReport>): seq<string> {
    seq(|round|, i requires 0 <= i < |round| => round[i].name)
  }

  ghost predicate NoTempVisible(fs: Fs, private: Component -> bool, locked: seq<Path>) {
    forall i, p :: 0 <= i < |locked| && p in fs.names && Visible(private, locked[i], p) ==> !IsTemp(p)
  }

  /** The temps that the scans of the units come upon. */
  ghost function TempsIn(fs: Fs, private: Component -> bool, locked: seq<Path>): set<Path> {
    set p | p in fs.names && IsTemp(p) && exists i :: 0 <= i < |locked| && Visible(private, locked[i], p)
  }

  ghost function AllOf(s: seq<Path>): set<Path> {
    set p | p in s
  }

  lemma {:induction false} AsManyAsDistinct(s: seq<Path>)
    requires Distinct((p: Path) => p, s)
    ensures |AllOf(s)| == |s|
  {
    if s != [] {
      var front, last := s[..|s| - 1], s[|s| - 1];
      AsManyAsDistinct(front);
      assert s == front + [last];
      assert AllOf(s) == AllOf(front) + {last};
    }
  }

  /** Every temp is in one unit, and listed there once. */
  lemma {:induction false} StaleCount(seen: Fs, private: Component -> bool, locked: seq<Path>, floors: seq<(Path, nat)>, now: int,
                                      profiles: seq<Profile>, k: nat)
    requires Scanned(seen, locked, private, floors, now, profiles) && DirsApart(locked) && k <= |profiles|
    ensures StaleTemps(profiles, k) == |TempsIn(seen, private, locked[..k])|
  {
    hide IsPart;
    if k == 0 {
      NoTemps(seen, private, locked);
    } else {
      StaleCount(seen, private, locked, floors, now, profiles, k - 1);
      MoreTemps(seen, private, locked, k - 1);
      UnitTemps(seen, private, locked, floors, now, profiles, k - 1);
    }
  }

  lemma NoTemps(seen: Fs, private: Component -> bool, locked: seq<Path>)
    ensures |TempsIn(seen, private, locked[..0])| == 0
  {
    assert TempsIn(seen, private, locked[..0]) == {};
  }

  lemma UnitTemps(seen: Fs, private: Component -> bool, locked: seq<Path>, floors: seq<(Path, nat)>, now: int, profiles: seq<Profile>, k: nat)
    requires Scanned(seen, locked, private, floors, now, profiles) && k < |profiles|
    ensures |TempsIn(seen, private, [locked[k]])| == |profiles[k].staleTemps|
  {
    var dir, temps := locked[k], profiles[k].staleTemps;
    assert IsPart(seen, dir, private, FloorFor(floors, dir), now, profiles[k]);
    AsManyAsDistinct(temps);
    assert [dir][0] == dir;
    assert TempsIn(seen, private, [dir]) == AllOf(temps);
  }

  lemma MoreTemps(seen: Fs, private: Component -> bool, locked: seq<Path>, k: nat)
    requires DirsApart(locked) && k < |locked|
    ensures |TempsIn(seen, private, locked[..k + 1])| == |TempsIn(seen, private, locked[..k])| + |TempsIn(seen, private, [locked[k]])|
  {
    var front, last := TempsIn(seen, private, locked[..k]), TempsIn(seen, private, [locked[k]]);
    forall p ensures p in TempsIn(seen, private, locked[..k + 1]) <==> p in front || p in last {
      TempOneMore(seen, private, locked, k, p);
    }
    assert TempsIn(seen, private, locked[..k + 1]) == front + last;
    forall p | p in front && p in last ensures false {
      var i :| 0 <= i < k && Visible(private, locked[..k][i], p);
      var j :| 0 <= j < 1 && Visible(private, [locked[k]][j], p);
      UnderBoth(p, locked[i], locked[k]);
    }
    assert front !! last;
  }

  lemma TempOneMore(seen: Fs, private: Component -> bool, locked: seq<Path>, k: nat, p: Path)
    requires k < |locked|
    ensures p in TempsIn(seen, private, locked[..k + 1]) <==>
              p in TempsIn(seen, private, locked[..k]) || p in TempsIn(seen, private, [locked[k]])
  {
    if p in TempsIn(seen, private, locked[..k]) {
      var i :| 0 <= i < k && Visible(private, locked[..k][i], p);
      assert locked[..k + 1][i] == locked[i];
    }
    if p in TempsIn(seen, private, [locked[k]]) {
      assert [locked[k]][0] == locked[..k + 1][k];
    }
    if p in TempsIn(seen, private, locked[..k + 1]) {
      var i :| 0 <= i < k + 1 && Visible(private, locked[..k + 1][i], p);
      assert if i < k then locked[..k][i] == locked[i] else [locked[k]][0] == locked[i];
    }
  }

  lemma ScannedTemps(seen: Fs, locked: seq<Path>, private: Component -> bool, floors: seq<(Path, nat)>, now: int, profiles: seq<Profile>)
    requires Scanned(seen, locked, private, floors, now, profiles)
    ensures forall i, t :: 0 <= i < |profiles| && t in profiles[i].staleTemps ==> IsTemp(t) && LockedIn(t, locked)
  {
    forall i, t | 0 <= i < |profiles| && t in profiles[i].staleTemps ensures IsTemp(t) && LockedIn(t, locked) {
      assert IsPart(seen, locked[i], private, FloorFor(floors, locked[i]), now, profiles[i]);
      assert Under(t, locked[i]);
    }
  }

  /** With what the scans saw removed, no name of a temp this process will make is taken. */
  lemma SweptWorkable(seen: Fs, fs: Fs, locked: seq<Path>, private: Component -> bool, floors: seq<(Path, nat)>, now: int,
                      profiles: seq<Profile>, pid: nat, serial: nat)
    requires Scanned(seen, locked, private, floors, now, profiles) && fs.names.Keys <= seen.names.Keys
    requires forall i, t :: 0 <= i < |profiles| && t in profiles[i].staleTemps ==> t !in fs.names
    requires forall i :: 0 <= i < |locked| ==> locked[i] !in seen.names && !IsTemp(locked[i])
    requires forall p :: p in seen.names && LockedIn(p, locked) && OwnTemp(p, pid, serial) ==>
               exists i :: 0 <= i < |locked| && Visible(private, locked[i], p)
    ensures Workable(fs, locked, pid, serial) && NoTempVisible(fs, private, locked)
  {
    forall i, p | 0 <= i < |locked| && p in seen.names && Visible(private, locked[i], p) && IsTemp(p) ensures p !in fs.names {
      assert IsPart(seen, locked[i], private, FloorFor(floors, locked[i]), now, profiles[i]);
      assert p in profiles[i].staleTemps;
    }
    forall p | p in seen.names && LockedIn(p, locked) && OwnTemp(p, pid, serial) ensures p !in fs.names {
      var i :| 0 <= i < |locked| && Visible(private, locked[i], p);
    }
  }

  /** Units are only ever added to `unsure` and `busy`, and dropped from `locked`. */
  ghost predicate InTurn(removals: seq<Removed>) {
    forall i, j :: 0 <= i < j < |removals| ==>
      && Grew(removals[i].unsure, removals[j].unsure) && Grew(removals[i].busy, removals[j].busy)
      && Grew(removals[j].locked, removals[i].locked)
  }

  ghost function Dirs(removals: seq<Removed>): set<Path> {
    set r | r in removals :: r.dir
  }

  /** Every outcome is one more action done or skipped, and frees no more than its group. */
  lemma {:induction false} AccountAdvances(report: PassReport, outcomes: seq<Outcome>, k: nat)
    requires k <= |outcomes|
    ensures Advanced(report, AccountAll(report, outcomes, k), k, Blocks(Answered(outcomes)[..k]))
  {
    if k > 0 {
      AccountAdvances(report, outcomes, k - 1);
      assert Answered(outcomes)[..k][..k - 1] == Answered(outcomes)[..k - 1];
    }
  }

  lemma AnsweredAll(outcomes: seq<Outcome>, batch: seq<Inode>)
    requires multiset(Answered(outcomes)) == multiset(batch)
    ensures |outcomes| == |batch| && Blocks(Answered(outcomes)) == Blocks(batch)
  {
    assert |multiset(Answered(outcomes))| == |multiset(batch)|;
    BlocksOfAll(Answered(outcomes), batch);
  }

  lemma FewerWorkable(a: Fs, s: Fs, locked: seq<Path>, fewer: seq<Path>, pid: nat, serial: nat)
    requires Workable(a, locked, pid, serial) && (forall p :: p in s.names ==> p in a.names)
    requires forall u :: u in fewer ==> u in locked
    ensures Workable(s, fewer, pid, serial) && Workable(s, locked, pid, serial)
  {
    forall i | 0 <= i < |fewer| ensures fewer[i] !in a.names && !IsTemp(fewer[i]) {
      assert fewer[i] in locked;
    }
    forall p | LockedIn(p, fewer) ensures LockedIn(p, locked) {
      var i :| 0 <= i < |fewer| && Under(p, fewer[i]);
      assert fewer[i] in locked;
    }
  }

  lemma ProperShares(seen: Fs, config: Dedupe.Config, private: Component -> bool, locked: seq<Path>, all: seq<Dedupe.Candidate>, r: Replace)
    requires Dedupe.Proper(all, r) && !config.linkFallback
    requires forall x :: x in all ==> exists k :: 0 <= k < |locked| && FoundIn(seen, config, private, locked[k], x)
    ensures r.how.Clone?
  {
    var x, y :| x in all && y in all && x.inode.stamp.id != y.inode.stamp.id && x.inode.stamp.id.dev == y.inode.stamp.id.dev
      && x.inode.paths != [] && r == Replace(x.inode.paths[0], x.inode.stamp, y.inode, y.how);
    var k :| 0 <= k < |locked| && FoundIn(seen, config, private, locked[k], y);
  }

  /** What the simple plan wants is what the engine may do: the bytes are equal, the records are the scan's, and the index
      is right about the source. */
  lemma WantedIsVouched(seen: Fs, fs: Fs, m: Entries, after: Entries, all: seq<Dedupe.Candidate>, asked: seq<Dedupe.Candidate>,
                        r: Replace) returns (x: Dedupe.Candidate)
    requires Dedupe.Pictured(seen, fs, all) && Dedupe.Separate(all)
    requires forall z :: z in asked <==> z in all && Dedupe.HasTwin(all, z)
    requires Dedupe.Wanted(seen, m, all, Dedupe.Unread(after, asked), r)
    ensures Vouched(seen, r)
    ensures x in asked && x.inode.stamp == r.sourceStamp && Hits(after, r.sourceStamp)
  {
    var unread := Dedupe.Unread(after, asked);
    var y;
    x, y :| y in all && y.inode.stamp.id !in unread && Dedupe.Canonical(seen, m, all, unread, x, y) && x != y
      && !Dedupe.MemberOf(m, y).shared && r == Dedupe.Pointed(Dedupe.MemberOf(m, x), Dedupe.MemberOf(m, y));
    Dedupe.TwinsAreAsked(seen, all, asked, x, y);
    Dedupe.ReadIfHit(after, all, asked, x);
  }

  /** Hashes that tell the files of the start apart tell the scanned ones apart. */
  lemma ScansCollisionFree(h: Hasher, start: Fs, seen: Fs, config: Dedupe.Config, private: Component -> bool, dirs: seq<Path>,
                           floors: seq<(Path, nat)>, now: int, profiles: seq<Profile>)
    requires seen.WellFormed() && DirsApart(dirs) && Scanned(seen, dirs, private, floors, now, profiles)
    requires Kept(start, seen, {}, false) && NoCollision(h, start)
    ensures Dedupe.CollisionFree(h, seen, Dedupe.Candidates(config, profiles))
  {
    ScansSeparate(seen, config, private, dirs, floors, now, profiles);
    forall x | x in Dedupe.Candidates(config, profiles)
      ensures exists p :: start.Has(p) && !IsTemp(p) && start.At(p).bytes == Dedupe.BytesOf(seen, x)
    {
      var k :| 0 <= k < |dirs| && FoundIn(seen, config, private, dirs[k], x);
      var p := x.inode.paths[0];
      assert p in x.inode.paths && seen.Has(p) && !IsTemp(p);
      assert start.Has(p) && SameFile(start.At(p), seen.At(p), false);
    }
  }

  lemma KnowsSame(h: Hasher, m: Entries, n: Entries, seen: Fs, fs: Fs)
    requires Knows(h, m, seen, fs) && Compress.SameEntries(m, n)
    ensures Knows(h, n, seen, fs)
  {}

  lemma PlannedIsScanned(seen: Fs, setting: Compress.Setting, m: Entries, private: Component -> bool, dirs: seq<Path>,
                         floors: seq<(Path, nat)>, scanned: int, profiles: seq<Profile>, now: int, inode: Inode)
    requires Scanned(seen, dirs, private, floors, scanned, profiles) && Compress.Planned(setting, m, profiles, now, inode)
    ensures Describes(seen, inode) && forall p :: p in inode.paths ==> !IsTemp(p)
  {
    var k :| 0 <= k < |profiles| && setting.compresses(profiles[k].dir) && inode in profiles[k].inodes;
    assert IsPart(seen, dirs[k], private, FloorFor(floors, dirs[k]), scanned, profiles[k]);
    assert HoldsNames(seen, dirs[k], private, inode);
  }

  lemma CompressedOpen(tally: PassReport, aside: seq<Inode>, report: PassReport, why: Option<Interrupted>, laid: seq<Inode>)
    requires Open(tally, aside, false) && laid <= aside && (why.None? ==> laid == aside)
    requires Advanced(tally, report, |laid|, Blocks(laid))
    ensures Covered(report) && (why.None? ==> Balanced(report))
  {
    assert aside == laid + aside[|laid|..];
    BlocksJoin(laid, aside[|laid|..]);
  }

  /** Under which rules a run works, told before it begins: which units it gets, whether its passes only put clones in
      place, and whether they only replace what they have compared. */
  ghost function RunRules(disk: Disk, taken: Taken, passes: seq<Pass>, opts: Options, h: Hasher, m: Entries): Rules
    reads disk
  {
    Rules(taken.locked, disk.pid, disk.serial, ClonesOnly(passes, opts),
          Lossless(passes, opts) && Knows(h, m, disk.fs, disk.fs) && NoCollision(h, disk.fs))
  }

  ghost predicate AllBalanced(reports: seq<PassReport>) {
    forall i :: 0 <= i < |reports| ==> Balanced(reports[i])
  }

  ghost predicate AllCovered(reports: seq<PassReport>) {
    forall i :: 0 <= i < |reports| ==> Covered(reports[i])
  }

  lemma RoundAbsorbed(total: seq<PassReport>, round: seq<PassReport>, dryRun: bool, why: Option<Interrupted>)
    requires RoundAccounted(round, dryRun, why) && AllCovered(total)
    ensures AllCovered(AbsorbedAll(total, round))
    ensures AllBalanced(total) && !dryRun && (total != [] || why.None?) ==> AllBalanced(AbsorbedAll(total, round))
    ensures total == [] && dryRun ==> forall i :: 0 <= i < |AbsorbedAll(total, round)| ==> AbsorbedAll(total, round)[i].applied == 0
  {
    forall i | 0 <= i < |total| && i < |round| {
      AbsorbKeepsBalance(total[i], round[i]);
    }
  }

  /** What a report promises. Every planned action is accounted for, but where the first round was cut short. */
  ghost predicate ReportHolds(report: Report, opts: Options)
    reads report
  {
    && report.rounds <= MAX_ROUNDS
    && AllCovered(report.passes)
    && (!opts.dryRun && (report.interrupted.None? || report.rounds > 1) ==> AllBalanced(report.passes))
    && (opts.dryRun ==> report.rounds <= 1 && forall i :: 0 <= i < |report.passes| ==> report.passes[i].applied == 0)
  }

  /** Some pass of the round applied something. */
  ghost predicate Applies(round: seq<PassReport>) {
    exists i :: 0 <= i < |round| && round[i].applied > 0
  }

  lemma {:induction false} AppliesIfAny(round: seq<PassReport>)
    ensures AnyApplied(round) <==> Applies(round)
  {
    if round != [] {
      var front := round[..|round| - 1];
      AppliesIfAny(front);
      if Applies(front) {
        var i :| 0 <= i < |front| && front[i].applied > 0;
        assert round[i] == front[i];
      }
      if Applies(round) {
        var i :| 0 <= i < |round| && round[i].applied > 0;
        assert i < |front| ==> front[i] == round[i];
      }
    }
  }

  /** More rounds than one are made only where asked for, each after one that applied something, and never more than eight. */
  ghost predicate Continued(rounds: nat, opts: Options, each: seq<seq<PassReport>>) {
    && |each| == rounds <= 8 && (rounds > 1 ==> opts.untilSettled && !opts.dryRun)
    && forall k :: 0 <= k < rounds - 1 ==> Applies(each[k])
  }

  /** Why the rounds ended: the run was let go, or one round was all that was asked for, or the last one applied nothing, or there
      were as many as there may be. */
  ghost predicate Settled(rounds: nat, why: Option<Interrupted>, opts: Options, each: seq<seq<PassReport>>) {
    && Continued(rounds, opts, each) && rounds >= 1
    && (why.None? && opts.untilSettled && !opts.dryRun && rounds < 8 ==> !Applies(each[rounds - 1]))
  }

  /** The rounds made so far, summed up in `total`; if there is to be another, the last one applied something. */
  ghost predicate SoFar(rounds: nat, opts: Options, total: seq<PassReport>, why: Option<Interrupted>, again: bool, each: seq<seq<PassReport>>) {
    && Continued(rounds, opts, each) && Summed(each, total) && (rounds == 0 ==> again)
    && (again && rounds > 0 ==> Applies(each[rounds - 1]) && opts.untilSettled && !opts.dryRun)
    && (!again ==> Settled(rounds, why, opts, each))
  }

  ghost function Made(rounds: nat, opts: Options, total: seq<PassReport>, why: Option<Interrupted>, again: bool): iset<seq<seq<PassReport>>> {
    iset each: seq<seq<PassReport>> | SoFar(rounds, opts, total, why, again, each)
  }

  lemma NoneMade(opts: Options)
    ensures [] in Made(0, opts, [], None, true)
  {}

  lemma OneMoreMade(rounds: nat, opts: Options, total: seq<PassReport>, each: seq<seq<PassReport>>, round: seq<PassReport>,
                    progressed: bool, why: Option<Interrupted>, again: bool)
    requires each in Made(rounds, opts, total, None, true) && rounds < MAX_ROUNDS && (total == [] ==> rounds == 0)
    requires progressed == AnyApplied(round)
    requires again == (opts.untilSettled && !opts.dryRun && progressed && why.None? && rounds + 1 < MAX_ROUNDS)
    ensures each + [round] in Made(rounds + 1, opts, AbsorbedAll(total, round), why, again)
  {
    SummedOneMore(each, total, round);
    AppliesIfAny(round);
  }

  lemma MadeSummed(rounds: nat, opts: Options, total: seq<PassReport>, why: Option<Interrupted>, again: bool, each: seq<seq<PassReport>>)
    requires each in Made(rounds, opts, total, why, again)
    ensures Summed(each, total) && (!again ==> Settled(rounds, why, opts, each))
  {}

  /** The names of the first passes that ran come first among all. */
  lemma {:induction false} NamesFirst(passes: seq<Pass>, opts: Options, k: nat, n: nat)
    requires k <= n <= |passes|
    ensures RunningNames(passes, opts, k) <= RunningNames(passes, opts, n)
  {
    if k < n {
      NamesFirst(passes, opts, k, n - 1);
    }
  }

  /** The reports of all rounds so far: none, or one for each pass that runs; and if `smooth`, dedupe has skipped nothing. */
  ghost function Totals(passes: seq<Pass>, opts: Options, smooth: bool): iset<seq<PassReport>> {
    iset total: seq<PassReport> |
      && (total != [] ==> NamesOfReports(total) == RunningNames(passes, opts, |passes|))
      && (smooth ==> NoneSkippedBy(DEDUPE, total))
  }

  /** The reports of a run: one for each of the first passes that are not lossy or that the options name, in order, of all passes if the
      run was carried through; and if `smooth`, dedupe has skipped nothing. */
  ghost function Summaries(passes: seq<Pass>, opts: Options, smooth: bool, whole: bool): iset<seq<PassReport>> {
    iset total: seq<PassReport> |
      && (exists k :: 0 <= k <= |passes| && ReportsOf(passes, opts, k, total))
      && (whole ==> ReportsOf(passes, opts, |passes|, total))
      && (smooth ==> NoneSkippedBy(DEDUPE, total))
  }

  lemma TotalsTell(passes: seq<Pass>, opts: Options, smooth: bool, total: seq<PassReport>)
    requires total in Totals(passes, opts, smooth)
    ensures total in Summaries(passes, opts, smooth, false)
  {
    if total == [] {
      NamesAreOf(passes, opts, 0, total);
    } else {
      NamesAreOf(passes, opts, |passes|, total);
    }
  }

  lemma NothingTold(passes: seq<Pass>, opts: Options, smooth: bool)
    ensures [] in Totals(passes, opts, smooth) && [] in Summaries(passes, opts, smooth, false)
  {
    TotalsTell(passes, opts, smooth, []);
  }

  lemma TotalsAbsorb(passes: seq<Pass>, opts: Options, smooth: bool, total: seq<PassReport>, round: seq<PassReport>, ran: nat,
                     why: Option<Interrupted>, whole: bool)
    requires total in Totals(passes, opts, smooth) && round in RoundReports(passes, opts, ran, why, smooth) && ran <= |passes|
    requires whole ==> ran == |passes|
    ensures AbsorbedAll(total, round) in Summaries(passes, opts, smooth, whole)
    ensures total != [] || ran == |passes| ==> AbsorbedAll(total, round) in Totals(passes, opts, smooth)
  {
    var all := AbsorbedAll(total, round);
    if total == [] {
      NamesAreOf(passes, opts, ran, round);
    } else {
      AllAbsorb(passes, opts, smooth, total, round, ran, why);
      NamesAreOf(passes, opts, |passes|, all);
    }
  }

  lemma AllAbsorb(passes: seq<Pass>, opts: Options, smooth: bool, total: seq<PassReport>, round: seq<PassReport>, ran: nat,
                  why: Option<Interrupted>)
    requires total in Totals(passes, opts, smooth) && round in RoundReports(passes, opts, ran, why, smooth) && ran <= |passes| && total != []
    ensures NamesOfReports(AbsorbedAll(total, round)) == NamesOfReports(total) == RunningNames(passes, opts, |passes|)
    ensures smooth ==> NoneSkippedBy(DEDUPE, AbsorbedAll(total, round))
  {
    var all := AbsorbedAll(total, round);
    NamesFirst(passes, opts, ran, |passes|);
    assert NamesOfReports(all) == NamesOfReports(total);
    forall i | smooth && 0 <= i < |all| && all[i].name == DEDUPE ensures all[i].skipped == [] {
      assert NamesOfReports(total)[i] == total[i].name == all[i].name;
      if i < |round| {
        assert NamesOfReports(round)[i] == round[i].name;
      }
    }
  }

  /** What the report is while rounds are still made. */
  ghost predicate OnGoing(report: Report, passes: seq<Pass>, opts: Options, smooth: bool)
    reads report
  {
    && report.rounds < MAX_ROUNDS && report.interrupted.None? && (opts.dryRun || !opts.untilSettled ==> report.rounds == 0)
    && (report.rounds == 0 <==> report.passes == [])
    && ReportHolds(report, opts) && report.passes in Totals(passes, opts, smooth)
  }

  /** A round added to the report. */
  method AbsorbLap(report: Report, passes: seq<Pass>, opts: Options, ghost smooth: bool, round: seq<PassReport>, ghost ran: nat,
                   why: Option<Interrupted>)
    requires 1 <= report.rounds <= MAX_ROUNDS && (opts.dryRun ==> report.rounds == 1) && (report.rounds == 1 <==> report.passes == [])
    requires AllCovered(report.passes) && (!opts.dryRun ==> AllBalanced(report.passes)) && report.passes in Totals(passes, opts, smooth)
    requires ran <= |passes| && round in RoundReports(passes, opts, ran, why, smooth) && (why.None? ==> ran == |passes|)
    modifies report`passes, report`interrupted
    ensures report.interrupted == why && report.passes == AbsorbedAll(old(report.passes), round) && ReportHolds(report, opts)
    ensures report.passes in Summaries(passes, opts, smooth, why.None?)
    ensures why.None? ==> report.passes in Totals(passes, opts, smooth)
    ensures AnyApplied(round) ==> report.passes != []
  {
    RoundAbsorbed(report.passes, round, opts.dryRun, why);
    TotalsAbsorb(passes, opts, smooth, report.passes, round, ran, why, why.None?);
    report.interrupted := why;
    report.Absorb(round);
  }

  /** One more round, and the report with it. */
  method RunLap(e: Engine, passes: seq<Pass>, report: Report, ghost scanned: int)
    returns (r: Io<()>, round: seq<PassReport>, progressed: bool, ghost clock: int, ghost lap: Lap)
    requires e.OnDisk() && e.InPlace() && e.Trusted() && e.Recorded() && e.UpToDate()
    requires Scanned(e.seen, e.locked, e.private, e.floors, scanned, e.profiles)
    requires forall i :: 0 <= i < |passes| && Runs(passes[i], e.opts) ==> e.Fits(passes[i])
    requires e.c.kept ==> NoCollision(e.h, e.start)
    requires OnGoing(report, passes, e.opts, e.Smooth())
    modifies e.disk`fs, e.disk`states, e.disk`serial, e.index`entries
    modifies e`locked, e`gone, e`removals, e`busy, e`unsure, e`profiles, e`seen
    modifies report`passes, report`rounds, report`interrupted
    ensures e.OnDisk() && e.InPlace() && e.Trusted() && e.Recorded()
    ensures r.Done? && report.interrupted.None? ==> Scanned(e.seen, e.locked, e.private, e.floors, clock, e.profiles) && e.UpToDate()
    ensures e.opts.dryRun ==> e.disk.fs == old(e.disk.fs) && e.disk.states == old(e.disk.states)
    ensures report.rounds == old(report.rounds) + 1 && ReportHolds(report, e.opts)
    ensures report.passes in Summaries(passes, e.opts, e.Smooth(), r.Done? && report.interrupted.None?)
    ensures Lossless(passes, e.opts) ==> e.removals == old(e.removals)
    ensures r.Done? && report.interrupted.None? ==> report.passes in Totals(passes, e.opts, e.Smooth())
    ensures r.Done? ==> progressed == AnyApplied(round) && (progressed ==> report.passes != [])
    ensures report.passes == if r.Done? then AbsorbedAll(old(report.passes), round) else old(report.passes)
    ensures r.Done? && report.interrupted.None? ==>
              lap.told in RoundsOf(e.TermsOf(passes), passes, e.opts, |passes|, lap.before, lap.after)
              && lap.before == old(e.View(scanned)) && lap.after == e.View(clock)
  {
    report.rounds := report.rounds + 1;
    var why;
    ghost var told, ran, before := [], 0, e.View(scanned);
    r, round, progressed, why, clock, told, ran := e.RunRound(passes, scanned);
    lap := Lap(before, told, e.View(clock));
    TotalsTell(passes, e.opts, e.Smooth(), report.passes);
    if r.Done? {
      AbsorbLap(report, passes, e.opts, e.Smooth(), round, ran, why);
    }
  }

  /** One more round, and its record if it was carried through. */
  method NextLap(e: Engine, passes: seq<Pass>, report: Report, ghost scanned: int, ghost laps: seq<Lap>)
    returns (r: Io<()>, round: seq<PassReport>, progressed: bool, ghost clock: int, ghost more: seq<Lap>)
    requires e.OnDisk() && e.InPlace() && e.Trusted() && e.Recorded() && e.UpToDate()
    requires Scanned(e.seen, e.locked, e.private, e.floors, scanned, e.profiles)
    requires forall i :: 0 <= i < |passes| && Runs(passes[i], e.opts) ==> e.Fits(passes[i])
    requires e.c.kept ==> NoCollision(e.h, e.start)
    requires OnGoing(report, passes, e.opts, e.Smooth())
    requires laps in LapsTo(e.TermsOf(passes), passes, e.opts, report.rounds, e.View(scanned))
    modifies e.disk`fs, e.disk`states, e.disk`serial, e.index`entries
    modifies e`locked, e`gone, e`removals, e`busy, e`unsure, e`profiles, e`seen
    modifies report`passes, report`rounds, report`interrupted
    ensures e.OnDisk() && e.InPlace() && e.Trusted() && e.Recorded()
    ensures r.Done? && report.interrupted.None? ==> Scanned(e.seen, e.locked, e.private, e.floors, clock, e.profiles) && e.UpToDate()
    ensures e.opts.dryRun ==> e.disk.fs == old(e.disk.fs) && e.disk.states == old(e.disk.states)
    ensures report.rounds == old(report.rounds) + 1 && ReportHolds(report, e.opts)
    ensures report.passes in Summaries(passes, e.opts, e.Smooth(), r.Done? && report.interrupted.None?)
    ensures Lossless(passes, e.opts) ==> e.removals == old(e.removals)
    ensures r.Done? && report.interrupted.None? ==> report.passes in Totals(passes, e.opts, e.Smooth())
    ensures r.Done? ==> progressed == AnyApplied(round) && (progressed ==> report.passes != [])
    ensures report.passes == if r.Done? then AbsorbedAll(old(report.passes), round) else old(report.passes)
    ensures more in Laps(e.TermsOf(passes), passes, e.opts)
    ensures r.Done? && report.interrupted.None? ==> more in LapsTo(e.TermsOf(passes), passes, e.opts, report.rounds, e.View(clock))
  {
    hide Scanned, Engine.OnDisk, Engine.InPlace, Engine.Trusted, Engine.Recorded, Engine.UpToDate, Engine.Fits, Summaries, LapsTo, Laps;
    ghost var x, n := e.View(scanned), report.rounds;
    ghost var lap;
    r, round, progressed, clock, lap := RunLap(e, passes, report, scanned);
    more := laps;
    LapsAre(e.TermsOf(passes), passes, e.opts, n, x, laps);
    if r.Done? && report.interrupted.None? {
      OneMoreLap(e.TermsOf(passes), passes, e.opts, n, x, laps, lap);
      more := laps + [lap];
    }
  }

  /** One more round, and whether there is to be another. */
  method LapAgain(e: Engine, passes: seq<Pass>, report: Report, ghost scanned: int, ghost each: seq<seq<PassReport>>, ghost laps: seq<Lap>)
    returns (r: Io<()>, again: bool, ghost clock: int, ghost rounds: seq<seq<PassReport>>, ghost more: seq<Lap>)
    requires e.OnDisk() && e.InPlace() && e.Trusted() && e.Recorded() && e.UpToDate()
    requires Scanned(e.seen, e.locked, e.private, e.floors, scanned, e.profiles)
    requires forall i :: 0 <= i < |passes| && Runs(passes[i], e.opts) ==> e.Fits(passes[i])
    requires e.c.kept ==> NoCollision(e.h, e.start)
    requires OnGoing(report, passes, e.opts, e.Smooth())
    requires each in Made(report.rounds, e.opts, report.passes, None, true)
    requires laps in LapsTo(e.TermsOf(passes), passes, e.opts, report.rounds, e.View(scanned))
    modifies e.disk`fs, e.disk`states, e.disk`serial, e.index`entries
    modifies e`locked, e`gone, e`removals, e`busy, e`unsure, e`profiles, e`seen
    modifies report`passes, report`rounds, report`interrupted
    ensures e.OnDisk() && e.InPlace() && e.Trusted() && e.Recorded()
    ensures again ==> r.Done? && Scanned(e.seen, e.locked, e.private, e.floors, clock, e.profiles) && e.UpToDate()
    ensures again ==> OnGoing(report, passes, e.opts, e.Smooth())
    ensures e.opts.dryRun ==> e.disk.fs == old(e.disk.fs) && e.disk.states == old(e.disk.states)
    ensures report.rounds == old(report.rounds) + 1 <= MAX_ROUNDS && ReportHolds(report, e.opts)
    ensures report.passes in Summaries(passes, e.opts, e.Smooth(), r.Done? && report.interrupted.None?)
    ensures Lossless(passes, e.opts) ==> e.removals == old(e.removals)
    ensures if r.Done? then rounds in Made(report.rounds, e.opts, report.passes, report.interrupted, again)
            else rounds == each && Summed(rounds, report.passes)
    ensures more in Laps(e.TermsOf(passes), passes, e.opts)
    ensures r.Done? && report.interrupted.None? ==> more in LapsTo(e.TermsOf(passes), passes, e.opts, report.rounds, e.View(clock))
  {
    hide Scanned, Engine.OnDisk, Engine.InPlace, Engine.Trusted, Engine.Recorded, Engine.UpToDate, Engine.Fits, Summaries, LapsTo, Laps;
    ghost var total, n := report.passes, report.rounds;
    var round, progressed;
    MadeSummed(n, e.opts, total, None, true, each);
    r, round, progressed, clock, more := NextLap(e, passes, report, scanned, laps);
    rounds, again := each, false;
    if r.Done? {
      again := e.opts.untilSettled && !e.opts.dryRun && progressed && report.interrupted.None? && report.rounds < MAX_ROUNDS;
      OneMoreMade(n, e.opts, total, each, round, progressed, report.interrupted, again);
      rounds := each + [round];
    }
  }

  /** Every pass, round after round, until nothing is applied any more. */
  method RunRounds(e: Engine, passes: seq<Pass>, report: Report, ghost scanned: int)
    returns (r: Io<()>, ghost each: seq<seq<PassReport>>, ghost laps: seq<Lap>)
    requires e.OnDisk() && e.InPlace() && e.Trusted() && e.Recorded() && e.UpToDate()
    requires Scanned(e.seen, e.locked, e.private, e.floors, scanned, e.profiles)
    requires forall i :: 0 <= i < |passes| && Runs(passes[i], e.opts) ==> e.Fits(passes[i])
    requires e.c.kept ==> NoCollision(e.h, e.start)
    requires report.passes == [] && report.rounds == 0 && report.interrupted.None?
    modifies e.disk`fs, e.disk`states, e.disk`serial, e.index`entries
    modifies e`locked, e`gone, e`removals, e`busy, e`unsure, e`profiles, e`seen
    modifies report`passes, report`rounds, report`interrupted
    ensures e.OnDisk() && e.InPlace() && e.Trusted() && e.Recorded()
    ensures e.opts.dryRun ==> e.disk.fs == old(e.disk.fs) && e.disk.states == old(e.disk.states)
    ensures ReportHolds(report, e.opts) && report.passes in Summaries(passes, e.opts, e.Smooth(), r.Done? && report.interrupted.None?)
    ensures Lossless(passes, e.opts) ==> e.removals == old(e.removals)
    ensures r.Done? ==> Settled(report.rounds, report.interrupted, e.opts, each)
    ensures Summed(each, report.passes)
    ensures laps in Laps(e.TermsOf(passes), passes, e.opts) && (r.Done? && report.interrupted.None? ==> |laps| == report.rounds)
  {
    hide Scanned, Engine.OnDisk, Engine.InPlace, Engine.Trusted, Engine.Recorded, Engine.UpToDate;
    r, each, laps := Done(()), [], [];
    ghost var clock := scanned;
    var again := true;
    NothingTold(passes, e.opts, e.Smooth());
    NoneMade(e.opts);
    NoLapYet(e.TermsOf(passes), passes, e.opts, e.View(clock));
    while again
      invariant e.OnDisk() && e.InPlace() && e.Trusted() && e.Recorded()
      invariant again ==> r.Done? && Scanned(e.seen, e.locked, e.private, e.floors, clock, e.profiles) && e.UpToDate()
      invariant again ==> OnGoing(report, passes, e.opts, e.Smooth())
      invariant e.opts.dryRun ==> e.disk.fs == old(e.disk.fs) && e.disk.states == old(e.disk.states)
      invariant ReportHolds(report, e.opts)
      invariant report.passes in Summaries(passes, e.opts, e.Smooth(), !again && r.Done? && report.interrupted.None?)
      invariant Lossless(passes, e.opts) ==> e.removals == old(e.removals)
      invariant if r.Done? then each in Made(report.rounds, e.opts, report.passes, report.interrupted, again)
                else Summed(each, report.passes)
      invariant laps in Laps(e.TermsOf(passes), passes, e.opts)
      invariant r.Done? && report.interrupted.None? ==> laps in LapsTo(e.TermsOf(passes), passes, e.opts, report.rounds, e.View(clock))
      decreases MAX_ROUNDS - report.rounds
    {
      r, again, clock, each, laps := LapAgain(e, passes, report, clock, each, laps);
    }
    if r.Done? {
      MadeSummed(report.rounds, e.opts, report.passes, report.interrupted, again, each);
    }
  }

  /** What the run begins with: its units are dirs, and no name of a temp this process will make hides from the scans. */
  ghost predicate Startable(fs: Fs, units: seq<Path>, private: Component -> bool, pid: nat, serial: nat) {
    && (forall u :: u in units ==> u !in fs.names && !IsTemp(u))
    && (forall p :: p in fs.names && LockedIn(p, units) && OwnTemp(p, pid, serial) ==>
          exists i :: 0 <= i < |units| && Visible(private, units[i], p))
  }

  lemma {:induction false} ThoseApart(a: Adapter, build: Path -> bool, dirs: seq<Path>, k: nat, granted: bool)
    requires k <= |dirs| && DirsApart(dirs)
    ensures DirsApart(Those(a, build, dirs, k, granted))
    ensures forall u :: u in Those(a, build, dirs, k, granted) ==> u in dirs[..k]
  {
    if k > 0 {
      ThoseApart(a, build, dirs, k - 1, granted);
      assert dirs[..k] == dirs[..k - 1] + [dirs[k - 1]];
      var r := Those(a, build, dirs, k - 1, granted);
      forall i | 0 <= i < |r| ensures !Under(r[i], dirs[k - 1]) && !Under(dirs[k - 1], r[i]) {
        assert r[i] in r;
        var j :| 0 <= j < k - 1 && dirs[j] == r[i];
      }
    }
  }

  lemma LockedMaySweep(a: Adapter, build: Path -> bool, dirs: seq<Path>, t: Taken, fs: Fs, private: Component -> bool, pid: nat, serial: nat)
    requires DirsApart(Units(dirs)) && Startable(fs, Units(dirs), private, pid, serial)
    requires Took(a, build, Units(dirs), |Units(dirs)|, t)
    ensures DirsApart(t.locked) && Grew(t.locked, Units(dirs))
    ensures forall u :: u in Units(dirs) ==> u in t.locked || u in t.busy
    ensures forall i :: 0 <= i < |t.locked| ==> t.locked[i] !in fs.names && !IsTemp(t.locked[i])
    ensures forall p :: p in fs.names && LockedIn(p, t.locked) && OwnTemp(p, pid, serial) ==>
              exists i :: 0 <= i < |t.locked| && Visible(private, t.locked[i], p)
  {
    var units := Units(dirs);
    ThoseApart(a, build, units, |units|, true);
    assert units[..|units|] == units;
    UnitsAscending(dirs);
    forall u | u in units ensures u in t.locked || u in t.busy {
      LockedOrBusy(a, build, dirs, t, u);
    }
    FewerMaySweep(units, t.locked, fs, private, pid, serial);
  }

  lemma FewerMaySweep(units: seq<Path>, locked: seq<Path>, fs: Fs, private: Component -> bool, pid: nat, serial: nat)
    requires DirsApart(units) && Startable(fs, units, private, pid, serial) && Grew(locked, units)
    ensures forall i :: 0 <= i < |locked| ==> locked[i] !in fs.names && !IsTemp(locked[i])
    ensures forall p :: p in fs.names && LockedIn(p, locked) && OwnTemp(p, pid, serial) ==>
              exists i :: 0 <= i < |locked| && Visible(private, locked[i], p)
  {
    forall i | 0 <= i < |locked| ensures locked[i] in units {
      assert locked[i] in locked;
    }
    forall p | p in fs.names && LockedIn(p, locked) && OwnTemp(p, pid, serial)
      ensures exists i :: 0 <= i < |locked| && Visible(private, locked[i], p)
    {
      var i :| 0 <= i < |locked| && Under(p, locked[i]);
      var k :| 0 <= k < |units| && units[k] == locked[i];
      assert LockedIn(p, units);
      var j :| 0 <= j < |units| && Visible(private, units[j], p);
      UnderBoth(p, units[j], locked[i]);
      ApartUnits(units, units[j], locked[i]);
    }
  }

  lemma PassesFit(e: Engine, passes: seq<Pass>)
    requires e.c.exact == ClonesOnly(passes, e.opts) && (e.c.kept ==> Lossless(passes, e.opts))
    ensures forall i :: 0 <= i < |passes| && Runs(passes[i], e.opts) ==> e.Fits(passes[i])
  {}

  /** The guards are held: the scan, the sweep, and the rounds. */
  method RunHolding(e: Engine, passes: seq<Pass>, report: Report)
    returns (r: Io<()>, ghost each: seq<seq<PassReport>>, ghost laps: seq<Lap>)
    requires e.OnDisk() && e.Holding() && e.Trusted() && e.Recorded() && e.Sweepable()
    requires e.c.exact == ClonesOnly(passes, e.opts) && (e.c.kept ==> Lossless(passes, e.opts) && NoCollision(e.h, e.start))
    requires report.passes == [] && report.rounds == 0 && report.interrupted.None?
    modifies e.disk`fs, e.disk`states, e.disk`serial, e.index`entries
    modifies e`locked, e`gone, e`removals, e`busy, e`unsure, e`profiles, e`seen
    modifies report`passes, report`rounds, report`interrupted, report`tempsRemoved
    ensures e.OnDisk() && e.Trusted() && e.Recorded()
    ensures e.opts.dryRun ==> e.disk.fs == old(e.disk.fs) && e.disk.states == old(e.disk.states)
    ensures ReportHolds(report, e.opts) && report.passes in Summaries(passes, e.opts, e.Smooth(), r.Done? && report.interrupted.None?)
    ensures Lossless(passes, e.opts) ==> e.removals == old(e.removals)
    ensures r.Done? ==> Settled(report.rounds, report.interrupted, e.opts, each)
    ensures Summed(each, report.passes)
    ensures r.Done? ==> report.tempsRemoved == if e.opts.dryRun then 0 else |TempsIn(old(e.disk.fs), e.private, old(e.locked))|
    ensures laps in Laps(e.TermsOf(passes), passes, e.opts) && (r.Done? && report.interrupted.None? ==> |laps| == report.rounds)
  {
    hide Scanned, Summaries, Engine.Recorded, Engine.Trusted, Engine.OnDisk;
    PassesFit(e, passes);
    NothingTold(passes, e.opts, e.Smooth());
    each, laps := [], [];
    var now: int := *;
    var removed;
    r, removed := e.Begin(now);
    report.tempsRemoved := removed;
    if r.Done? {
      r, each, laps := RunRounds(e, passes, report, now);
    }
  }

  /** How old a file of a unit the run works on must be to be looked at: as old as the unit's guard asks, and of any age under a lock. */
  lemma AgesAsked(a: Adapter, build: Path -> bool, units: seq<Path>, t: Taken, k: nat, mtime: int, now: int)
    requires k < |units| && Treated(a, build, units, t, k) && units[k] in t.locked
    ensures OldIn(t.floors, units[k], mtime, now) <==>
              match a.guard(units[k])
              case Quiet => mtime + 86_400_000_000_000 <= now
              case Immutable => mtime + 3_600_000_000_000 <= now
              case _ => true
  {
    var u := units[k];
    if exists j :: 0 <= j < |t.floors| && t.floors[j].0 == u {
      var j := FirstFloor(t.floors, u);
      assert (u, t.floors[j].1) in t.floors;
    }
    if a.guard(u).Quiet? || a.guard(u).Immutable? {
      var age := if a.guard(u).Quiet? then 24 * 60 * 60 * 1_000_000_000 else 60 * 60 * 1_000_000_000;
      assert (u, age) in t.floors;
      var i :| 0 <= i < |t.floors| && t.floors[i] == (u, age);
    }
  }

  lemma FirstFloor(floors: seq<(Path, nat)>, u: Path) returns (j: nat)
    requires exists j :: 0 <= j < |floors| && floors[j].0 == u
    ensures j < |floors| && floors[j].0 == u && forall i :: 0 <= i < j ==> floors[i].0 != u
  {
    j := 0;
    while floors[j].0 != u
      invariant j < |floors| && forall i :: 0 <= i < j ==> floors[i].0 != u
      invariant exists i :: j <= i < |floors| && floors[i].0 == u
      decreases |floors| - j
    {
      j := j + 1;
    }
  }

  /** What a run promises of the disk, the index and its removals. */
  ghost predicate Promised(c: Rules, a: Fs, from: nat, h: Hasher, units: seq<Path>, taken: Taken, known: Entries, fs: Fs, states: seq<Fs>,
                           m: Entries, removals: seq<Removed>) {
    && fs in Steps(c, a, Dirs(removals)) && states in Histories(from, c, a, Dirs(removals))
    && 0 < from <= |states| && states[|states| - 1] == fs
    && (c.kept ==> removals == [] && Sound(h, m, fs.nodes) && m.Keys <= fs.ever && m in Datings(known, states, from - 1))
    && InTurn(removals)
    && forall x :: x in removals ==>
         Allowed(units, x) && Grew(taken.busy, x.busy) && Grew(taken.unsure, x.unsure) && Grew(x.locked, taken.locked)
  }

  ghost function Promises(c: Rules, a: Fs, from: nat, h: Hasher, units: seq<Path>, taken: Taken, known: Entries, fs: Fs, states: seq<Fs>,
                          m: Entries): iset<seq<Removed>>
  {
    iset removals: seq<Removed> | Promised(c, a, from, h, units, taken, known, fs, states, m, removals)
  }

  ghost predicate RunKept(c: Rules, a: Fs, from: nat, h: Hasher, units: seq<Path>, taken: Taken, known: Entries, fs: Fs, states: seq<Fs>,
                          m: Entries, removals: seq<Removed>) {
    removals in Promises(c, a, from, h, units, taken, known, fs, states, m)
  }

  /** The terms of a run. */
  ghost function RunTerms(c: Rules, disk: Disk, taken: Taken, private: Component -> bool, passes: seq<Pass>, opts: Options,
                          index: Index.HashIndex, h: Hasher): Terms
    reads index
  {
    Terms(private, taken.floors, disk.pid, disk.faulty, opts.dryRun, h, index.now, c.exact, c.kept, Tells(passes))
  }

  /** A run tells of every unit a build held, and else of units it worked on. */
  predicate BusyTells(busy: seq<Path>, taken: Taken) {
    && (forall u :: u in taken.busy ==> u in busy)
    && (forall u :: u in busy ==> u in taken.busy || u in taken.locked)
  }

  /** The run, and what it tells of units in use. */
  method RunToEnd(e: Engine, passes: seq<Pass>, report: Report) returns (r: Io<()>, ghost each: seq<seq<PassReport>>, ghost laps: seq<Lap>)
    requires e.OnDisk() && e.Holding() && e.Trusted() && e.Recorded() && e.Sweepable() && e.c.locked == e.was.locked
    requires e.c.exact == ClonesOnly(passes, e.opts) && (e.c.kept ==> Lossless(passes, e.opts) && NoCollision(e.h, e.start))
    requires report.passes == [] && report.rounds == 0 && report.interrupted.None?
    modifies e.disk`fs, e.disk`states, e.disk`serial, e.index`entries
    modifies e`locked, e`gone, e`removals, e`busy, e`unsure, e`profiles, e`seen
    modifies report`passes, report`rounds, report`interrupted, report`tempsRemoved, report`busy
    ensures e.disk.Valid()
    ensures RunKept(e.c, e.start, e.from, e.h, e.units, e.was, e.known, e.disk.fs, e.disk.states, e.index.entries, e.removals)
    ensures e.opts.dryRun ==> e.disk.fs == old(e.disk.fs) && e.disk.states == old(e.disk.states)
    ensures ReportHolds(report, e.opts) && BusyTells(report.busy, e.was)
    ensures report.passes in Summaries(passes, e.opts, e.Smooth(), r.Done? && report.interrupted.None?)
    ensures Lossless(passes, e.opts) ==> e.removals == old(e.removals)
    ensures r.Done? ==> Settled(report.rounds, report.interrupted, e.opts, each)
    ensures Summed(each, report.passes)
    ensures r.Done? ==> report.tempsRemoved == if e.opts.dryRun then 0 else |TempsIn(old(e.disk.fs), e.private, old(e.locked))|
    ensures laps in Laps(e.TermsOf(passes), passes, e.opts) && (r.Done? && report.interrupted.None? ==> |laps| == report.rounds)
  {
    r, each, laps := RunHolding(e, passes, report);
    report.busy := e.busy;
    IsKept(e.c, e.start, e.from, e.h, e.units, e.was, e.known, e.disk.fs, e.disk.states, e.index.entries, e.removals, e.gone, e.locked, e.busy,
           e.unsure, e.seen);
  }

  /** A run that has its guards. */
  method RunTaken(disk: Disk, taken: Taken, private: Component -> bool, passes: seq<Pass>, opts: Options, index: Index.HashIndex,
                  h: Hasher, report: Report, ghost units: seq<Path>)
    returns (r: Io<()>, ghost removals: seq<Removed>, ghost each: seq<seq<PassReport>>, ghost laps: seq<Lap>)
    requires disk.Valid() && DirsApart(units) && DirsApart(taken.locked) && Grew(taken.locked, units)
    requires forall u :: u in units ==> u in taken.locked || u in taken.busy
    requires forall i :: 0 <= i < |taken.locked| ==> taken.locked[i] !in disk.fs.names && !IsTemp(taken.locked[i])
    requires forall p :: p in disk.fs.names && LockedIn(p, taken.locked) && OwnTemp(p, disk.pid, disk.serial) ==>
               exists i :: 0 <= i < |taken.locked| && Visible(private, taken.locked[i], p)
    requires report.passes == [] && report.rounds == 0 && report.interrupted.None?
    modifies disk`fs, disk`states, disk`serial, index`entries, report
    ensures disk.Valid()
    ensures RunKept(old(RunRules(disk, taken, passes, opts, h, index.entries)), old(disk.fs), |old(disk.states)|, h, units, taken,
                    old(index.entries), disk.fs, disk.states, index.entries, removals)
    ensures opts.dryRun ==> disk.fs == old(disk.fs) && disk.states == old(disk.states)
    ensures ReportHolds(report, opts)
    ensures var c := old(RunRules(disk, taken, passes, opts, h, index.entries));
            && report.passes in Summaries(passes, opts, c.exact && c.kept && !disk.faulty, r.Done? && report.interrupted.None?)
            && laps in Laps(RunTerms(c, disk, taken, private, passes, opts, index, h), passes, opts)
    ensures r.Done? && report.interrupted.None? ==> |laps| == report.rounds
    ensures Lossless(passes, opts) ==> removals == []
    ensures BusyTells(report.busy, taken)
    ensures r.Done? ==> Settled(report.rounds, report.interrupted, opts, each) && report.quiet == taken.quiet
    ensures r.Done? ==> report.tempsRemoved == if opts.dryRun then 0 else |TempsIn(old(disk.fs), private, taken.locked)|
    ensures Summed(each, report.passes)
  {
    ghost var c := RunRules(disk, taken, passes, opts, h, index.entries);
    StepAtStart(c, disk.fs, {});
    report.quiet := taken.quiet;
    var e := new Engine(disk, index, opts, private, taken, h, units, c.exact, c.kept);
    r, each, laps := RunToEnd(e, passes, report);
    removals := e.removals;
  }

  lemma IsKept(c: Rules, a: Fs, from: nat, h: Hasher, units: seq<Path>, taken: Taken, known: Entries, fs: Fs, states: seq<Fs>, m: Entries,
               removals: seq<Removed>, gone: set<Path>, locked: seq<Path>, busy: seq<Path>, unsure: seq<Path>, seen: Fs)
    requires c.locked == taken.locked && fs in Steps(c, a, gone) && states in Histories(from, c, a, gone)
    requires 0 < from <= |states| && states[|states| - 1] == fs
    requires removals in Records(units, taken, c, locked, busy, unsure, gone)
    requires c.kept ==> gone == {} && Knows(h, m, seen, fs) && m in Datings(known, states, from - 1)
    ensures RunKept(c, a, from, h, units, taken, known, fs, states, m, removals)
  {
    assert removals != [] ==> removals[0] in removals && removals[0].dir in Dirs(removals);
  }

  /** A run over the units at `dirs`, each under its guard. */
  method RunWith(disk: Disk, dirs: seq<Path>, adapter: Adapter, locks: LockTable, private: Component -> bool, passes: seq<Pass>,
                 opts: Options, index: Index.HashIndex, h: Hasher)
    returns (r: Io<()>, report: Report, ghost taken: Taken, ghost removals: seq<Removed>, ghost each: seq<seq<PassReport>>, ghost laps: seq<Lap>)
    requires disk.Valid() && locks.mine == {} && locks.tries == multiset{}
    requires DirsApart(Units(dirs)) && Startable(disk.fs, Units(dirs), private, disk.pid, disk.serial)
    modifies disk`fs, disk`states, disk`serial, index`entries, locks`mine, locks`tries
    ensures disk.Valid() && locks.mine == {} && SharedTriedOnce(locks.tries) && fresh(report)
    ensures taken == TakenFrom(adapter, locks.build, Units(dirs), |Units(dirs)|)
    ensures RunKept(old(RunRules(disk, TakenFrom(adapter, locks.build, Units(dirs), |Units(dirs)|), passes, opts, h, index.entries)),
                    old(disk.fs), |old(disk.states)|, h, Units(dirs), taken, old(index.entries), disk.fs, disk.states, index.entries, removals)
    ensures opts.dryRun ==> disk.fs == old(disk.fs) && disk.states == old(disk.states)
    ensures ReportHolds(report, opts)
    ensures var c := old(RunRules(disk, TakenFrom(adapter, locks.build, Units(dirs), |Units(dirs)|), passes, opts, h, index.entries));
            && report.passes in Summaries(passes, opts, c.exact && c.kept && !disk.faulty, r.Done? && report.interrupted.None?)
            && laps in Laps(RunTerms(c, disk, taken, private, passes, opts, index, h), passes, opts)
    ensures r.Done? && report.interrupted.None? ==> |laps| == report.rounds
    ensures NoneNamed(passes, opts) ==> removals == []
    ensures NoneNamed(passes, opts) && old(Knows(h, index.entries, disk.fs, disk.fs) && NoCollision(h, disk.fs)) ==>
              AllStand(old(disk.fs), disk.states, |old(disk.states)|)
    ensures r.Done? ==> BusyTells(report.busy, taken)
    ensures r.Done? ==> Settled(report.rounds, report.interrupted, opts, each) && report.quiet == taken.quiet
    ensures r.Done? ==> report.tempsRemoved == if opts.dryRun then 0 else |TempsIn(old(disk.fs), private, taken.locked)|
    ensures Summed(each, report.passes)
  {
    hide RunKept, Summaries, Settled, AllStand, Treated, Knows, NoCollision, Lossless, ClonesOnly, NoneNamed, Took, TakenFrom, Startable;
    hide DirsApart, Grew, LockedIn, OwnTemp, Visible, IsTemp, Units;
    ghost var a, states, m := disk.fs, disk.states, index.entries;
    report := new Report();
    removals, each, laps := [], [], [];
    taken := TakenFrom(adapter, locks.build, Units(dirs), |Units(dirs)|);
    ghost var c := RunRules(disk, taken, passes, opts, h, m);
    var t := TakeGuards(dirs, adapter, locks);
    if t.Done? {
      TakenIs(adapter, locks.build, Units(dirs), |Units(dirs)|);
      LockedMaySweep(adapter, locks.build, dirs, t.value, disk.fs, private, disk.pid, disk.serial);
      r, removals, each, laps := RunTaken(disk, t.value, private, passes, opts, index, h, report, Units(dirs));
    } else {
      r := Fail(t.error);
      NothingRun(RunRules(disk, taken, passes, opts, h, index.entries), disk.fs, disk.states, h, Units(dirs), taken, index.entries);
      NothingTold(passes, opts, c.exact && c.kept && !disk.faulty);
    }
    NothingLost(c, a, |states|, h, Units(dirs), taken, m, disk.fs, disk.states, index.entries, removals, passes, opts);
    locks.Drop();
  }

  /** Every file that is not a temp is there under its name, with its bytes and its mode, and no other name is but of temps. */
  ghost predicate FilesStand(a: Fs, s: Fs) {
    && (forall p :: a.Has(p) && !IsTemp(p) ==> s.Has(p) && s.At(p).bytes == a.At(p).bytes && s.At(p).mode == a.At(p).mode)
    && (forall p :: s.Has(p) && !IsTemp(p) ==> a.Has(p))
  }

  /** So in every state from the `from`-th on. */
  ghost predicate AllStand(a: Fs, states: seq<Fs>, from: nat) {
    forall i :: from <= i < |states| ==> FilesStand(a, states[i])
  }

  /** What a run with lossless passes promises, and lossy ones that nobody named. */
  lemma NothingLost(c: Rules, a: Fs, from: nat, h: Hasher, units: seq<Path>, taken: Taken, known: Entries, fs: Fs, states: seq<Fs>,
                    m: Entries, removals: seq<Removed>, passes: seq<Pass>, opts: Options)
    requires RunKept(c, a, from, h, units, taken, known, fs, states, m, removals)
    requires Lossless(passes, opts) ==> removals == []
    requires c.kept <==> Lossless(passes, opts) && Knows(h, known, a, a) && NoCollision(h, a)
    ensures NoneNamed(passes, opts) ==> removals == []
    ensures NoneNamed(passes, opts) && Knows(h, known, a, a) && NoCollision(h, a) ==> AllStand(a, states, from)
  {
    if NoneNamed(passes, opts) {
      NoneNamedLossless(passes, opts);
      forall i | c.kept && from <= i < |states| ensures FilesStand(a, states[i]) {
        FilesKept(c, a, from, h, units, taken, known, fs, states, m, removals, i);
      }
    }
  }

  lemma NothingRun(c: Rules, a: Fs, states: seq<Fs>, h: Hasher, units: seq<Path>, taken: Taken, m: Entries)
    requires a.WellFormed() && states != [] && states[|states| - 1] == a && (c.kept ==> Knows(h, m, a, a))
    ensures RunKept(c, a, |states|, h, units, taken, m, a, states, m, [])
  {
    StepAtStart(c, a, Dirs([]));
    DatedAtStart(m, states, |states| - 1);
  }

  /** Lossless passes leave every file that is not a temp as it was, in every state a crash may leave: its bytes and mode,
      its age too where files are cloned, and no name is new. */
  lemma FilesKept(c: Rules, a: Fs, from: nat, h: Hasher, units: seq<Path>, taken: Taken, known: Entries, fs: Fs, states: seq<Fs>,
                  m: Entries, removals: seq<Removed>, i: nat)
    requires RunKept(c, a, from, h, units, taken, known, fs, states, m, removals) && c.kept && from <= i < |states|
    ensures forall p :: a.Has(p) && !IsTemp(p) ==> states[i].Has(p) && SameFile(a.At(p), states[i].At(p), c.exact)
    ensures forall p :: states[i].Has(p) && !IsTemp(p) ==> a.Has(p)
  {
    assert Step(c, a, states[i], Dirs(removals));
    assert Dirs(removals) == {};
    forall p | a.Has(p) && !IsTemp(p) ensures states[i].Has(p) && SameFile(a.At(p), states[i].At(p), c.exact) {
      assert !In(p, {});
    }
  }

  /** Whatever the passes plan, a unit that was busy when the guards were taken is left alone: every name in it stays on its
      inode, and that inode keeps its bytes and mode; no removal ever reached it. */
  lemma BusyUntouched(c: Rules, a: Fs, from: nat, h: Hasher, units: seq<Path>, taken: Taken, known: Entries, fs: Fs, states: seq<Fs>,
                      m: Entries, removals: seq<Removed>, i: nat, u: Path, p: Path)
    requires RunKept(c, a, from, h, units, taken, known, fs, states, m, removals) && from <= i < |states|
    requires a.WellFormed() && DirsApart(units) && c.locked == taken.locked && Grew(taken.locked, units)
    requires u in units && u in taken.busy && u !in taken.locked && Under(p, u)
    ensures p in a.names <==> p in states[i].names
    ensures p in a.names ==> states[i].names[p] == a.names[p] && SameFile(a.At(p), states[i].At(p), c.exact)
  {
    var s := states[i];
    assert Step(c, a, s, Dirs(removals));
    forall x | x in removals ensures !Under(p, x.dir) {
      assert Allowed(units, x);
      if !x.whole {
        var v :| v in x.locked && Under(x.dir, v) && SparesAllBut(units, x.dir, v);
      }
      assert Spares(x.dir, u);
    }
    if LockedIn(p, taken.locked) {
      var k :| 0 <= k < |taken.locked| && Under(p, taken.locked[k]);
      var v := taken.locked[k];
      assert v in taken.locked;
      UnderBoth(p, u, v);
      ApartUnits(units, u, v);
    }
    assert !In(p, Dirs(removals));
    if p in a.names {
      assert s.names[p] in s.nodes && a.names[p] in a.ever;
    }
  }

  /** No removal touches a unit that was unsure when it was let through, or at any time of the run before it. */
  lemma UnsureSpared(c: Rules, a: Fs, from: nat, h: Hasher, units: seq<Path>, taken: Taken, known: Entries, fs: Fs, states: seq<Fs>,
                     m: Entries, removals: seq<Removed>, i: nat, j: nat, u: Path)
    requires RunKept(c, a, from, h, units, taken, known, fs, states, m, removals) && i <= j < |removals|
    requires u in units && (u in taken.unsure || u in removals[i].unsure)
    ensures Spares(removals[j].dir, u)
  {
    assert removals[j] in removals && Allowed(units, removals[j]);
  }

  /** No removal in a whole build dir touches a unit that was busy when it was let through or at any removal before it, be it for a
      build that held its lock or for a file of it found in use. */
  lemma BusySparedByTargets(c: Rules, a: Fs, from: nat, h: Hasher, units: seq<Path>, taken: Taken, known: Entries, fs: Fs, states: seq<Fs>,
                            m: Entries, removals: seq<Removed>, i: nat, j: nat, u: Path)
    requires RunKept(c, a, from, h, units, taken, known, fs, states, m, removals) && i <= j < |removals| && removals[j].whole
    requires u in units && (u in taken.busy || u in removals[i].busy)
    ensures Spares(removals[j].dir, u)
  {
    assert removals[j] in removals && Allowed(units, removals[j]);
  }

  /** What a run cut short leaves behind, whatever the state: names that a later run sweeps away. */
  lemma LeftoversAreTemps(c: Rules, a: Fs, from: nat, h: Hasher, units: seq<Path>, taken: Taken, known: Entries, fs: Fs, states: seq<Fs>,
                          m: Entries, removals: seq<Removed>, i: nat)
    requires RunKept(c, a, from, h, units, taken, known, fs, states, m, removals) && from <= i < |states|
    ensures forall p :: p in states[i].names && p !in a.names ==> IsTemp(p) && OwnTemp(p, c.pid, c.lo) && LockedIn(p, c.locked)
  {
    assert Step(c, a, states[i], Dirs(removals));
  }
}
