/** What a run may do to the files of a build, as relations between an earlier and a later state. */
module Preserve {
  import opened Paths
  import opened Files

  /** The same file to a build: its bytes, its mode and its age. Where a hardlink may have been put
      in place (`exact` is false) a file may read younger than it was, never older. */
  ghost predicate SameFile(x: Node, y: Node, exact: bool) {
    && x.bytes == y.bytes
    && x.mode == y.mode
    && x.mtime <= y.mtime
    && (exact ==> x.mtime == y.mtime)
  }

  /** No inode is written in place: whichever survives is the same file, and the others are new. Without
      hardlinks (`exact`) none that was there gains a name. */
  ghost predicate Stable(a: Fs, b: Fs, exact: bool) {
    && a.ever <= b.ever
    && (forall id :: id in b.nodes ==>
          || id !in a.ever
          || (id in a.nodes && SameFile(a.nodes[id], b.nodes[id], exact) && b.nodes[id].flags == a.nodes[id].flags))
    && (exact ==> forall p :: p in b.names && b.names[p] in a.ever ==> p in a.names && a.names[p] == b.names[p])
  }

  ghost predicate In(p: Path, dirs: set<Path>) {
    exists d :: d in dirs && Under(p, d)
  }

  /** Every file that is neither a temp nor under a removed dir reads as it did, and none is new. */
  ghost predicate Kept(a: Fs, b: Fs, gone: set<Path>, exact: bool) {
    && (forall p :: a.Has(p) && !IsTemp(p) && !In(p, gone) ==> b.Has(p) && SameFile(a.At(p), b.At(p), exact))
    && (forall p :: b.Has(p) && !IsTemp(p) ==> a.Has(p))
  }

  /** Outside the locked units and the removed dirs every name is on the inode it was on. */
  ghost predicate Confined(a: Fs, b: Fs, locked: seq<Path>, gone: set<Path>) {
    forall p :: !LockedIn(p, locked) && !In(p, gone) ==>
                  && (p in a.names <==> p in b.names)
                  && (p in a.names ==> b.names[p] == a.names[p])
  }

  /** What is new is a temp of this process, in a locked unit. */
  ghost predicate NewAreTemps(a: Fs, b: Fs, locked: seq<Path>, pid: nat, lo: nat) {
    forall p :: p in b.names && p !in a.names ==> OwnTemp(p, pid, lo) && LockedIn(p, locked)
  }

  lemma StableTransitive(a: Fs, b: Fs, c: Fs, exact: bool)
    requires Stable(a, b, exact) && Stable(b, c, exact)
    ensures Stable(a, c, exact)
  {}

  lemma KeptTransitive(a: Fs, b: Fs, c: Fs, gone: set<Path>, more: set<Path>, exact: bool)
    requires Kept(a, b, gone, exact) && Kept(b, c, more, exact) && gone <= more
    ensures Kept(a, c, more, exact)
  {
    forall p | a.Has(p) && !IsTemp(p) && !In(p, more)
      ensures c.Has(p) && SameFile(a.At(p), c.At(p), exact)
    {
      assert !In(p, gone);
    }
  }

  lemma ConfinedTransitive(a: Fs, b: Fs, c: Fs, locked: seq<Path>, gone: set<Path>, more: set<Path>)
    requires Confined(a, b, locked, gone) && Confined(b, c, locked, more) && gone <= more
    ensures Confined(a, c, locked, more)
  {
    forall p | !LockedIn(p, locked) && !In(p, more)
      ensures (p in a.names <==> p in c.names) && (p in a.names ==> c.names[p] == a.names[p])
    {
      assert !In(p, gone);
    }
  }

  /** Under which rules a stretch of a run works. `kept` says that its actions are vouched for. */
  datatype Rules = Rules(locked: seq<Path>, pid: nat, lo: nat, exact: bool, kept: bool)

  /** What a stretch of a run that began in `a` may have made of it, with the dirs `gone` removed. */
  ghost predicate Step(c: Rules, a: Fs, s: Fs, gone: set<Path>) {
    && s.WellFormed()
    && Stable(a, s, c.exact)
    && Confined(a, s, c.locked, gone)
    && NewAreTemps(a, s, c.locked, c.pid, c.lo)
    && (c.kept ==> Kept(a, s, gone, c.exact))
  }

  ghost function Steps(c: Rules, a: Fs, gone: set<Path>): iset<Fs> {
    iset s: Fs | Step(c, a, s, gone)
  }

  ghost predicate AllSteps(states: seq<Fs>, from: nat, c: Rules, a: Fs, gone: set<Path>) {
    forall i :: from <= i < |states| ==> Step(c, a, states[i], gone)
  }

  /** The histories that from `from` on hold nothing but such states. */
  ghost function Histories(from: nat, c: Rules, a: Fs, gone: set<Path>): iset<seq<Fs>> {
    iset states: seq<Fs> | AllSteps(states, from, c, a, gone)
  }

  lemma StepAtStart(c: Rules, a: Fs, gone: set<Path>)
    requires a.WellFormed()
    ensures a in Steps(c, a, gone)
  {}

  /** The rules `d` of a later stretch are no looser than `c`. */
  ghost predicate Within(d: Rules, c: Rules) {
    && (forall p :: LockedIn(p, d.locked) ==> LockedIn(p, c.locked))
    && d.pid == c.pid && d.lo >= c.lo
    && (c.exact ==> d.exact) && (c.kept ==> d.kept)
  }

  lemma StepWidens(d: Rules, c: Rules, a: Fs, s: Fs, gone: set<Path>)
    requires Within(d, c) && s in Steps(d, a, gone)
    ensures s in Steps(c, a, gone)
  {}

  lemma StepThenStep(c: Rules, a: Fs, b: Fs, s: Fs, gone: set<Path>, more: set<Path>)
    requires b in Steps(c, a, gone) && s in Steps(c, b, more) && gone <= more
    ensures s in Steps(c, a, more)
  {
    StableTransitive(a, b, s, c.exact);
    ConfinedTransitive(a, b, s, c.locked, gone, more);
    if c.kept {
      KeptTransitive(a, b, s, gone, more, c.exact);
    }
  }

  lemma HistoryOneMore(states: seq<Fs>, from: nat, s: Fs, c: Rules, a: Fs, gone: set<Path>)
    requires states in Histories(from, c, a, gone) && s in Steps(c, a, gone)
    ensures states + [s] in Histories(from, c, a, gone)
  {}

  lemma HistoryJoin(states: seq<Fs>, more: seq<Fs>, from: nat, c: Rules, a: Fs, gone: set<Path>)
    requires states in Histories(from, c, a, gone) && Grown(states, more) && more in Histories(|states|, c, a, gone)
    ensures more in Histories(from, c, a, gone)
  {
    forall i | from <= i < |more| ensures Step(c, a, more[i], gone) {
      assert i < |states| ==> more[i] == states[i];
    }
  }

  /** A later stretch, seen from where the run began. */
  lemma HistoryFromStart(states: seq<Fs>, from: nat, d: Rules, c: Rules, a: Fs, b: Fs, gone: set<Path>, more: set<Path>)
    requires Within(d, c) && b in Steps(c, a, gone) && states in Histories(from, d, b, more) && gone <= more
    ensures states in Histories(from, c, a, more)
  {
    forall i | from <= i < |states| ensures Step(c, a, states[i], more) {
      assert states[i] in Steps(d, b, more);
      StepWidens(d, c, b, states[i], more);
      StepThenStep(c, a, b, states[i], gone, more);
    }
  }
}
