/** Which units a run gets, each under the guard its build system names (`ProfileLock`, the first loop of
    `run_with` in `src/engine.rs`, `Guard` in `src/eco/mod.rs`). */
module Guards {
  import opened Order
  import opened Paths
  import opened Files
  import opened Model

  datatype Guard = Held | Lock(file: Path) | Shared(file: Path) | Quiet | Immutable

  /** What a run finds out about the units from outside: the guard of each, and whether its tool runs there. */
  datatype Adapter = Adapter(guard: Path -> Guard, tool: Path -> Option<bool>)

  /** How old a file of a unit without a lock must be: a day, and an hour. */
  const QUIET_MIN_AGE: nat := 86_400_000_000_000
  const IMMUTABLE_MIN_AGE: nat := 3_600_000_000_000

  datatype Taken = Taken(locked: seq<Path>, busy: seq<Path>, quiet: seq<Path>, unsure: seq<Path>, floors: seq<(Path, nat)>)

  predicate HasFile(g: Guard) {
    g.Lock? || g.Shared?
  }

  /** The lock files of the machine. `build` says which a build holds; `there` which exist. */
  class LockTable {
    const build: Path -> bool
    const there: Path -> bool
    const faulty: bool
    /** The locks this run holds. */
    var mine: set<Path>
    /** The guards tried so far. */
    ghost var tries: multiset<Guard>

    constructor (build: Path -> bool, there: Path -> bool, faulty: bool)
      ensures this.build == build && this.there == there && this.faulty == faulty && mine == {} && tries == multiset{}
    {
      this.build, this.there, this.faulty, mine, tries := build, there, faulty, {}, multiset{};
    }

    /** Another handle on a file this run has locked itself is refused like a build's. */
    method TryLockFile(file: Path, create: bool) returns (r: Io<bool>)
      modifies this`mine
      ensures r.Done? ==> r.value == (!build(file) && file !in old(mine))
      ensures mine == if r == Done(true) then old(mine) + {file} else old(mine)
      ensures !faulty && (create || there(file)) ==> r.Done?
    {
      var broken: bool := *;
      var e: IoError := *;
      if (!create && !there(file)) || (faulty && broken) {
        return Fail(e);
      }
      if build(file) || file in mine {
        return Done(false);
      }
      mine := mine + {file};
      return Done(true);
    }

    /** `drop(locks)`. */
    method Drop()
      modifies this`mine
      ensures mine == {}
    {
      mine := {};
    }

    /** Takes the lock `guard` names: `try_guard`. */
    method TryGuard(guard: Guard) returns (r: Io<bool>)
      modifies this`mine, this`tries
      ensures r.Done? ==> !guard.Held? && r.value == (HasFile(guard) && !build(guard.file) && guard.file !in old(mine))
      ensures mine == if r == Done(true) then old(mine) + {guard.file} else old(mine)
      ensures tries == old(tries) + multiset{guard}
      ensures !faulty && !guard.Held? && (guard.Lock? ==> there(guard.file)) ==> r.Done?
    {
      tries := tries + multiset{guard};
      match guard {
        case Lock(file) => r := TryLockFile(file, false);
        case Shared(file) => r := TryLockFile(file, true);
        case Quiet => r := Done(false);
        case Immutable => r := Done(false);
        case Held => r := Fail(Other(0));
      }
    }
  }

  /** `dedup` of a sorted list. */
  function Dedup(s: seq<Path>): seq<Path> {
    if |s| <= 1 then s
    else if s[|s| - 1] == s[|s| - 2] then Dedup(s[..|s| - 1])
    else Dedup(s[..|s| - 1]) + [s[|s| - 1]]
  }

  /** The units in the order their locks are taken. */
  function Units(dirs: seq<Path>): seq<Path> {
    Dedup(Sort(PathLess, (p: Path) => p, dirs))
  }

  lemma {:induction false} DedupAscending(s: seq<Path>)
    requires forall i, j :: 0 <= i < j < |s| ==> !PathLess(s[j], s[i])
    ensures Ascending(Dedup(s))
    ensures forall p :: p in Dedup(s) <==> p in s
    ensures s != [] ==> Dedup(s) != [] && Dedup(s)[|Dedup(s)| - 1] == s[|s| - 1]
  {
    PathOrder();
    if |s| > 1 {
      var front := s[..|s| - 1];
      DedupAscending(front);
      assert s == front + [s[|s| - 1]];
      if s[|s| - 1] != s[|s| - 2] {
        var last := s[|s| - 1];
        assert PathLess(front[|front| - 1], last);
        forall i | 0 <= i < |Dedup(front)| ensures PathLess(Dedup(front)[i], last) {
          assert i == |Dedup(front)| - 1 || PathLess(Dedup(front)[i], front[|front| - 1]);
        }
      }
    }
  }

  /** Every unit once, in the one order all runs keep to. */
  lemma UnitsAscending(dirs: seq<Path>)
    ensures Ascending(Units(dirs))
    ensures forall p :: p in Units(dirs) <==> p in dirs
  {
    PathOrder();
    SortSorted(PathLess, (p: Path) => p, dirs);
    SortMembers(PathLess, (p: Path) => p, dirs);
    DedupAscending(Sort(PathLess, (p: Path) => p, dirs));
  }

  predicate FileIs(a: Adapter, dir: Path, file: Path) {
    HasFile(a.guard(dir)) && a.guard(dir).file == file
  }

  /** The guard of the first of the first `k` units that names `file`. */
  function FirstGuard(a: Adapter, dirs: seq<Path>, k: nat, file: Path): Option<Guard>
    requires k <= |dirs|
  {
    if k == 0 then None
    else if FirstGuard(a, dirs, k - 1, file).Some? then FirstGuard(a, dirs, k - 1, file)
    else if FileIs(a, dirs[k - 1], file) then Some(a.guard(dirs[k - 1]))
    else None
  }

  /** Whether the unit at `k` is the run's. A lock file that another unit's guard named before is this run's own. */
  predicate Granted(a: Adapter, build: Path -> bool, dirs: seq<Path>, k: nat)
    requires k < |dirs|
  {
    match a.guard(dirs[k])
    case Held => false
    case Quiet => a.tool(dirs[k]) != Some(true)
    case Immutable => true
    case Lock(file) => !build(file) && FirstGuard(a, dirs, k, file).None?
    case Shared(file) => !build(file) && FirstGuard(a, dirs, k + 1, file) == Some(Shared(file))
  }

  /** The units of the first `k` that were granted, or that were not. */
  function Those(a: Adapter, build: Path -> bool, dirs: seq<Path>, k: nat, granted: bool): seq<Path>
    requires k <= |dirs|
  {
    if k == 0 then []
    else
      Those(a, build, dirs, k - 1, granted) +
      if Granted(a, build, dirs, k - 1) == granted then [dirs[k - 1]] else []
  }

  /** The units of the first `k` that are worked on without a lock. */
  function Unguarded(a: Adapter, build: Path -> bool, dirs: seq<Path>, k: nat): seq<Path>
    requires k <= |dirs|
  {
    if k == 0 then []
    else
      Unguarded(a, build, dirs, k - 1) +
      if Granted(a, build, dirs, k - 1) && !HasFile(a.guard(dirs[k - 1])) then [dirs[k - 1]] else []
  }

  function FloorOf(a: Adapter, dir: Path): nat {
    if a.guard(dir).Quiet? then QUIET_MIN_AGE else IMMUTABLE_MIN_AGE
  }

  /** Lossy passes keep off these: stores, and units whose tool nobody could look for. */
  predicate Doubtful(a: Adapter, dir: Path) {
    a.guard(dir).Immutable? || (a.guard(dir).Quiet? && a.tool(dir).None?)
  }

  function Doubted(a: Adapter, dirs: seq<Path>, k: nat): seq<Path>
    requires k <= |dirs|
  {
    if k == 0 then []
    else Doubted(a, dirs, k - 1) + if Doubtful(a, dirs[k - 1]) then [dirs[k - 1]] else []
  }

  ghost predicate SharedTriedOnce(tries: multiset<Guard>) {
    forall g :: g in tries && g.Shared? ==> tries[g] == 1
  }

  /** What is known once the guards of the first `k` units were asked: the locks held, and what the shared ones came to. */
  ghost predicate Asked(a: Adapter, build: Path -> bool, dirs: seq<Path>, k: nat, mine: set<Path>, shared: map<Guard, bool>,
                        tries: multiset<Guard>)
    requires k <= |dirs|
  {
    && (forall file :: file in mine <==> !build(file) && FirstGuard(a, dirs, k, file).Some?)
    && (forall g :: g in shared ==>
          && g.Shared? && FirstGuard(a, dirs, k, g.file).Some?
          && (shared[g] <==> !build(g.file) && FirstGuard(a, dirs, k, g.file) == Some(g)))
    && (forall file :: FirstGuard(a, dirs, k, file) == Some(Shared(file)) ==> Shared(file) in shared)
    && SharedTriedOnce(tries)
    && (forall g :: g in tries && g.Shared? ==> g in shared)
  }

  lemma {:induction false} FirstStays(a: Adapter, dirs: seq<Path>, k: nat, l: nat, file: Path)
    requires k <= l <= |dirs| && FirstGuard(a, dirs, k, file).Some?
    ensures FirstGuard(a, dirs, l, file) == FirstGuard(a, dirs, k, file)
  {
    if k < l {
      FirstStays(a, dirs, k, l - 1, file);
    }
  }

  /** A unit whose lock is not tried: it has none, or a shared one tried before. */
  lemma AskedWithout(a: Adapter, build: Path -> bool, dirs: seq<Path>, k: nat, mine: set<Path>, shared: map<Guard, bool>,
                     tries: multiset<Guard>)
    requires k < |dirs| && Asked(a, build, dirs, k, mine, shared, tries)
    requires HasFile(a.guard(dirs[k])) ==> a.guard(dirs[k]) in shared
    ensures Asked(a, build, dirs, k + 1, mine, shared, tries)
    ensures a.guard(dirs[k]) in shared ==> shared[a.guard(dirs[k])] == Granted(a, build, dirs, k)
  {
    forall file ensures FirstGuard(a, dirs, k + 1, file) == FirstGuard(a, dirs, k, file) {}
  }

  lemma AskedTried(a: Adapter, build: Path -> bool, dirs: seq<Path>, k: nat, mine: set<Path>, shared: map<Guard, bool>,
                   tries: multiset<Guard>, held: bool)
    requires k < |dirs| && Asked(a, build, dirs, k, mine, shared, tries)
    requires HasFile(a.guard(dirs[k])) && a.guard(dirs[k]) !in shared
    requires held <==> !build(a.guard(dirs[k]).file) && a.guard(dirs[k]).file !in mine
    ensures held <==> Granted(a, build, dirs, k)
    ensures Asked(a, build, dirs, k + 1, if held then mine + {a.guard(dirs[k]).file} else mine,
                  if a.guard(dirs[k]).Shared? then shared[a.guard(dirs[k]) := held] else shared, tries + multiset{a.guard(dirs[k])})
  {
    var g := a.guard(dirs[k]);
    forall file | file != g.file ensures FirstGuard(a, dirs, k + 1, file) == FirstGuard(a, dirs, k, file) {}
    assert g.Shared? ==> g !in tries;
  }

  /** The locks and tries there may be once the first `k` units were asked. */
  ghost function Asks(a: Adapter, build: Path -> bool, dirs: seq<Path>, k: nat, shared: map<Guard, bool>): iset<(set<Path>, multiset<Guard>)>
    requires k <= |dirs|
  {
    iset held: (set<Path>, multiset<Guard>) | Asked(a, build, dirs, k, held.0, shared, held.1)
  }

  lemma AsksFirst(a: Adapter, build: Path -> bool, dirs: seq<Path>)
    ensures ({}, multiset{}) in Asks(a, build, dirs, 0, map[])
  {}

  lemma AsksTell(a: Adapter, build: Path -> bool, dirs: seq<Path>, k: nat, shared: map<Guard, bool>, mine: set<Path>, tries: multiset<Guard>)
    requires k <= |dirs| && (mine, tries) in Asks(a, build, dirs, k, shared)
    ensures Asked(a, build, dirs, k, mine, shared, tries)
  {}

  /** Asks for one unit: its tool, or its lock, or what its shared lock came to before. */
  method AskGuard(a: Adapter, units: seq<Path>, k: nat, locks: LockTable, shared: map<Guard, bool>)
    returns (r: Io<bool>, more: map<Guard, bool>)
    requires k < |units| && (locks.mine, locks.tries) in Asks(a, locks.build, units, k, shared)
    modifies locks`mine, locks`tries
    ensures SharedTriedOnce(locks.tries)
    ensures r.Done? ==> r.value == Granted(a, locks.build, units, k)
    ensures r.Done? ==> (locks.mine, locks.tries) in Asks(a, locks.build, units, k + 1, more)
    ensures !locks.faulty && !a.guard(units[k]).Held? && (a.guard(units[k]).Lock? ==> locks.there(a.guard(units[k]).file)) ==> r.Done?
  {
    var dir := units[k];
    var guard := a.guard(dir);
    ghost var mine, tries := locks.mine, locks.tries;
    more := shared;
    match guard {
      case Quiet =>
        r := Done(a.tool(dir) != Some(true));
        AskedWithout(a, locks.build, units, k, mine, shared, tries);
      case Immutable =>
        r := Done(true);
        AskedWithout(a, locks.build, units, k, mine, shared, tries);
      case Shared(_) =>
        if guard in shared {
          r := Done(shared[guard]);
          AskedWithout(a, locks.build, units, k, mine, shared, tries);
        } else {
          r := locks.TryGuard(guard);
          if r.Done? {
            AskedTried(a, locks.build, units, k, mine, shared, tries, r.value);
            more := shared[guard := r.value];
          }
        }
      case Lock(_) =>
        r := locks.TryGuard(guard);
        if r.Done? {
          AskedTried(a, locks.build, units, k, mine, shared, tries, r.value);
        }
      case Held =>
        r := locks.TryGuard(guard);
    }
  }

  /** One more unit, `held` or not. */
  function WithUnit(a: Adapter, t: Taken, dir: Path, held: bool): Taken {
    var open := held && !HasFile(a.guard(dir));
    Taken(t.locked + if held then [dir] else [], t.busy + if held then [] else [dir], t.quiet + if open then [dir] else [],
          t.unsure + if Doubtful(a, dir) then [dir] else [], t.floors + if open then [(dir, FloorOf(a, dir))] else [])
  }

  ghost predicate Took(a: Adapter, build: Path -> bool, units: seq<Path>, k: nat, t: Taken)
    requires k <= |units|
  {
    && t.locked == Those(a, build, units, k, true) && t.busy == Those(a, build, units, k, false)
    && t.quiet == Unguarded(a, build, units, k) && t.unsure == Doubted(a, units, k)
    && forall u, floor :: (u, floor) in t.floors <==> u in t.quiet && floor == FloorOf(a, u)
  }

  function TakenFrom(a: Adapter, build: Path -> bool, units: seq<Path>, k: nat): Taken
    requires k <= |units|
  {
    if k == 0 then Taken([], [], [], [], [])
    else WithUnit(a, TakenFrom(a, build, units, k - 1), units[k - 1], Granted(a, build, units, k - 1))
  }

  lemma {:induction false} TakenIs(a: Adapter, build: Path -> bool, units: seq<Path>, k: nat)
    requires k <= |units|
    ensures Took(a, build, units, k, TakenFrom(a, build, units, k))
  {
    if k > 0 {
      TakenIs(a, build, units, k - 1);
    }
  }

  /** What a run must have made of the unit at `k`, guard by guard. One without a lock is busy only if its tool runs there, and is else told
      of as quiet, with files a day old, or in a store an hour, taken for settled. One with a lock is the run's if no build holds the
      file and no unit before it took the file otherwise: nobody takes a lock twice, but units may share one. */
  ghost predicate Treated(a: Adapter, build: Path -> bool, units: seq<Path>, t: Taken, k: nat)
    requires k < |units|
  {
    var u := units[k];
    && (u in t.busy <==> u !in t.locked)
    && match a.guard(u)
       case Held => u in t.busy
       case Quiet =>
         && (u in t.busy <==> a.tool(u) == Some(true)) && (u in t.unsure <==> a.tool(u) == None) && (u in t.quiet <==> u !in t.busy)
         && forall age :: (u, age) in t.floors <==> u !in t.busy && age == 24 * 60 * 60 * 1_000_000_000
       case Immutable =>
         && u !in t.busy && u in t.unsure && u in t.quiet
         && forall age :: (u, age) in t.floors <==> age == 60 * 60 * 1_000_000_000
       case Lock(file) =>
         && (u in t.locked <==>
               !build(file) && forall i :: 0 <= i < k && units[i] in t.locked ==> a.guard(units[i]) !in {Lock(file), Shared(file)})
         && u !in t.unsure && u !in t.quiet && forall age :: (u, age) !in t.floors
       case Shared(file) =>
         && (u in t.locked <==> !build(file) && forall i :: 0 <= i < k && units[i] in t.locked ==> a.guard(units[i]) != Lock(file))
         && u !in t.unsure && u !in t.quiet && forall age :: (u, age) !in t.floors
  }

  /** So much for one unit, by itself. */
  lemma TreatedAlone(a: Adapter, build: Path -> bool, dirs: seq<Path>, t: Taken, k: nat)
    requires Took(a, build, Units(dirs), |Units(dirs)|, t) && k < |Units(dirs)|
    ensures var u := Units(dirs)[k];
            && (u in t.locked <==> Granted(a, build, Units(dirs), k)) && (u in t.busy <==> !Granted(a, build, Units(dirs), k))
            && (u in t.quiet <==> u in t.locked && !HasFile(a.guard(u))) && (u in t.unsure <==> Doubtful(a, u))
  {
    var units := Units(dirs);
    var u := units[k];
    assert units[..|units|] == units;
    LockedAt(a, build, dirs, t, k);
    UnguardedAt(a, build, units, |units|, u);
    DoubtedAt(a, units, |units|, u);
  }

  /** A lock file that is free went to the first unit that names it. */
  lemma TakenBefore(a: Adapter, build: Path -> bool, dirs: seq<Path>, t: Taken, k: nat, file: Path)
    requires Took(a, build, Units(dirs), |Units(dirs)|, t) && k <= |Units(dirs)| && !build(file)
    ensures var first := FirstGuard(a, Units(dirs), k, file);
            if first.None? then forall i :: 0 <= i < k ==> !FileIs(a, Units(dirs)[i], file)
            else exists i :: 0 <= i < k && Units(dirs)[i] in t.locked && first == Some(a.guard(Units(dirs)[i])) && FileIs(a, Units(dirs)[i], file)
  {
    var units := Units(dirs);
    NamedByOne(a, units, k, file);
    if FirstGuard(a, units, k, file).Some? {
      var i := FirstAt(a, units, k, file);
      FirstStays(a, units, i + 1, k, file);
      LockedAt(a, build, dirs, t, i);
    }
  }

  /** The first unit to name a file. */
  lemma {:induction false} FirstAt(a: Adapter, units: seq<Path>, k: nat, file: Path) returns (i: nat)
    requires k <= |units| && FirstGuard(a, units, k, file).Some?
    ensures i < k && FileIs(a, units[i], file) && FirstGuard(a, units, i, file).None?
    ensures FirstGuard(a, units, k, file) == Some(a.guard(units[i]))
  {
    if FirstGuard(a, units, k - 1, file).Some? {
      i := FirstAt(a, units, k - 1, file);
    } else {
      i := k - 1;
    }
  }

  /** Every unit is treated as its guard says. */
  lemma TreatedWell(a: Adapter, build: Path -> bool, dirs: seq<Path>, t: Taken, k: nat)
    requires Took(a, build, Units(dirs), |Units(dirs)|, t) && k < |Units(dirs)|
    ensures Treated(a, build, Units(dirs), t, k)
  {
    var units := Units(dirs);
    TreatedAlone(a, build, dirs, t, k);
    if HasFile(a.guard(units[k])) && !build(a.guard(units[k]).file) {
      TakenBefore(a, build, dirs, t, k, a.guard(units[k]).file);
      LockTaken(a, build, dirs, t, k);
    }
  }

  lemma LockTaken(a: Adapter, build: Path -> bool, dirs: seq<Path>, t: Taken, k: nat)
    requires Took(a, build, Units(dirs), |Units(dirs)|, t) && k < |Units(dirs)|
    requires HasFile(a.guard(Units(dirs)[k])) && !build(a.guard(Units(dirs)[k]).file)
    ensures var units := Units(dirs);
            Granted(a, build, units, k) <==>
              forall i :: 0 <= i < k && units[i] in t.locked ==>
                a.guard(units[i]) != Lock(a.guard(units[k]).file) && (a.guard(units[k]).Lock? ==> a.guard(units[i]) != Shared(a.guard(units[k]).file))
  {
    var units := Units(dirs);
    var file := a.guard(units[k]).file;
    TakenBefore(a, build, dirs, t, k, file);
    forall i | 0 <= i < k && units[i] in t.locked && FileIs(a, units[i], file)
      ensures a.guard(units[i]).Lock? ==> FirstGuard(a, units, k, file) == Some(Lock(file))
      ensures FirstGuard(a, units, k, file).Some?
    {
      LockedAt(a, build, dirs, t, i);
      FirstStays(a, units, i + 1, k, file);
    }
  }

  /** The guards of all units, each tried in turn, a shared one once. */
  method TakeGuards(dirs: seq<Path>, a: Adapter, locks: LockTable) returns (r: Io<Taken>)
    requires locks.mine == {} && locks.tries == multiset{}
    modifies locks`mine, locks`tries
    ensures SharedTriedOnce(locks.tries)
    ensures r.Done? ==> r.value == TakenFrom(a, locks.build, Units(dirs), |Units(dirs)|)
    ensures r.Done? ==> forall k :: 0 <= k < |Units(dirs)| ==> Treated(a, locks.build, Units(dirs), r.value, k)
    ensures r.Done? ==> forall file ::
              file in locks.mine <==> !locks.build(file) && exists u :: u in dirs && FileIs(a, u, file)
    ensures !locks.faulty && (forall u :: u in dirs ==> !a.guard(u).Held? && (a.guard(u).Lock? ==> locks.there(a.guard(u).file))) ==>
              r.Done?
  {
    var units := Units(dirs);
    UnitsAscending(dirs);
    r := TryAll(units, a, locks);
    LocksAreNamed(a, dirs);
    TakenIs(a, locks.build, units, |units|);
    forall k | 0 <= k < |units| {
      TreatedWell(a, locks.build, dirs, TakenFrom(a, locks.build, units, |units|), k);
    }
  }

  method TryAll(units: seq<Path>, a: Adapter, locks: LockTable) returns (r: Io<Taken>)
    requires locks.mine == {} && locks.tries == multiset{}
    modifies locks`mine, locks`tries
    ensures SharedTriedOnce(locks.tries)
    ensures r.Done? ==> r.value == TakenFrom(a, locks.build, units, |units|)
    ensures r.Done? ==> forall file :: file in locks.mine <==> !locks.build(file) && FirstGuard(a, units, |units|, file).Some?
    ensures !locks.faulty && (forall u :: u in units ==> !a.guard(u).Held? && (a.guard(u).Lock? ==> locks.there(a.guard(u).file))) ==>
              r.Done?
  {
    var t := Taken([], [], [], [], []);
    var shared: map<Guard, bool> := map[];
    AsksFirst(a, locks.build, units);
    for k := 0 to |units|
      invariant t == TakenFrom(a, locks.build, units, k)
      invariant (locks.mine, locks.tries) in Asks(a, locks.build, units, k, shared)
    {
      var held;
      held, shared := AskGuard(a, units, k, locks, shared);
      if held.Fail? {
        return Fail(held.error);
      }
      t := WithUnit(a, t, units[k], held.value);
    }
    r := Done(t);
    AsksTell(a, locks.build, units, |units|, shared, locks.mine, locks.tries);
  }

  lemma LocksAreNamed(a: Adapter, dirs: seq<Path>)
    ensures forall file :: FirstGuard(a, Units(dirs), |Units(dirs)|, file).Some? <==> exists u :: u in dirs && FileIs(a, u, file)
  {
    var units := Units(dirs);
    UnitsAscending(dirs);
    forall file ensures FirstGuard(a, units, |units|, file).Some? <==> exists u :: u in dirs && FileIs(a, u, file) {
      NamedByOne(a, units, |units|, file);
      if exists u :: u in dirs && FileIs(a, u, file) {
        var u :| u in dirs && FileIs(a, u, file);
        var i :| 0 <= i < |units| && units[i] == u;
      }
    }
  }

  lemma {:induction false} NamedByOne(a: Adapter, dirs: seq<Path>, k: nat, file: Path)
    requires k <= |dirs|
    ensures FirstGuard(a, dirs, k, file).Some? <==> exists i :: 0 <= i < k && FileIs(a, dirs[i], file)
    ensures FirstGuard(a, dirs, k, file).Some? ==>
              exists i :: 0 <= i < k && FileIs(a, dirs[i], file) && FirstGuard(a, dirs, k, file) == Some(a.guard(dirs[i]))
  {
    if k > 0 {
      NamedByOne(a, dirs, k - 1, file);
    }
  }

  lemma {:induction false} ThoseAt(a: Adapter, build: Path -> bool, dirs: seq<Path>, k: nat, granted: bool, u: Path)
    requires k <= |dirs|
    ensures u in Those(a, build, dirs, k, granted) <==> exists i :: 0 <= i < k && dirs[i] == u && Granted(a, build, dirs, i) == granted
  {
    if k > 0 {
      ThoseAt(a, build, dirs, k - 1, granted, u);
    }
  }

  lemma Once(dirs: seq<Path>, i: nat, j: nat)
    requires Ascending(dirs) && i < |dirs| && j < |dirs| && dirs[i] == dirs[j]
    ensures i == j
  {
    PathOrder();
  }

  /** Every unit is the run's or busy, never both, and nothing else is. */
  lemma LockedOrBusy(a: Adapter, build: Path -> bool, dirs: seq<Path>, t: Taken, u: Path)
    requires Took(a, build, Units(dirs), |Units(dirs)|, t)
    ensures u in dirs <==> u in t.locked || u in t.busy
    ensures !(u in t.locked && u in t.busy)
  {
    var units := Units(dirs);
    UnitsAscending(dirs);
    ThoseAt(a, build, units, |units|, true, u);
    ThoseAt(a, build, units, |units|, false, u);
    if u in t.locked && u in t.busy {
      var i :| 0 <= i < |units| && units[i] == u && Granted(a, build, units, i) == true;
      var j :| 0 <= j < |units| && units[j] == u && Granted(a, build, units, j) == false;
      Once(units, i, j);
    }
  }

  lemma LockedAt(a: Adapter, build: Path -> bool, dirs: seq<Path>, t: Taken, k: nat)
    requires Took(a, build, Units(dirs), |Units(dirs)|, t) && k < |Units(dirs)|
    ensures Units(dirs)[k] in t.locked <==> Granted(a, build, Units(dirs), k)
    ensures Units(dirs)[k] in t.busy <==> !Granted(a, build, Units(dirs), k)
  {
    var units := Units(dirs);
    UnitsAscending(dirs);
    ThoseAt(a, build, units, |units|, true, units[k]);
    ThoseAt(a, build, units, |units|, false, units[k]);
    forall i | 0 <= i < |units| && units[i] == units[k] ensures i == k { Once(units, i, k); }
  }

  /** Units under one shared guard are all in or all out. */
  lemma SharedTogether(a: Adapter, build: Path -> bool, dirs: seq<Path>, t: Taken, u: Path, v: Path)
    requires Took(a, build, Units(dirs), |Units(dirs)|, t)
    requires u in dirs && v in dirs && a.guard(u) == a.guard(v) && a.guard(u).Shared?
    ensures u in t.locked <==> v in t.locked
  {
    UnitsAscending(dirs);
    var i :| 0 <= i < |Units(dirs)| && Units(dirs)[i] == u;
    var j :| 0 <= j < |Units(dirs)| && Units(dirs)[j] == v;
    LockedAt(a, build, dirs, t, i);
    LockedAt(a, build, dirs, t, j);
    GrantedTogether(a, build, Units(dirs), i, j);
  }

  lemma GrantedTogether(a: Adapter, build: Path -> bool, units: seq<Path>, i: nat, j: nat)
    requires i < |units| && j < |units| && a.guard(units[i]) == a.guard(units[j]) && a.guard(units[i]).Shared?
    ensures Granted(a, build, units, i) <==> Granted(a, build, units, j)
  {
    FirstStays(a, units, i + 1, |units|, a.guard(units[i]).file);
    FirstStays(a, units, j + 1, |units|, a.guard(units[i]).file);
  }

  /** No lock file that is free guards two units, but under one shared guard. */
  ghost predicate FilesApart(a: Adapter, build: Path -> bool, dirs: seq<Path>) {
    forall u, v, file :: u in dirs && v in dirs && u != v && FileIs(a, u, file) && FileIs(a, v, file) && !build(file) ==>
      a.guard(u) == a.guard(v) == Shared(file)
  }

  /** A unit with a lock is called busy because of a lock this run itself holds. */
  ghost predicate BlocksItself(a: Adapter, build: Path -> bool, t: Taken, u: Path) {
    HasFile(a.guard(u)) && u in t.busy && !build(a.guard(u).file)
  }

  lemma RefusedNeedsAnother(a: Adapter, build: Path -> bool, units: seq<Path>, k: nat, file: Path) returns (i: nat)
    requires k < |units| && Ascending(units) && FileIs(a, units[k], file) && !build(file) && !Granted(a, build, units, k)
    ensures i < |units| && units[i] != units[k] && FileIs(a, units[i], file)
    ensures !(a.guard(units[i]) == a.guard(units[k]) == Shared(file))
  {
    NamedByOne(a, units, k, file);
    i :| 0 <= i < k && FileIs(a, units[i], file) && FirstGuard(a, units, k, file) == Some(a.guard(units[i]));
    PathOrder();
  }

  lemma BlockedByAnother(a: Adapter, build: Path -> bool, dirs: seq<Path>, t: Taken, u: Path)
    requires Took(a, build, Units(dirs), |Units(dirs)|, t) && u in dirs && BlocksItself(a, build, t, u)
    ensures !FilesApart(a, build, dirs)
  {
    UnitsAscending(dirs);
    var k :| 0 <= k < |Units(dirs)| && Units(dirs)[k] == u;
    LockedAt(a, build, dirs, t, k);
    var i := RefusedNeedsAnother(a, build, Units(dirs), k, a.guard(u).file);
    assert Units(dirs)[i] in dirs && FileIs(a, u, a.guard(u).file);
  }

  lemma SecondIsBlocked(a: Adapter, build: Path -> bool, dirs: seq<Path>, t: Taken, i: nat, j: nat, file: Path)
    requires Took(a, build, Units(dirs), |Units(dirs)|, t) && i < j < |Units(dirs)|
    requires FileIs(a, Units(dirs)[i], file) && FileIs(a, Units(dirs)[j], file) && !build(file)
    requires !(a.guard(Units(dirs)[i]) == a.guard(Units(dirs)[j]) == Shared(file))
    ensures BlocksItself(a, build, t, Units(dirs)[i]) || BlocksItself(a, build, t, Units(dirs)[j])
  {
    LockedAt(a, build, dirs, t, i);
    LockedAt(a, build, dirs, t, j);
    OneIsRefused(a, build, Units(dirs), i, j, file);
  }

  /** The first unit to name the file gets it, and one after it only by sharing. */
  lemma OneIsRefused(a: Adapter, build: Path -> bool, units: seq<Path>, i: nat, j: nat, file: Path)
    requires i < j < |units| && FileIs(a, units[i], file) && FileIs(a, units[j], file)
    requires !(a.guard(units[i]) == a.guard(units[j]) == Shared(file))
    ensures !Granted(a, build, units, i) || !Granted(a, build, units, j)
  {
    FirstStays(a, units, i + 1, j, file);
    FirstStays(a, units, i + 1, j + 1, file);
  }

  /** No unit is called busy because of a lock this run itself holds, if and only if the lock files that are free
      are apart. */
  lemma NeverItsOwnLock(a: Adapter, build: Path -> bool, dirs: seq<Path>, t: Taken)
    requires Took(a, build, Units(dirs), |Units(dirs)|, t)
    ensures (forall u :: u in dirs ==> !BlocksItself(a, build, t, u)) <==> FilesApart(a, build, dirs)
  {
    UnitsAscending(dirs);
    forall u | u in dirs && BlocksItself(a, build, t, u) ensures !FilesApart(a, build, dirs) {
      BlockedByAnother(a, build, dirs, t, u);
    }
    if !FilesApart(a, build, dirs) {
      var u := SomeIsBlocked(a, build, dirs, t);
    }
  }

  lemma NotApart(a: Adapter, build: Path -> bool, dirs: seq<Path>) returns (i: nat, j: nat, file: Path)
    requires !FilesApart(a, build, dirs)
    ensures i < j < |Units(dirs)| && FileIs(a, Units(dirs)[i], file) && FileIs(a, Units(dirs)[j], file) && !build(file)
    ensures !(a.guard(Units(dirs)[i]) == a.guard(Units(dirs)[j]) == Shared(file))
  {
    var u, v, f :| u in dirs && v in dirs && u != v && FileIs(a, u, f) && FileIs(a, v, f) && !build(f)
      && !(a.guard(u) == a.guard(v) == Shared(f));
    i := PlaceOf(dirs, u);
    j := PlaceOf(dirs, v);
    file := f;
    if j < i {
      i, j := j, i;
    }
  }

  lemma SomeIsBlocked(a: Adapter, build: Path -> bool, dirs: seq<Path>, t: Taken) returns (w: Path)
    requires Took(a, build, Units(dirs), |Units(dirs)|, t) && !FilesApart(a, build, dirs)
    ensures w in dirs && BlocksItself(a, build, t, w)
  {
    UnitsAscending(dirs);
    var i, j, file := NotApart(a, build, dirs);
    SecondIsBlocked(a, build, dirs, t, i, j, file);
    w := if BlocksItself(a, build, t, Units(dirs)[i]) then Units(dirs)[i] else Units(dirs)[j];
  }

  lemma PlaceOf(dirs: seq<Path>, u: Path) returns (i: nat)
    requires u in dirs
    ensures i < |Units(dirs)| && Units(dirs)[i] == u
  {
    UnitsAscending(dirs);
    i :| 0 <= i < |Units(dirs)| && Units(dirs)[i] == u;
  }

  /** Every unit of the run has its lock held by it, or is told of as worked on without one, with an age floor; and it is told of as
      unsure exactly if it is a store or nobody could look for its tool. */
  lemma LockedOrQuiet(a: Adapter, build: Path -> bool, dirs: seq<Path>, t: Taken, mine: set<Path>, u: Path)
    requires Took(a, build, Units(dirs), |Units(dirs)|, t) && u in t.locked
    requires forall file :: file in mine <==> !build(file) && exists v :: v in dirs && FileIs(a, v, file)
    ensures if HasFile(a.guard(u)) then a.guard(u).file in mine else u in t.quiet && (u, FloorOf(a, u)) in t.floors
    ensures u in t.unsure <==> Doubtful(a, u)
  {
    var units := Units(dirs);
    assert units[..|units|] == units;
    UnitsAscending(dirs);
    ThoseAt(a, build, units, |units|, true, u);
    UnguardedAt(a, build, units, |units|, u);
    DoubtedAt(a, units, |units|, u);
    if HasFile(a.guard(u)) {
      assert FileIs(a, u, a.guard(u).file);
    }
  }

  lemma {:induction false} UnguardedAt(a: Adapter, build: Path -> bool, dirs: seq<Path>, k: nat, u: Path)
    requires k <= |dirs|
    ensures u in Unguarded(a, build, dirs, k) <==> u in Those(a, build, dirs, k, true) && !HasFile(a.guard(u))
  {
    if k > 0 {
      UnguardedAt(a, build, dirs, k - 1, u);
    }
  }

  lemma {:induction false} DoubtedAt(a: Adapter, dirs: seq<Path>, k: nat, u: Path)
    requires k <= |dirs|
    ensures u in Doubted(a, dirs, k) <==> u in dirs[..k] && Doubtful(a, u)
  {
    if k > 0 {
      DoubtedAt(a, dirs, k - 1, u);
      assert dirs[..k] == dirs[..k - 1] + [dirs[k - 1]];
    }
  }
}
