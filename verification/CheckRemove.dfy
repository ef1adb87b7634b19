/** Chosen without a lock, removed under it: builds may run anywhere between the inventory and the lock
    (`Evict::plan`, `Incremental::plan`, and the order of things in `src/session.rs` and `src/engine.rs`). */
module CheckRemove {
  import opened Paths
  import opened Model
  import opened Evict
  import Rules = Removal

  /** `used` is when each profile dir that was ever built was built last, which its adapter tells. */
  datatype World = World(used: map<Path, nat>, locked: set<Path>, inventory: seq<Target>, profiles: seq<Profile>)

  datatype Event =
    | Built(dir: Path, at: nat)
    | Looked(targets: seq<Target>)
    | Locked(dirs: set<Path>)
    | Scanned(profiles: seq<Profile>)
    | Removed(info: ProfileInfo)
    | RemovedWhole(target: Path, listed: seq<ProfileInfo>)
    | Released

  function LastOf(w: World, dir: Path): Option<nat> {
    if dir in w.used then Some(w.used[dir]) else None
  }

  /** The inventory of a target: its profile dirs as they are, and every one that was ever built. */
  ghost predicate Lists(w: World, t: Target) {
    && (forall p :: p in t.profiles ==> Under(p.dir, t.root) && LastOf(w, p.dir) == p.built)
    && Relisted(w, t.root, t.profiles)
  }

  /** No profile dir of the target was ever built that is not among `profiles`. */
  ghost predicate Relisted(w: World, target: Path, profiles: seq<ProfileInfo>) {
    forall d :: d in w.used && Under(d, target) ==> IsListed(profiles, d)
  }

  predicate IsListed(profiles: seq<ProfileInfo>, dir: Path) {
    exists i :: 0 <= i < |profiles| && profiles[i].dir == dir
  }

  /** Builds keep off what is locked, and each is later than the one before; inventory and scan tell what is; and what
      is removed was in the inventory and is unbuilt since by the scan: the profile, or every listed profile of a target. */
  ghost predicate Allowed(w: World, e: Event) {
    match e
    case Built(dir, at) => dir !in w.locked && (dir in w.used ==> w.used[dir] < at)
    case Looked(targets) => forall t :: t in targets ==> Lists(w, t)
    case Locked(_) => true
    case Scanned(profiles) => forall p :: p in profiles ==> p.dir in w.locked && LastOf(w, p.dir) == p.lastUsed
    case Removed(info) => Unbuilt(w.profiles, info) && exists t :: t in w.inventory && info in t.profiles
    case RemovedWhole(target, listed) =>
      && AllUnbuilt(w.profiles, listed) && listed != []
      && exists t :: t in w.inventory && t.root == target && t.profiles == listed
    case Released => true
  }

  function Next(w: World, e: Event): World {
    match e
    case Built(dir, at) => w.(used := w.used[dir := at])
    case Looked(targets) => w.(inventory := targets)
    case Locked(dirs) => w.(locked := w.locked + dirs)
    case Scanned(profiles) => w.(profiles := profiles)
    case Removed(_) => w
    case RemovedWhole(_, _) => w
    case Released => w.(locked := {}, profiles := [])
  }

  /** The world after the first `k` events. */
  function After(w: World, run: seq<Event>, k: nat): World
    requires k <= |run|
  {
    if k == 0 then w else Next(After(w, run, k - 1), run[k - 1])
  }

  /** Every event happens when it may. */
  ghost predicate LegalTo(w: World, run: seq<Event>, k: nat)
    requires k <= |run|
  {
    k > 0 ==> LegalTo(w, run, k - 1) && Allowed(After(w, run, k - 1), run[k - 1])
  }

  ghost predicate Legal(w: World, run: seq<Event>) {
    LegalTo(w, run, |run|)
  }

  lemma LegalAt(w: World, run: seq<Event>, k: nat)
    requires Legal(w, run) && k < |run|
    ensures Allowed(After(w, run, k), run[k])
  {
    LegalBefore(w, run, k, |run|);
  }

  lemma {:induction false} LegalBefore(w: World, run: seq<Event>, k: nat, l: nat)
    requires k < l <= |run| && LegalTo(w, run, l)
    ensures Allowed(After(w, run, k), run[k])
  {
    if k < l - 1 {
      LegalBefore(w, run, k, l - 1);
    }
  }

  /** What a scan read under the lock still holds. */
  ghost predicate Steady(w: World) {
    forall p :: p in w.profiles ==> p.dir in w.locked && LastOf(w, p.dir) == p.lastUsed
  }

  lemma {:induction false} AlwaysSteady(w: World, run: seq<Event>, k: nat)
    requires Steady(w) && Legal(w, run) && k <= |run|
    ensures Steady(After(w, run, k))
  {
    if k > 0 {
      AlwaysSteady(w, run, k - 1);
      LegalAt(w, run, k - 1);
    }
  }

  lemma {:induction false} UnbuiltIsRead(profiles: seq<Profile>, info: ProfileInfo)
    requires Unbuilt(profiles, info)
    ensures exists p :: p in profiles && p.dir == info.dir && p.lastUsed == info.built
  {
    if profiles[0].dir != info.dir {
      UnbuiltIsRead(profiles[1..], info);
      var p :| p in profiles[1..] && p.dir == info.dir && p.lastUsed == info.built;
      assert p in profiles;
    } else {
      assert profiles[0] in profiles;
    }
  }

  lemma UnbuiltAsListed(w: World, info: ProfileInfo)
    requires Steady(w) && Unbuilt(w.profiles, info)
    ensures LastOf(w, info.dir) == info.built && info.dir in w.locked
  {
    UnbuiltIsRead(w.profiles, info);
  }

  /** Whatever profile is removed by itself, its last build is the one the inventory told of, and it is locked. */
  lemma RemovedAsChosen(w: World, run: seq<Event>, k: nat)
    requires Steady(w) && Legal(w, run) && k < |run| && run[k].Removed?
    ensures LastOf(After(w, run, k), run[k].info.dir) == run[k].info.built
    ensures run[k].info.dir in After(w, run, k).locked
  {
    AlwaysSteady(w, run, k);
    LegalAt(w, run, k);
    UnbuiltAsListed(After(w, run, k), run[k].info);
  }

  /** So it is of every listed profile of a target that is removed whole. */
  lemma ListedAsChosen(w: World, run: seq<Event>, k: nat, info: ProfileInfo)
    requires Steady(w) && Legal(w, run) && k < |run| && run[k].RemovedWhole? && info in run[k].listed
    ensures LastOf(After(w, run, k), info.dir) == info.built
    ensures info.dir in After(w, run, k).locked
  {
    AlwaysSteady(w, run, k);
    LegalAt(w, run, k);
    UnbuiltAsListed(After(w, run, k), info);
  }

  predicate Later(a: Option<nat>, b: Option<nat>) {
    b.Some? && (a.Some? ==> a.value < b.value)
  }

  predicate BuiltBetween(run: seq<Event>, j: nat, k: nat, dir: Path)
    requires j <= k <= |run|
    decreases k
  {
    k > j && (BuiltBetween(run, j, k - 1, dir) || (run[k - 1].Built? && run[k - 1].dir == dir))
  }

  lemma {:induction false} BuiltBetweenAt(run: seq<Event>, j: nat, k: nat, dir: Path)
    requires j <= k <= |run|
    ensures BuiltBetween(run, j, k, dir) <==> exists i :: j <= i < k && run[i].Built? && run[i].dir == dir
  {
    if j < k {
      BuiltBetweenAt(run, j, k - 1, dir);
    }
  }

  /** How the last build of `dir` went on from `a` to `b`. */
  predicate MovedOn(a: World, b: World, dir: Path, built: bool) {
    if built then Later(LastOf(a, dir), LastOf(b, dir)) else LastOf(b, dir) == LastOf(a, dir)
  }

  ghost function Moves(a: World, dir: Path, built: bool): iset<World> {
    iset b: World | MovedOn(a, b, dir, built)
  }

  lemma StepMovesOn(a: World, w: World, e: Event, dir: Path, built: bool)
    requires Allowed(w, e) && w in Moves(a, dir, built)
    ensures Next(w, e) in Moves(a, dir, built || (e.Built? && e.dir == dir))
  {}

  /** The last build never goes back, and a build moves it forward. */
  lemma {:induction false} BuildsMoveOn(w: World, run: seq<Event>, j: nat, k: nat, dir: Path)
    requires Legal(w, run) && j <= k <= |run|
    ensures After(w, run, k) in Moves(After(w, run, j), dir, BuiltBetween(run, j, k, dir))
  {
    if j < k {
      BuildsMoveOn(w, run, j, k - 1, dir);
      LegalAt(w, run, k - 1);
      StepMovesOn(After(w, run, j), After(w, run, k - 1), run[k - 1], dir, BuiltBetween(run, j, k - 1, dir));
    }
  }

  /** What was built last when the inventory was taken and is still built last then was not built in between. */
  lemma SameLastBuild(w: World, run: seq<Event>, j: nat, k: nat, dir: Path)
    requires Legal(w, run) && j <= k <= |run| && LastOf(After(w, run, k), dir) == LastOf(After(w, run, j), dir)
    ensures forall i :: j <= i < k && run[i].Built? ==> run[i].dir != dir
  {
    BuildsMoveOn(w, run, j, k, dir);
    BuiltBetweenAt(run, j, k, dir);
  }

  /** Since the inventory that chose it was taken, nobody has built a profile that is removed by itself. */
  lemma NotBuiltSinceChosen(w: World, run: seq<Event>, j: nat, k: nat, t: Target)
    requires Steady(w) && Legal(w, run) && j < k < |run| && run[k].Removed?
    requires run[j].Looked? && t in run[j].targets && run[k].info in t.profiles
    ensures forall i :: j <= i < k && run[i].Built? ==> run[i].dir != run[k].info.dir
  {
    LegalAt(w, run, j);
    RemovedAsChosen(w, run, k);
    SameLastBuild(w, run, j, k, run[k].info.dir);
  }

  /** Nor any listed profile of a target that is removed whole. */
  lemma ListedNotBuilt(w: World, run: seq<Event>, j: nat, k: nat, t: Target, info: ProfileInfo)
    requires Steady(w) && Legal(w, run) && j < k < |run| && run[k].RemovedWhole? && info in run[k].listed
    requires run[j].Looked? && t in run[j].targets && t.profiles == run[k].listed
    ensures forall i :: j <= i < k && run[i].Built? ==> run[i].dir != info.dir
  {
    LegalAt(w, run, j);
    ListedAsChosen(w, run, k, info);
    SameLastBuild(w, run, j, k, info.dir);
  }

  /** A target removed whole takes no build made since the inventory if and only if a second listing of it, made under the
      locks, would find no built profile dir the inventory did not list. The pass makes no such listing. */
  lemma WholeTakesNoBuild(w: World, run: seq<Event>, j: nat, k: nat, t: Target)
    requires Steady(w) && Legal(w, run) && j < k < |run| && run[k].RemovedWhole?
    requires run[j].Looked? && t in run[j].targets && t.root == run[k].target && t.profiles == run[k].listed
    ensures (forall i :: j <= i < k && run[i].Built? ==> !Under(run[i].dir, t.root)) <==>
              Relisted(After(w, run, k), t.root, t.profiles)
  {
    var a, b := After(w, run, j), After(w, run, k);
    LegalAt(w, run, j);
    if Relisted(b, t.root, t.profiles) {
      forall i | j <= i < k && run[i].Built? ensures !Under(run[i].dir, t.root) {
        var d := run[i].dir;
        BuildsMoveOn(w, run, j, k, d);
        BuiltBetweenAt(run, j, k, d);
        if Under(d, t.root) {
          var n :| 0 <= n < |t.profiles| && t.profiles[n].dir == d;
          ListedNotBuilt(w, run, j, k, t, t.profiles[n]);
        }
      }
    }
    if forall i :: j <= i < k && run[i].Built? ==> !Under(run[i].dir, t.root) {
      forall d | d in b.used && Under(d, t.root) ensures IsListed(t.profiles, d) {
        BuildsMoveOn(w, run, j, k, d);
        BuiltBetweenAt(run, j, k, d);
        assert d in a.used;
      }
    }
  }

  /** So what was idle enough to choose is at least as idle when it goes. */
  lemma IdleWhenRemoved(w: World, run: seq<Event>, k: nat, chosenAt: nat, now: nat, limits: Limits)
    requires Steady(w) && Legal(w, run) && k < |run| && run[k].Removed?
    requires IsIdle(run[k].info, chosenAt, limits) && chosenAt <= now
    ensures var last := LastOf(After(w, run, k), run[k].info.dir);
            last.Some? && Days(now, last.value) >= limits.idleDays.value
  {
    RemovedAsChosen(w, run, k);
    DaysGrow(chosenAt, now, run[k].info.built.value);
  }

  lemma DaysGrow(a: nat, b: nat, built: nat)
    requires a <= b
    ensures Days(a, built) <= Days(b, built)
  {
    if a > built {
      DivGrows(a - built, b - built);
    }
  }

  lemma DivGrows(x: nat, y: nat)
    requires x <= y
    ensures x / SECS_PER_DAY <= y / SECS_PER_DAY
  {}

  /** Without the second look it would not be so: the world allows a build right up to the lock. */
  lemma LockAloneIsNotEnough(dir: Path)
    ensures var t := Target(dir, 0, [ProfileInfo(dir, 0, Some(0))]);
            var w := World(map[dir := 0], {}, [], []);
            var run := [Looked([t]), Built(dir, 1), Locked({dir}), Scanned([Profile(dir, [], [], Some(1))])];
            Steady(w) && Legal(w, run) && !Unbuilt(After(w, run, 4).profiles, t.profiles[0])
  {
    var t := Target(dir, 0, [ProfileInfo(dir, 0, Some(0))]);
    var w := World(map[dir := 0], {}, [], []);
    var run := [Looked([t]), Built(dir, 1), Locked({dir}), Scanned([Profile(dir, [], [], Some(1))])];
    assert t.profiles[0].dir == dir;
    var w1 := w.(inventory := [t]);
    var w2 := w1.(used := w1.used[dir := 1]);
    var w3 := w2.(locked := {dir});
    assert After(w, run, 1) == Next(After(w, run, 0), run[0]) == w1;
    assert After(w, run, 2) == Next(After(w, run, 1), run[1]) == w2;
    assert After(w, run, 3) == Next(After(w, run, 2), run[2]) == w3;
    assert After(w, run, 4) == Next(After(w, run, 3), run[3]);
    assert LegalTo(w, run, 1);
    assert LegalTo(w, run, 2);
    assert LegalTo(w, run, 3);
    assert LegalTo(w, run, 4);
  }

  /** A profile dir of the target that is first built after the inventory is not looked at again, not locked, and goes with
      the target: the run is one the world allows, the pass plans the removal, and the engine's rule lets it through. */
  lemma NewProfileIsTaken(target: Path, debug: Path, release: Path, at: nat)
    requires Under(debug, target) && Under(release, target) && debug != release
    ensures var info := ProfileInfo(debug, 0, Some(0));
            var t := Target(target, 0, [info]);
            var w := World(map[debug := 0], {}, [], []);
            var run := [Looked([t]), Locked({debug}), Built(release, at), Scanned([Profile(debug, [], [], Some(0))]),
                        RemovedWhole(target, [info])];
            && Steady(w) && Legal(w, run) && release !in After(w, run, 4).locked
            && LastOf(w, release) == None && LastOf(After(w, run, 4), release) == Some(at)
            && WholeTargets([t], [Choice(info, Idle(0))]) == [Whole(target, 0, [info], Idle(0))]
            && Rules.TargetRefusal(target, target, [debug], [], []) == None
  {
    var info := ProfileInfo(debug, 0, Some(0));
    var t := Target(target, 0, [info]);
    var w := World(map[debug := 0], {}, [], []);
    var scan := [Profile(debug, [], [], Some(0))];
    var run := [Looked([t]), Locked({debug}), Built(release, at), Scanned(scan), RemovedWhole(target, [info])];
    assert t.profiles[0].dir == debug;
    var w1 := w.(inventory := [t]);
    var w2 := w1.(locked := {debug});
    var w3 := w2.(used := w2.used[release := at]);
    var w4 := w3.(profiles := scan);
    assert After(w, run, 1) == Next(After(w, run, 0), run[0]) == w1;
    assert After(w, run, 2) == Next(After(w, run, 1), run[1]) == w2;
    assert After(w, run, 3) == Next(After(w, run, 2), run[2]) == w3;
    assert After(w, run, 4) == Next(After(w, run, 3), run[3]) == w4;
    assert Unbuilt(scan, info);
    assert t in w4.inventory && t.root == target && t.profiles == [info];
    assert LegalTo(w, run, 1);
    assert LegalTo(w, run, 2);
    assert LegalTo(w, run, 3);
    assert LegalTo(w, run, 4);
    assert LegalTo(w, run, 5);
    assert [t][..0] == [] && WholeTargets([t][..0], [Choice(info, Idle(0))]) == [];
    assert [debug][0] == debug;
  }
}
