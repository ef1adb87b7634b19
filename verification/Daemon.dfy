/** When the daemon runs the passes on a unit, and which build it has visited (`src/daemon/mod.rs`). */
module Daemon {
  import opened Paths
  import opened Model
  import opened Guards

  const U64_MAX: nat := 0xffff_ffff_ffff_ffff

  /** `built` is the latest build seen, `due` when its files will have gone cold, `visited` the build the passes last
      finished with; all in seconds since the epoch. */
  datatype Unit = Unit(dir: Path, built: Option<nat>, due: Option<nat>, visited: Option<nat>) {
    /** Built since the passes last finished with it. */
    predicate Pending() {
      built.Some? && (visited.None? || built.value > visited.value)
    }

    predicate Ready(now: nat) {
      Pending() && due.Some? && due.value <= now
    }
  }

  /** The report of one visit of a group. */
  datatype Visit = Visit(group: Path, busy: seq<Path>, interrupted: bool)

  datatype RunReport = RunReport(visits: seq<Visit>, stopped: bool)

  function SaturatingAdd(a: nat, b: nat): (r: nat)
    ensures r <= U64_MAX && r <= a + b && (r == U64_MAX || r == a + b)
  {
    if a + b > U64_MAX then U64_MAX else a + b
  }

  function VisitedOf(units: seq<Unit>, dir: Path): Option<nat> {
    if units == [] then None else if units[0].dir == dir then units[0].visited else VisitedOf(units[1..], dir)
  }

  function Discovered(dirs: seq<Path>, old_: seq<Unit>): seq<Unit> {
    seq(|dirs|, i requires 0 <= i < |dirs| => Unit(dirs[i], None, None, VisitedOf(old_, dirs[i])))
  }

  function Looked(unit: Unit, lastUsed: Option<nat>, floor: nat): Unit {
    unit.(built := lastUsed, due := if lastUsed.Some? then Some(SaturatingAdd(lastUsed.value, floor)) else None)
  }

  function Refreshed(units: seq<Unit>, lastUsed: Path -> Option<nat>, floor: Path -> nat): seq<Unit> {
    seq(|units|, i requires 0 <= i < |units| => Looked(units[i], lastUsed(units[i].dir), floor(units[i].dir)))
  }

  /** A group is visited again after one that ran out of its budget: its last visit counts. */
  ghost predicate LetGo(report: RunReport) {
    exists i :: 0 <= i < |report.visits| && report.visits[i].interrupted && IsLast(report.visits, i)
  }

  ghost predicate SeenBusy(report: RunReport, dir: Path) {
    exists i :: 0 <= i < |report.visits| && dir in report.visits[i].busy
  }

  /** The run finished with the unit: it was let through to the end, and found no build in it. */
  ghost predicate FinishedWith(report: RunReport, dir: Path) {
    !report.stopped && !LetGo(report) && !SeenBusy(report, dir)
  }

  ghost function Marked(units: seq<Unit>, ready: seq<Path>, report: RunReport): seq<Unit> {
    seq(|units|, i requires 0 <= i < |units| =>
      if units[i].dir in ready && FinishedWith(report, units[i].dir) then units[i].(visited := units[i].built) else units[i])
  }

  class State {
    var units: seq<Unit>

    constructor (units: seq<Unit>)
      ensures this.units == units
    {
      this.units := units;
    }

    /** The units found by a walk, with what was known about each. */
    method Discover(dirs: seq<Path>)
      modifies this
      ensures units == Discovered(dirs, old(units))
    {
      var found: seq<Unit> := [];
      for k := 0 to |dirs|
        invariant found == Discovered(dirs, units)[..k]
      {
        found := found + [Unit(dirs[k], None, None, VisitedOf(units, dirs[k]))];
      }
      units := found;
    }

    /** Each unit's last build, and when its files will be old enough. */
    method Refresh(lastUsed: Path -> Option<nat>, floor: Path -> nat)
      modifies this
      ensures units == Refreshed(old(units), lastUsed, floor)
    {
      for k := 0 to |units|
        invariant |units| == |old(units)|
        invariant forall i :: 0 <= i < k ==> units[i] == Refreshed(old(units), lastUsed, floor)[i]
        invariant forall i :: k <= i < |units| ==> units[i] == old(units)[i]
      {
        units := units[k := Looked(units[k], lastUsed(units[k].dir), floor(units[k].dir))];
      }
    }

    /** The units in `ready` the run finished with; none when a group let go early. */
    method MarkVisited(ready: seq<Path>, report: RunReport)
      modifies this
      ensures units == Marked(old(units), ready, report)
    {
      var last: map<Path, Visit> := map[];
      var busy: set<Path> := {};
      for k := 0 to |report.visits|
        invariant last == LastOf(report.visits[..k]) && busy == BusyIn(report.visits[..k])
      {
        assert report.visits[..k + 1][..k] == report.visits[..k];
        last := last[report.visits[k].group := report.visits[k]];
        busy := busy + set d | d in report.visits[k].busy;
      }
      assert report.visits[..|report.visits|] == report.visits;
      LastTells(report.visits);
      BusyTells(report.visits);
      if report.stopped || AnyInterrupted(last) {
        assert units == Marked(units, ready, report);
        return;
      }
      for k := 0 to |units|
        invariant |units| == |old(units)|
        invariant forall i :: 0 <= i < k ==> units[i] == Marked(old(units), ready, report)[i]
        invariant forall i :: k <= i < |units| ==> units[i] == old(units)[i]
      {
        if units[k].dir in ready && units[k].dir !in busy {
          units := units[k := units[k].(visited := units[k].built)];
        }
      }
    }
  }

  /** The last visit of each group. */
  function LastOf(visits: seq<Visit>): map<Path, Visit> {
    if visits == [] then map[]
    else
      var last := visits[|visits| - 1];
      LastOf(visits[..|visits| - 1])[last.group := last]
  }

  function BusyIn(visits: seq<Visit>): set<Path> {
    if visits == [] then {}
    else
      var last := visits[|visits| - 1];
      BusyIn(visits[..|visits| - 1]) + set d | d in last.busy
  }

  ghost predicate IsLast(visits: seq<Visit>, i: nat)
    requires i < |visits|
  {
    forall j :: i < j < |visits| ==> visits[j].group != visits[i].group
  }

  /** Some last visit is what the map has for `g`. */
  ghost predicate HasLast(visits: seq<Visit>, g: Path, visit: Visit) {
    visit.group == g && exists i :: 0 <= i < |visits| && visits[i] == visit && IsLast(visits, i)
  }

  lemma {:induction false} LastOfIsLast(visits: seq<Visit>, g: Path)
    requires g in LastOf(visits)
    ensures HasLast(visits, g, LastOf(visits)[g])
  {
    var front, n := visits[..|visits| - 1], |visits| - 1;
    if g == visits[n].group {
      assert IsLast(visits, n);
    } else {
      LastOfIsLast(front, g);
      var i :| 0 <= i < |front| && front[i] == LastOf(front)[g] && IsLast(front, i);
      assert visits[i] == LastOf(visits)[g] && IsLast(visits, i);
    }
  }

  lemma {:induction false} LastIsInLastOf(visits: seq<Visit>, i: nat)
    requires i < |visits| && IsLast(visits, i)
    ensures visits[i].group in LastOf(visits) && LastOf(visits)[visits[i].group] == visits[i]
  {
    var front, n := visits[..|visits| - 1], |visits| - 1;
    if i < n {
      assert visits[n].group != visits[i].group;
      assert front[i] == visits[i];
      LastIsInLastOf(front, i);
    }
  }

  predicate AnyInterrupted(last: map<Path, Visit>) {
    exists g :: g in last && last[g].interrupted
  }

  lemma LastTells(visits: seq<Visit>)
    ensures AnyInterrupted(LastOf(visits)) <==> exists i :: 0 <= i < |visits| && visits[i].interrupted && IsLast(visits, i)
  {
    var last := LastOf(visits);
    if AnyInterrupted(last) {
      var g :| g in last && last[g].interrupted;
      LastOfIsLast(visits, g);
    }
    if exists i :: 0 <= i < |visits| && visits[i].interrupted && IsLast(visits, i) {
      var i :| 0 <= i < |visits| && visits[i].interrupted && IsLast(visits, i);
      LastIsInLastOf(visits, i);
      assert LastOf(visits)[visits[i].group].interrupted;
    }
  }

  lemma {:induction false} BusyTells(visits: seq<Visit>)
    ensures forall d :: d in BusyIn(visits) <==> exists i :: 0 <= i < |visits| && d in visits[i].busy
  {
    if visits != [] {
      BusyTells(visits[..|visits| - 1]);
    }
  }

  /** When to look again: no later than any due time still ahead, than the interval, or than the next walk. */
  method NextWake(units: seq<Unit>, now: nat, interval: nat, nextDiscovery: nat) returns (wake: nat)
    ensures forall u :: u in units && u.Pending() && u.due.Some? && u.due.value > now ==> wake <= u.due.value
    ensures wake <= SaturatingAdd(now, interval) && wake <= nextDiscovery
    ensures wake == SaturatingAdd(now, interval) || wake == nextDiscovery
            || exists u :: u in units && u.Pending() && u.due == Some(wake) && wake > now
  {
    wake := SaturatingAdd(now, interval);
    if nextDiscovery < wake {
      wake := nextDiscovery;
    }
    for k := 0 to |units|
      invariant forall i :: 0 <= i < k && units[i].Pending() && units[i].due.Some? && units[i].due.value > now ==> wake <= units[i].due.value
      invariant wake <= SaturatingAdd(now, interval) && wake <= nextDiscovery
      invariant wake == SaturatingAdd(now, interval) || wake == nextDiscovery
                || exists u :: u in units && u.Pending() && u.due == Some(wake) && wake > now
    {
      var u := units[k];
      if u.Pending() && u.due.Some? && u.due.value > now && u.due.value < wake {
        wake := u.due.value;
        assert u in units;
      }
    }
  }

  /** The dirs of the units a run is started for. */
  function ReadyOf(units: seq<Unit>, now: nat): seq<Path> {
    if units == [] then []
    else
      var front, last := ReadyOf(units[..|units| - 1], now), units[|units| - 1];
      if last.Ready(now) then front + [last.dir] else front
  }

  /** The builds there have been, and what the daemon knows. */
  datatype World = World(built: map<Path, nat>, units: seq<Unit>)

  datatype Event =
    | Built(dir: Path, at: nat)
    | Walked(dirs: seq<Path>)
    | Looks(floor: Path -> nat)
    | Finished(now: nat, report: RunReport)
    | Failed

  function LastBuilt(built: map<Path, nat>, dir: Path): Option<nat> {
    if dir in built then Some(built[dir]) else None
  }

  /** What the adapters tell. */
  function Telling(built: map<Path, nat>): (f: Path -> Option<nat>)
    ensures forall d :: f(d) == LastBuilt(built, d)
  {
    d => LastBuilt(built, d)
  }

  /** Each build of a dir is later than the one before. */
  predicate Allowed(w: World, e: Event) {
    e.Built? && e.dir in w.built ==> w.built[e.dir] < e.at
  }

  ghost function Next(w: World, e: Event): World {
    match e
    case Built(dir, at) => w.(built := w.built[dir := at])
    case Walked(dirs) => w.(units := Discovered(dirs, w.units))
    case Looks(floor) => w.(units := Refreshed(w.units, Telling(w.built), floor))
    case Finished(now, report) => w.(units := Marked(w.units, ReadyOf(w.units, now), report))
    case Failed => w
  }

  ghost function After(w: World, run: seq<Event>, k: nat): World
    requires k <= |run|
  {
    if k == 0 then w else Next(After(w, run, k - 1), run[k - 1])
  }

  ghost predicate LegalTo(w: World, run: seq<Event>, k: nat)
    requires k <= |run|
  {
    k > 0 ==> LegalTo(w, run, k - 1) && Allowed(After(w, run, k - 1), run[k - 1])
  }

  predicate NotAfter(a: Option<nat>, b: Option<nat>) {
    a.Some? ==> b.Some? && a.value <= b.value
  }

  /** The daemon knows of no build that has not been. */
  ghost predicate Behind(w: World) {
    forall u :: u in w.units ==> NotAfter(u.built, LastBuilt(w.built, u.dir)) && NotAfter(u.visited, LastBuilt(w.built, u.dir))
  }

  lemma {:induction false} VisitedOfOne(units: seq<Unit>, dir: Path)
    requires VisitedOf(units, dir).Some?
    ensures exists u :: u in units && u.dir == dir && u.visited == VisitedOf(units, dir)
  {
    if units[0].dir == dir {
      assert units[0] in units;
    } else {
      VisitedOfOne(units[1..], dir);
      var u :| u in units[1..] && u.dir == dir && u.visited == VisitedOf(units[1..], dir);
      assert u in units;
    }
  }

  lemma StaysBehind(w: World, e: Event)
    requires Behind(w) && Allowed(w, e)
    ensures Behind(Next(w, e))
  {
    var n := Next(w, e);
    forall u | u in n.units ensures NotAfter(u.built, LastBuilt(n.built, u.dir)) && NotAfter(u.visited, LastBuilt(n.built, u.dir)) {
      var i :| 0 <= i < |n.units| && n.units[i] == u;
      if e.Walked? {
        if u.visited.Some? {
          VisitedOfOne(w.units, u.dir);
        }
      } else {
        UnitMoves(w, e, i);
      }
    }
  }

  /** What an event other than a walk makes of the unit at `i`. */
  lemma UnitMoves(w: World, e: Event, i: nat)
    requires !e.Walked? && i < |w.units|
    ensures |Next(w, e).units| == |w.units| && w.units[i] in w.units
    ensures var u, v := w.units[i], Next(w, e).units[i];
            && v.dir == u.dir
            && v.built == (if e.Looks? then LastBuilt(w.built, u.dir) else u.built)
            && (v.visited == u.visited || (e.Finished? && v.visited == u.built))
  {}

  /** The run finished with a unit whose build `b` was observed before it started. */
  ghost predicate EarnedAt(w: World, e: Event, dir: Path, b: nat) {
    && e.Finished? && FinishedWith(e.report, dir) && dir in ReadyOf(w.units, e.now)
    && exists v :: v in w.units && v.dir == dir && v.built == Some(b)
  }

  ghost predicate Earned(w: World, run: seq<Event>, k: nat, dir: Path, b: nat)
    requires k <= |run|
  {
    k > 0 && (Earned(w, run, k - 1, dir, b) || EarnedAt(After(w, run, k - 1), run[k - 1], dir, b))
  }

  ghost predicate Marks(w: World, dir: Path, b: nat) {
    exists u :: u in w.units && u.dir == dir && u.visited == Some(b)
  }

  /** A unit comes to be visited in no other way. */
  lemma MarkedByRun(w: World, e: Event, dir: Path, b: nat)
    requires Marks(Next(w, e), dir, b)
    ensures Marks(w, dir, b) || EarnedAt(w, e, dir, b)
  {
    var n := Next(w, e);
    var u :| u in n.units && u.dir == dir && u.visited == Some(b);
    var i :| 0 <= i < |n.units| && n.units[i] == u;
    if e.Walked? {
      VisitedOfOne(w.units, dir);
    } else {
      assert w.units[i] in w.units;
    }
  }

  /** A unit is taken for visited after build `b` only if some run that began with `b` observed finished with it. */
  lemma {:induction false} VisitsAreEarned(w: World, run: seq<Event>, k: nat, dir: Path, b: nat)
    requires k <= |run| && Marks(After(w, run, k), dir, b)
    ensures Marks(w, dir, b) || Earned(w, run, k, dir, b)
  {
    if k > 0 {
      MarkedByRun(After(w, run, k - 1), run[k - 1], dir, b);
      if Marks(After(w, run, k - 1), dir, b) {
        VisitsAreEarned(w, run, k - 1, dir, b);
      }
    }
  }

  lemma {:induction false} AlwaysBehind(w: World, run: seq<Event>, k: nat)
    requires Behind(w) && k <= |run| && LegalTo(w, run, k)
    ensures Behind(After(w, run, k))
  {
    if k > 0 {
      AlwaysBehind(w, run, k - 1);
      StaysBehind(After(w, run, k - 1), run[k - 1]);
    }
  }

  /** A look sees every unit as pending whose last build it is not taken for visited after. */
  lemma LookSeesBuilds(w: World, floor: Path -> nat, u: Unit)
    requires Behind(w) && u in Next(w, Looks(floor)).units
    ensures u.built == LastBuilt(w.built, u.dir)
    ensures u.Pending() <==> u.dir in w.built && u.visited != Some(w.built[u.dir])
  {
    var n := Next(w, Looks(floor));
    var i :| 0 <= i < |n.units| && n.units[i] == u;
    UnitMoves(w, Looks(floor), i);
  }

  /** No build is lost: after any look a known unit that was ever built is pending, unless a run that began with its last
      build observed has finished with it. */
  lemma NoBuildIsLost(w: World, run: seq<Event>, k: nat, u: Unit)
    requires Behind(w) && k < |run| && LegalTo(w, run, k) && run[k].Looks?
    requires u in After(w, run, k + 1).units && u.dir in After(w, run, k).built
    requires !Marks(w, u.dir, After(w, run, k).built[u.dir])
    ensures u.Pending() <==> u.visited != Some(After(w, run, k).built[u.dir])
    ensures u.Pending() || Earned(w, run, k, u.dir, After(w, run, k).built[u.dir])
  {
    var v := After(w, run, k);
    AlwaysBehind(w, run, k);
    LookSeesBuilds(v, run[k].floor, u);
    if !u.Pending() {
      var b := v.built[u.dir];
      assert Marks(Next(v, run[k]), u.dir, b);
      MarkedByRun(v, run[k], u.dir, b);
      VisitsAreEarned(w, run, k, u.dir, b);
    }
  }

  /** A build during a run is not lost in it: the run marks the build it began with. */
  lemma BuildDuringRun(w: World, u: Unit, at: nat, now: nat, report: RunReport)
    requires Behind(w) && u in w.units && u.built.Some? && Allowed(w, Built(u.dir, at))
    ensures var during := Next(w, Built(u.dir, at));
            forall v :: v in Next(during, Finished(now, report)).units && v.dir == u.dir ==> v.visited != Some(at)
  {
    var during := Next(w, Built(u.dir, at));
    var n := Next(during, Finished(now, report));
    forall v | v in n.units && v.dir == u.dir ensures v.visited != Some(at) {
      var i :| 0 <= i < |n.units| && n.units[i] == v;
      assert w.units[i] in w.units;
    }
  }

  lemma {:induction false} AfterJoin(w: World, first: seq<Event>, second: seq<Event>, k: nat)
    requires k <= |second|
    ensures After(w, first + second, |first| + k) == After(After(w, first, |first|), second, k)
  {
    if k == 0 {
      AfterFront(w, first, second, |first|);
    } else {
      AfterJoin(w, first, second, k - 1);
      assert (first + second)[|first| + k - 1] == second[k - 1];
    }
  }

  lemma {:induction false} AfterFront(w: World, first: seq<Event>, second: seq<Event>, k: nat)
    requires k <= |first|
    ensures After(w, first + second, k) == After(w, first, k)
  {
    if k > 0 {
      AfterFront(w, first, second, k - 1);
    }
  }

  lemma {:induction false} LegalJoin(w: World, first: seq<Event>, second: seq<Event>, k: nat)
    requires k <= |first| + |second| && LegalTo(w, first, |first|)
    requires LegalTo(After(w, first, |first|), second, |second|)
    ensures LegalTo(w, first + second, k)
  {
    if k > 0 {
      LegalJoin(w, first, second, k - 1);
      if k <= |first| {
        AfterFront(w, first, second, k - 1);
        LegalAt(w, first, |first|, k - 1);
      } else {
        AfterJoin(w, first, second, k - 1 - |first|);
        LegalAt(After(w, first, |first|), second, |second|, k - 1 - |first|);
      }
    }
  }

  lemma {:induction false} LegalAt(w: World, run: seq<Event>, k: nat, j: nat)
    requires j < k <= |run| && LegalTo(w, run, k)
    ensures Allowed(After(w, run, j), run[j])
  {
    if j < k - 1 {
      LegalAt(w, run, k - 1, j);
    }
  }

  /** One event is a run of its own. */
  lemma OneEvent(w: World, e: Event)
    requires Allowed(w, e)
    ensures LegalTo(w, [e], 1) && After(w, [e], 1) == Next(w, e)
  {
    assert After(w, [e], 0) == w;
    assert LegalTo(w, [e], 0);
  }

  /** What one turn of the loop meets: a walk when one is due, what the adapters tell, builds while the passes run, and what the run
      came to, if it came to anything. */
  datatype Turning = Turning(walked: Option<seq<Path>>, lastUsed: Path -> Option<nat>, floor: Path -> nat, now: nat,
                             during: seq<Event>, outcome: Option<RunReport>)

  /** The adapters tell the truth, and what happens while the passes run is builds. */
  ghost predicate Happens(w: World, t: Turning) {
    && (forall d :: t.lastUsed(d) == LastBuilt(w.built, d))
    && LegalTo(w, t.during, |t.during|)
    && (forall i :: 0 <= i < |t.during| ==> t.during[i].Built?)
  }

  lemma {:induction false} BuildsLeaveUnits(w: World, run: seq<Event>, k: nat)
    requires k <= |run| && forall i :: 0 <= i < |run| ==> run[i].Built?
    ensures After(w, run, k).units == w.units
  {
    if k > 0 {
      BuildsLeaveUnits(w, run, k - 1);
    }
  }

  /** Builds are allowed by what was built before, whatever the daemon knows. */
  lemma {:induction false} SameBuilds(w: World, v: World, run: seq<Event>, k: nat)
    requires k <= |run| && w.built == v.built && LegalTo(w, run, k) && forall i :: 0 <= i < |run| ==> run[i].Built?
    ensures LegalTo(v, run, k) && After(v, run, k).built == After(w, run, k).built
  {
    if k > 0 {
      SameBuilds(w, v, run, k - 1);
    }
  }

  /** The events of a turn: a walk if one is due, a look, the builds, and the end of the run if units were ready for one. */
  ghost function Events(units: seq<Unit>, t: Turning): seq<Event> {
    var walk := if t.walked.Some? then [Walked(t.walked.value)] else [];
    var seen := Refreshed(if t.walked.Some? then Discovered(t.walked.value, units) else units, t.lastUsed, t.floor);
    var end := if ReadyOf(seen, t.now) == [] then [] else if t.outcome.Some? then [Finished(t.now, t.outcome.value)] else [Failed];
    walk + [Looks(t.floor)] + t.during + end
  }

  lemma SameLook(w: World, lastUsed: Path -> Option<nat>, floor: Path -> nat)
    requires forall d :: lastUsed(d) == LastBuilt(w.built, d)
    ensures Next(w, Looks(floor)).units == Refreshed(w.units, lastUsed, floor)
  {
    forall i | 0 <= i < |w.units| ensures Refreshed(w.units, Telling(w.built), floor)[i] == Refreshed(w.units, lastUsed, floor)[i] {
      assert Telling(w.built)(w.units[i].dir) == lastUsed(w.units[i].dir);
    }
  }

  lemma TurnIsEvents(w: World, t: Turning)
    requires Happens(w, t)
    ensures var found := if t.walked.Some? then Discovered(t.walked.value, w.units) else w.units;
            var seen := Refreshed(found, t.lastUsed, t.floor);
            var run := Events(w.units, t);
            && LegalTo(w, run, |run|)
            && After(w, run, |run|).built == After(w, t.during, |t.during|).built
            && After(w, run, |run|).units ==
               if ReadyOf(seen, t.now) != [] && t.outcome.Some? then Marked(seen, ReadyOf(seen, t.now), t.outcome.value) else seen
  {
    var walk := if t.walked.Some? then [Walked(t.walked.value)] else [];
    var v := w.(units := if t.walked.Some? then Discovered(t.walked.value, w.units) else w.units);
    if t.walked.Some? {
      OneEvent(w, Walked(t.walked.value));
    }
    assert After(w, walk, |walk|) == v && LegalTo(w, walk, |walk|);
    var seen := Refreshed(v.units, t.lastUsed, t.floor);
    var look := Looks(t.floor);
    OneEvent(v, look);
    SameLook(v, t.lastUsed, t.floor);
    JoinLegal(w, walk, [look]);
    var x := Next(v, look);
    SameBuilds(w, x, t.during, |t.during|);
    BuildsLeaveUnits(x, t.during, |t.during|);
    JoinLegal(w, walk + [look], t.during);
    var y := After(x, t.during, |t.during|);
    EndOfTurn(w, walk + [look] + t.during, t, seen);
  }

  lemma EndOfTurn(w: World, run: seq<Event>, t: Turning, seen: seq<Unit>)
    requires LegalTo(w, run, |run|) && After(w, run, |run|).units == seen
    ensures var end := if ReadyOf(seen, t.now) == [] then [] else if t.outcome.Some? then [Finished(t.now, t.outcome.value)] else [Failed];
            var all := run + end;
            && LegalTo(w, all, |all|) && After(w, all, |all|).built == After(w, run, |run|).built
            && After(w, all, |all|).units ==
               if ReadyOf(seen, t.now) != [] && t.outcome.Some? then Marked(seen, ReadyOf(seen, t.now), t.outcome.value) else seen
  {
    if ReadyOf(seen, t.now) == [] {
      assert run + [] == run;
    } else {
      var end := if t.outcome.Some? then Finished(t.now, t.outcome.value) else Failed;
      OneEvent(After(w, run, |run|), end);
      JoinLegal(w, run, [end]);
    }
  }

  lemma JoinLegal(w: World, first: seq<Event>, second: seq<Event>)
    requires LegalTo(w, first, |first|) && LegalTo(After(w, first, |first|), second, |second|)
    ensures LegalTo(w, first + second, |first + second|)
    ensures After(w, first + second, |first + second|) == After(After(w, first, |first|), second, |second|)
  {
    LegalJoin(w, first, second, |first + second|);
    AfterJoin(w, first, second, |second|);
  }

  /** The mark of the first unit known at `dir`, if any is known there. */
  ghost predicate WasMarked(units: seq<Unit>, dir: Path, mark: Option<nat>) {
    if forall u :: u in units ==> u.dir != dir then mark.None?
    else exists j :: 0 <= j < |units| && units[j].dir == dir && units[j].visited == mark && forall i :: 0 <= i < j ==> units[i].dir != dir
  }

  lemma {:induction false} VisitedOfFirst(units: seq<Unit>, dir: Path)
    ensures WasMarked(units, dir, VisitedOf(units, dir))
  {
    if units != [] && units[0].dir != dir {
      var rest := units[1..];
      VisitedOfFirst(rest, dir);
      assert units == [units[0]] + rest;
      if exists u :: u in units && u.dir == dir {
        var j :| 0 <= j < |rest| && rest[j].dir == dir && rest[j].visited == VisitedOf(rest, dir) && forall i :: 0 <= i < j ==> rest[i].dir != dir;
        assert units[j + 1] == rest[j] && forall i :: 0 <= i < j + 1 ==> units[i].dir != dir;
      }
    }
  }

  /** There is work on a unit marked `mark`: it was built, the passes have not finished with it since, and as much time has gone by since
      the build as its files need to go cold. Seconds end at 2^64 - 1. */
  ghost predicate Cold(t: Turning, u: Unit, mark: Option<nat>) {
    && u.built.Some? && (mark.None? || mark.value < u.built.value)
    && (u.built.value + t.floor(u.dir) <= t.now || 18_446_744_073_709_551_615 <= t.now)
  }

  /** What a turn makes of a unit marked `mark` before: its last build is known, it is due when that build has gone cold, and it is
      marked with it if there was work on it and the turn's run finished with it; else its mark is what it was. */
  ghost predicate TurnedInto(built: map<Path, nat>, t: Turning, mark: Option<nat>, u: Unit) {
    && u.built == (if u.dir in built then Some(built[u.dir]) else None)
    && (if u.built.None? then u.due.None?
        else u.due == Some(if u.built.value + t.floor(u.dir) < 18_446_744_073_709_551_615 then u.built.value + t.floor(u.dir)
                           else 18_446_744_073_709_551_615))
    && u.visited == if Cold(t, u, mark) && t.outcome.Some? && FinishedWith(t.outcome.value, u.dir) then u.built else mark
  }

  /** What the units were marked with when the turn looked at them: those a walk found, if there was one, and else those known before. */
  ghost predicate MarksFound(t: Turning, before: seq<Unit>, marks: seq<Option<nat>>, after: seq<Unit>) {
    && |marks| == |after|
    && match t.walked
       case None => |after| == |before| && forall i :: 0 <= i < |after| ==> after[i].dir == before[i].dir && marks[i] == before[i].visited
       case Some(dirs) => |after| == |dirs| && forall i :: 0 <= i < |after| ==> after[i].dir == dirs[i] && WasMarked(before, dirs[i], marks[i])
  }

  /** What a turn makes of all units. */
  ghost predicate Turned(built: map<Path, nat>, t: Turning, before: seq<Unit>, marks: seq<Option<nat>>, after: seq<Unit>) {
    && MarksFound(t, before, marks, after)
    && forall i :: 0 <= i < |after| ==> TurnedInto(built, t, marks[i], after[i])
  }

  /** The passes were started in these events. */
  ghost predicate Started(run: seq<Event>) {
    exists i :: 0 <= i < |run| && (run[i].Finished? || run[i].Failed?)
  }

  /** One turn of the daemon's loop is a run of its events. Afterwards every unit's last build is known, a unit is pending unless it is
      taken for visited after that build, and only what this turn's run finished with is newly taken so. The run is started if and only
      if there is work on some unit, and marks exactly the units there was work on. */
  method Turn(state: State, t: Turning, ghost w: World) returns (ghost run: seq<Event>, ghost marks: seq<Option<nat>>)
    requires Behind(w) && w.units == state.units && Happens(w, t)
    modifies state
    ensures run == Events(old(state.units), t) && LegalTo(w, run, |run|) && After(w, run, |run|).units == state.units
    ensures After(w, run, |run|).built == After(w, t.during, |t.during|).built && Behind(After(w, run, |run|))
    ensures forall u :: u in state.units ==>
              && u.built == LastBuilt(w.built, u.dir)
              && (u.Pending() <==> u.dir in w.built && u.visited != Some(w.built[u.dir]))
    ensures forall u :: u in state.units && u.visited.Some? && !Marks(w, u.dir, u.visited.value) ==>
              t.outcome.Some? && FinishedWith(t.outcome.value, u.dir) && u.visited == LastBuilt(w.built, u.dir)
    ensures Turned(w.built, t, old(state.units), marks, state.units)
    ensures Started(run) <==> exists i :: 0 <= i < |marks| && Cold(t, state.units[i], marks[i])
  {
    run := Events(state.units, t);
    if t.walked.Some? {
      state.Discover(t.walked.value);
    }
    ghost var found := w.(units := state.units);
    marks := MarksOf(state.units);
    state.Refresh(t.lastUsed, t.floor);
    var ready := ReadyOf(state.units, t.now);
    ghost var seen := w.(units := state.units);
    if ready != [] && t.outcome.Some? {
      state.MarkVisited(ready, t.outcome.value);
    }
    WalkStaysBehind(w, t);
    TurnRuns(w, t, found, seen, state.units);
    TurnTells(w, t, found, seen, state.units);
    TurnMakes(w, t, found, seen, state.units, marks);
  }

  /** The events of a turn, and where they lead. */
  lemma TurnRuns(w: World, t: Turning, found: World, seen: World, units: seq<Unit>)
    requires Behind(w) && Happens(w, t)
    requires found == w.(units := if t.walked.Some? then Discovered(t.walked.value, w.units) else w.units)
    requires seen == w.(units := Refreshed(found.units, t.lastUsed, t.floor))
    requires units == if ReadyOf(seen.units, t.now) != [] && t.outcome.Some?
                      then Marked(seen.units, ReadyOf(seen.units, t.now), t.outcome.value) else seen.units
    ensures var run := Events(w.units, t);
            && LegalTo(w, run, |run|) && After(w, run, |run|).units == units
            && After(w, run, |run|).built == After(w, t.during, |t.during|).built && Behind(After(w, run, |run|))
  {
    var run := Events(w.units, t);
    TurnIsEvents(w, t);
    AlwaysBehind(w, run, |run|);
  }

  /** What a turn makes of the units, and when it starts the passes. */
  lemma TurnMakes(w: World, t: Turning, found: World, seen: World, units: seq<Unit>, marks: seq<Option<nat>>)
    requires Behind(found) && Happens(w, t) && marks == MarksOf(found.units)
    requires found == w.(units := if t.walked.Some? then Discovered(t.walked.value, w.units) else w.units)
    requires seen == w.(units := Refreshed(found.units, t.lastUsed, t.floor))
    requires units == if ReadyOf(seen.units, t.now) != [] && t.outcome.Some?
                      then Marked(seen.units, ReadyOf(seen.units, t.now), t.outcome.value) else seen.units
    ensures Turned(w.built, t, w.units, marks, units)
    ensures Started(Events(w.units, t)) <==> exists i :: 0 <= i < |marks| && Cold(t, units[i], marks[i])
  {
    WalkCarries(w.units, t, found.units, marks);
    TurnMarks(w, t, found, seen, units);
    StartedIfCold(w, t, found, seen, units);
  }

  lemma WalkStaysBehind(w: World, t: Turning)
    requires Behind(w)
    ensures Behind(w.(units := if t.walked.Some? then Discovered(t.walked.value, w.units) else w.units))
  {
    if t.walked.Some? {
      StaysBehind(w, Walked(t.walked.value));
    }
  }

  ghost function MarksOf(units: seq<Unit>): seq<Option<nat>> {
    seq(|units|, i requires 0 <= i < |units| => units[i].visited)
  }

  /** A walk carries the mark of each dir over. */
  lemma WalkCarries(units: seq<Unit>, t: Turning, found: seq<Unit>, marks: seq<Option<nat>>)
    requires found == if t.walked.Some? then Discovered(t.walked.value, units) else units
    requires |marks| == |found| && forall i :: 0 <= i < |found| ==> marks[i] == found[i].visited
    ensures MarksFound(t, units, marks, found)
  {
    if t.walked.Some? {
      forall i | 0 <= i < |found| {
        VisitedOfFirst(units, found[i].dir);
      }
    }
  }

  lemma {:induction false} ReadyIs(units: seq<Unit>, now: nat)
    ensures forall d :: d in ReadyOf(units, now) <==> exists u :: u in units && u.dir == d && u.Ready(now)
  {
    if units != [] {
      var front, last := units[..|units| - 1], units[|units| - 1];
      ReadyIs(front, now);
      assert units == front + [last];
    }
  }

  /** A unit that was looked at is ready if and only if there is work on it. */
  lemma ReadyIfCold(w: World, t: Turning, found: World, seen: World, i: nat)
    requires Happens(w, t) && i < |found.units|
    requires found.built == w.built && seen.units == Refreshed(found.units, t.lastUsed, t.floor)
    ensures seen.units[i].Ready(t.now) <==> Cold(t, seen.units[i], found.units[i].visited)
  {}

  /** Units of one dir are of one build: if one of them is ready, there is work on each, or it is marked with that build already. */
  lemma ReadyDir(w: World, t: Turning, found: World, seen: World, i: nat)
    requires Behind(found) && Happens(w, t) && i < |found.units|
    requires found.built == w.built && seen == w.(units := Refreshed(found.units, t.lastUsed, t.floor))
    ensures var u, mark := seen.units[i], found.units[i].visited;
            if u.dir in ReadyOf(seen.units, t.now) then Cold(t, u, mark) || u.built == mark else !Cold(t, u, mark)
  {
    var u := seen.units[i];
    ReadyIs(seen.units, t.now);
    ReadyIfCold(w, t, found, seen, i);
    MarkBehind(w, t, found, i);
    assert u in seen.units;
    if u.dir in ReadyOf(seen.units, t.now) {
      hide Behind, Happens, Cold;
      var v :| v in seen.units && v.dir == u.dir && v.Ready(t.now);
      var j :| 0 <= j < |seen.units| && seen.units[j] == v;
      SameDirSameBuild(found, t, i, j);
      assert u.Ready(t.now) || u.built == found.units[i].visited;
    }
  }

  /** A unit that was looked at is marked with no build after its last one. */
  lemma MarkBehind(w: World, t: Turning, found: World, i: nat)
    requires Behind(found) && Happens(w, t) && found.built == w.built && i < |found.units|
    ensures var u := Refreshed(found.units, t.lastUsed, t.floor)[i];
            u.visited == found.units[i].visited && NotAfter(u.visited, u.built)
  {
    assert found.units[i] in found.units;
  }

  lemma SameDirSameBuild(found: World, t: Turning, i: nat, j: nat)
    requires i < |found.units| && j < |found.units| && found.units[i].dir == found.units[j].dir
    ensures var seen := Refreshed(found.units, t.lastUsed, t.floor); seen[i].built == seen[j].built && seen[i].due == seen[j].due
  {}

  lemma TurnMarks(w: World, t: Turning, found: World, seen: World, units: seq<Unit>)
    requires Behind(found) && Happens(w, t)
    requires found.built == w.built && seen == w.(units := Refreshed(found.units, t.lastUsed, t.floor))
    requires units == if ReadyOf(seen.units, t.now) != [] && t.outcome.Some?
                      then Marked(seen.units, ReadyOf(seen.units, t.now), t.outcome.value) else seen.units
    ensures |units| == |found.units| && forall i :: 0 <= i < |units| ==> units[i].dir == found.units[i].dir
    ensures forall i :: 0 <= i < |units| ==> units[i].(visited := None) == seen.units[i].(visited := None)
    ensures forall i :: 0 <= i < |units| ==> TurnedInto(w.built, t, found.units[i].visited, units[i])
  {
    hide Behind, NotAfter;
    var ready := ReadyOf(seen.units, t.now);
    forall i | 0 <= i < |units| ensures TurnedInto(w.built, t, found.units[i].visited, units[i]) {
      var s := seen.units[i];
      ReadyDir(w, t, found, seen, i);
      assert s.visited == found.units[i].visited;
      assert s.dir in ready ==> ready != [];
      assert units[i] == if s.dir in ready && t.outcome.Some? && FinishedWith(t.outcome.value, s.dir) then s.(visited := s.built) else s;
    }
  }

  lemma StartedIfReady(units: seq<Unit>, t: Turning, seen: seq<Unit>)
    requires forall i :: 0 <= i < |t.during| ==> t.during[i].Built?
    requires seen == Refreshed(if t.walked.Some? then Discovered(t.walked.value, units) else units, t.lastUsed, t.floor)
    ensures Started(Events(units, t)) <==> ReadyOf(seen, t.now) != []
  {
    var run := Events(units, t);
    if ReadyOf(seen, t.now) != [] {
      assert run[|run| - 1].Finished? || run[|run| - 1].Failed?;
    }
  }

  lemma StartedIfCold(w: World, t: Turning, found: World, seen: World, units: seq<Unit>)
    requires Happens(w, t)
    requires found == w.(units := if t.walked.Some? then Discovered(t.walked.value, w.units) else w.units)
    requires seen == w.(units := Refreshed(found.units, t.lastUsed, t.floor))
    requires |units| == |seen.units| && forall i :: 0 <= i < |units| ==> units[i].(visited := None) == seen.units[i].(visited := None)
    ensures Started(Events(w.units, t)) <==> exists i :: 0 <= i < |units| && Cold(t, units[i], found.units[i].visited)
  {
    StartedIfReady(w.units, t, seen.units);
    ReadyIs(seen.units, t.now);
    forall i | 0 <= i < |units| ensures Cold(t, units[i], found.units[i].visited) <==> seen.units[i].Ready(t.now) {
      ReadyIfCold(w, t, found, seen, i);
    }
    if ReadyOf(seen.units, t.now) != [] {
      assert ReadyOf(seen.units, t.now)[0] in ReadyOf(seen.units, t.now);
      var u :| u in seen.units && u.Ready(t.now);
      var i :| 0 <= i < |seen.units| && seen.units[i] == u;
    }
    forall i | 0 <= i < |units| && seen.units[i].Ready(t.now) ensures ReadyOf(seen.units, t.now) != [] {
      assert seen.units[i] in seen.units;
      assert seen.units[i].dir in ReadyOf(seen.units, t.now);
    }
  }

  lemma TurnTells(w: World, t: Turning, found: World, seen: World, units: seq<Unit>)
    requires Behind(w) && Happens(w, t)
    requires found == w.(units := if t.walked.Some? then Discovered(t.walked.value, w.units) else w.units)
    requires seen == w.(units := Refreshed(found.units, t.lastUsed, t.floor))
    requires units == if ReadyOf(seen.units, t.now) != [] && t.outcome.Some?
                      then Marked(seen.units, ReadyOf(seen.units, t.now), t.outcome.value) else seen.units
    ensures forall u :: u in units ==>
              && u.built == LastBuilt(w.built, u.dir)
              && (u.Pending() <==> u.dir in w.built && u.visited != Some(w.built[u.dir]))
    ensures forall u :: u in units && u.visited.Some? && !Marks(w, u.dir, u.visited.value) ==>
              t.outcome.Some? && FinishedWith(t.outcome.value, u.dir) && u.visited == LastBuilt(w.built, u.dir)
  {
    if t.walked.Some? {
      StaysBehind(w, Walked(t.walked.value));
    }
    SameLook(found, t.lastUsed, t.floor);
    forall u | u in units
      ensures u.built == LastBuilt(w.built, u.dir) && (u.Pending() <==> u.dir in w.built && u.visited != Some(w.built[u.dir]))
      ensures u.visited.Some? && !Marks(w, u.dir, u.visited.value) ==>
                t.outcome.Some? && FinishedWith(t.outcome.value, u.dir) && u.visited == LastBuilt(w.built, u.dir)
    {
      var i :| 0 <= i < |units| && units[i] == u;
      var v := seen.units[i];
      assert v in seen.units;
      LookSeesBuilds(found, t.floor, v);
      if u.visited.Some? && u.visited == v.visited {
        assert found.units[i] in found.units;
        assert Marks(found, u.dir, u.visited.value);
        if t.walked.Some? {
          MarkedByRun(w, Walked(t.walked.value), u.dir, u.visited.value);
        }
      }
    }
  }

  /** How often the daemon looks at least, and how often it walks; `later` is when a turn is over, `found` what a walk then comes to. */
  datatype Times = Times(interval: nat, rediscover: nat)

  datatype Clocked = Clocked(turn: Turning, found: seq<Path>, later: nat) {
    /** The turn when the next walk is due at `next`. */
    function At(next: nat): Turning {
      turn.(walked := if next <= turn.now then Some(found) else None)
    }
  }

  /** When the next walk is due before turn `k`: at once, and then so long after the last one. */
  ghost function WalkDue(turns: seq<Clocked>, c: Times, k: nat): nat
    requires k <= |turns|
  {
    if k == 0 then 0
    else if WalkDue(turns, c, k - 1) <= turns[k - 1].turn.now then SaturatingAdd(turns[k - 1].turn.now, c.rediscover)
    else WalkDue(turns, c, k - 1)
  }

  /** The turn as it is taken: with a walk if one is due. */
  ghost function AsTaken(turns: seq<Clocked>, c: Times, k: nat): Turning
    requires k < |turns|
  {
    turns[k].At(WalkDue(turns, c, k))
  }

  /** The daemon wakes no later than the interval, the next walk, or the time a unit not visited for its last build goes cold. */
  ghost predicate Wakes(c: Times, later: nat, next: nat, units: seq<Unit>, wake: nat) {
    && wake <= later + c.interval && wake <= next
    && (forall u :: u in units && Waits(u, later) ==> wake <= u.due.value)
    && (wake == later + c.interval || wake == U64_MAX || wake == next || exists u :: u in units && Waits(u, later) && u.due.value == wake)
  }

  ghost predicate Waits(u: Unit, now: nat) {
    u.built.Some? && (u.visited.None? || u.visited.value < u.built.value) && u.due.Some? && now < u.due.value
  }

  /** The world after the first `k` turns, as far as builds go. */
  ghost function BuiltAfter(w: World, turns: seq<Clocked>, k: nat): World
    requires k <= |turns|
  {
    if k == 0 then w else After(BuiltAfter(w, turns, k - 1), turns[k - 1].turn.during, |turns[k - 1].turn.during|)
  }

  /** The units after each of the first turns, what each turn found marked, and when it had the daemon wake again. */
  ghost predicate Past(w: World, turns: seq<Clocked>, c: Times, history: seq<seq<Unit>>, marks: seq<seq<Option<nat>>>, wakes: seq<nat>) {
    && |history| == |marks| + 1 && |wakes| == |marks| <= |turns|
    && forall k :: 0 <= k < |marks| ==>
         && Turned(BuiltAfter(w, turns, k).built, AsTaken(turns, c, k), history[k], marks[k], history[k + 1])
         && Wakes(c, turns[k].later, WalkDue(turns, c, k + 1), history[k + 1], wakes[k])
  }

  /** What may be told of the first `k` turns, over units that were `first` and have become `last`. */
  ghost function Pasts(w: World, turns: seq<Clocked>, c: Times, k: nat, first: seq<Unit>, last: seq<Unit>):
    iset<(seq<seq<Unit>>, seq<seq<Option<nat>>>, seq<nat>)>
  {
    iset t: (seq<seq<Unit>>, seq<seq<Option<nat>>>, seq<nat>) |
      Past(w, turns, c, t.0, t.1, t.2) && |t.1| == k && t.0[0] == first && t.0[k] == last
  }

  lemma NothingPast(w: World, turns: seq<Clocked>, c: Times, units: seq<Unit>)
    ensures ([units], [], []) in Pasts(w, turns, c, 0, units, units)
  {}

  lemma IsPast(w: World, turns: seq<Clocked>, c: Times, first: seq<Unit>, last: seq<Unit>, history: seq<seq<Unit>>,
               marks: seq<seq<Option<nat>>>, wakes: seq<nat>)
    requires (history, marks, wakes) in Pasts(w, turns, c, |turns|, first, last)
    ensures Past(w, turns, c, history, marks, wakes) && |marks| == |turns| && history[0] == first && history[|turns|] == last
  {}

  lemma PastOneMore(w: World, turns: seq<Clocked>, c: Times, history: seq<seq<Unit>>, marks: seq<seq<Option<nat>>>, wakes: seq<nat>,
                    k: nat, first: seq<Unit>, last: seq<Unit>, units: seq<Unit>, found: seq<Option<nat>>, wake: nat)
    requires k < |turns| && (history, marks, wakes) in Pasts(w, turns, c, k, first, last)
    requires Turned(BuiltAfter(w, turns, k).built, AsTaken(turns, c, k), last, found, units)
    requires Wakes(c, turns[k].later, WalkDue(turns, c, k + 1), units, wake)
    ensures (history + [units], marks + [found], wakes + [wake]) in Pasts(w, turns, c, k + 1, first, units)
  {}

  /** One turn, with a walk if one is due, and when to wake after it. */
  method TimedTurn(state: State, x: Clocked, c: Times, due: nat, ghost w: World)
    returns (next: nat, wake: nat, ghost run: seq<Event>, ghost marks: seq<Option<nat>>)
    requires Behind(w) && w.units == state.units && Happens(w, x.turn)
    modifies state
    ensures next == if due <= x.turn.now then SaturatingAdd(x.turn.now, c.rediscover) else due
    ensures LegalTo(w, run, |run|) && After(w, run, |run|).units == state.units
    ensures After(w, run, |run|).built == After(w, x.turn.during, |x.turn.during|).built && Behind(After(w, run, |run|))
    ensures Turned(w.built, x.At(due), old(state.units), marks, state.units)
    ensures Started(run) <==> exists i :: 0 <= i < |marks| && Cold(x.At(due), state.units[i], marks[i])
    ensures Wakes(c, x.later, next, state.units, wake)
  {
    next := due;
    if due <= x.turn.now {
      next := SaturatingAdd(x.turn.now, c.rediscover);
    }
    run, marks := Turn(state, x.At(due), w);
    wake := NextWake(state.units, x.later, c.interval, next);
  }

  /** The daemon: turn after turn, with a walk when one is due, each telling when it has to wake again. All that is proved of runs of
      events holds of it. */
  method Loop(state: State, turns: seq<Clocked>, c: Times, ghost w: World)
    returns (ghost run: seq<Event>, ghost history: seq<seq<Unit>>, ghost marks: seq<seq<Option<nat>>>, ghost wakes: seq<nat>)
    requires Behind(w) && w.units == state.units
    requires forall k :: 0 <= k < |turns| ==> Happens(BuiltAfter(w, turns, k), turns[k].turn)
    modifies state
    ensures LegalTo(w, run, |run|) && After(w, run, |run|).units == state.units
    ensures forall u, b :: u in state.units && u.visited == Some(b) ==> Marks(w, u.dir, b) || Earned(w, run, |run|, u.dir, b)
    ensures Past(w, turns, c, history, marks, wakes) && |marks| == |turns|
    ensures history[0] == old(state.units) && history[|turns|] == state.units
  {
    run, history, marks, wakes := [], [state.units], [], [];
    NothingPast(w, turns, c, state.units);
    var next := 0;
    for k := 0 to |turns|
      invariant (history, marks, wakes) in Pasts(w, turns, c, k, old(state.units), state.units) && next == WalkDue(turns, c, k)
      invariant LegalTo(w, run, |run|) && After(w, run, |run|).units == state.units
      invariant Behind(After(w, run, |run|)) && After(w, run, |run|).built == BuiltAfter(w, turns, k).built
    {
      ghost var now, before := After(w, run, |run|), state.units;
      HappensThen(w, turns, k, now);
      var wake;
      ghost var more, found;
      next, wake, more, found := TimedTurn(state, turns[k], c, next, now);
      JoinLegal(w, run, more);
      PastOneMore(w, turns, c, history, marks, wakes, k, old(state.units), before, state.units, found, wake);
      run, history, marks, wakes := run + more, history + [state.units], marks + [found], wakes + [wake];
    }
    IsPast(w, turns, c, old(state.units), state.units, history, marks, wakes);
    AllEarned(w, run, state.units);
  }

  lemma AllEarned(w: World, run: seq<Event>, units: seq<Unit>)
    requires After(w, run, |run|).units == units
    ensures forall u, b :: u in units && u.visited == Some(b) ==> Marks(w, u.dir, b) || Earned(w, run, |run|, u.dir, b)
  {
    forall u, b | u in units && u.visited == Some(b) ensures Marks(w, u.dir, b) || Earned(w, run, |run|, u.dir, b) {
      assert Marks(After(w, run, |run|), u.dir, b);
      VisitsAreEarned(w, run, |run|, u.dir, b);
    }
  }

  /** What happens in a turn does not depend on what the daemon knows. */
  lemma HappensThen(w: World, turns: seq<Clocked>, k: nat, now: World)
    requires k < |turns| && Happens(BuiltAfter(w, turns, k), turns[k].turn) && now.built == BuiltAfter(w, turns, k).built
    ensures Happens(now, turns[k].turn)
    ensures After(now, turns[k].turn.during, |turns[k].turn.during|).built == BuiltAfter(w, turns, k + 1).built
  {
    SameBuilds(BuiltAfter(w, turns, k), now, turns[k].turn.during, |turns[k].turn.during|);
  }
}
