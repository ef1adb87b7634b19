/** When a lossy pass may delete a dir (`remove` and its two callers, `note_busy` in `src/engine.rs`). */
module Removal {
  import opened Paths
  import opened Files
  import opened Model
  import opened Apply
  import opened Preserve
  import opened Scans

  /** A dir of a locked unit, never one around it, and no unit where a check said "maybe". */
  function RemoveRefusal(dir: Path, locked: seq<Path>, unsure: seq<Path>): Option<Skip> {
    if !LockedIn(dir, locked) then Some(Unlocked)
    else if LockedIn(dir, unsure) then Some(Unsure)
    else None
  }

  /** Some of `dirs` lies in `target`. */
  predicate Holds(target: Path, dirs: seq<Path>) {
    exists i :: 0 <= i < |dirs| && Under(dirs[i], target)
  }

  /** A dir of a build dir that holds still: a lock in it is held, nothing in it is built, and what goes is in it. */
  function TargetRefusal(target: Path, dir: Path, locked: seq<Path>, busy: seq<Path>, unsure: seq<Path>): Option<Skip> {
    if !Holds(target, locked) || Holds(target, busy) || !Under(dir, target) then Some(Unlocked)
    else if Holds(target, unsure) then Some(Unsure)
    else None
  }

  /** A dir may go that lies in a locked unit, unless it lies in an unsure one. */
  ghost predicate MayRemove(dir: Path, locked: seq<Path>, unsure: seq<Path>) {
    (exists u :: u in locked && u <= dir) && !exists u :: u in unsure && u <= dir
  }

  /** A dir of a target may go if the target has a locked unit, and none that is busy or unsure. */
  ghost predicate MayRemoveOf(target: Path, dir: Path, locked: seq<Path>, busy: seq<Path>, unsure: seq<Path>) {
    target <= dir && (exists u :: u in locked && target <= u) && !exists u :: (u in busy || u in unsure) && target <= u
  }

  /** No removal is refused that may be made, nor let through that may not; only a doubt is told of as one. */
  lemma RefusedExactly(target: Path, dir: Path, locked: seq<Path>, busy: seq<Path>, unsure: seq<Path>)
    ensures RemoveRefusal(dir, locked, unsure).None? <==> MayRemove(dir, locked, unsure)
    ensures RemoveRefusal(dir, locked, unsure) == Some(Unsure) <==> MayRemove(dir, locked, []) && !MayRemove(dir, locked, unsure)
    ensures TargetRefusal(target, dir, locked, busy, unsure).None? <==> MayRemoveOf(target, dir, locked, busy, unsure)
    ensures TargetRefusal(target, dir, locked, busy, unsure) == Some(Unsure) <==>
              MayRemoveOf(target, dir, locked, busy, []) && !MayRemoveOf(target, dir, locked, busy, unsure)
  {
    LockedInIs(dir, locked);
    LockedInIs(dir, unsure);
    HoldsIs(target, locked);
    HoldsIs(target, busy);
    HoldsIs(target, unsure);
  }

  lemma LockedInIs(dir: Path, locked: seq<Path>)
    ensures LockedIn(dir, locked) <==> exists u :: u in locked && u <= dir
  {
    if exists u :: u in locked && u <= dir {
      var u :| u in locked && u <= dir;
      var i :| 0 <= i < |locked| && locked[i] == u;
      assert Under(dir, locked[i]);
    }
    forall i | 0 <= i < |locked| && Under(dir, locked[i]) ensures exists u :: u in locked && u <= dir {
      assert locked[i] in locked;
    }
  }

  lemma HoldsIs(target: Path, dirs: seq<Path>)
    ensures Holds(target, dirs) <==> exists u :: u in dirs && target <= u
  {
    if exists u :: u in dirs && target <= u {
      var u :| u in dirs && target <= u;
      var i :| 0 <= i < |dirs| && dirs[i] == u;
      assert Under(dirs[i], target);
    }
    forall i | 0 <= i < |dirs| && Under(dirs[i], target) ensures exists u :: u in dirs && target <= u {
      assert dirs[i] in dirs;
    }
  }

  /** Removing `dir` takes nothing from `unit`. */
  ghost predicate Spares(dir: Path, unit: Path) {
    forall p :: Under(p, unit) ==> !Under(p, dir)
  }

  /** What was known when a removal was let through: of one dir, or of something in a whole build dir. */
  datatype Removed = Removed(dir: Path, whole: bool, locked: seq<Path>, busy: seq<Path>, unsure: seq<Path>)

  /** No removal takes anything from an unsure unit; one in a whole build dir takes nothing from a busy unit, whether it was busy
      from the start or found in use since; one of a single dir takes nothing from any unit but the locked one it lies in. */
  ghost predicate Allowed(units: seq<Path>, r: Removed) {
    && (forall u :: u in units && u in r.unsure ==> Spares(r.dir, u))
    && (r.whole ==> forall u :: u in units && u in r.busy ==> Spares(r.dir, u))
    && (!r.whole ==> exists v :: v in r.locked && Under(r.dir, v) && SparesAllBut(units, r.dir, v))
  }

  ghost predicate SparesAllBut(units: seq<Path>, dir: Path, v: Path) {
    forall u :: u in units && u != v ==> Spares(dir, u)
  }

  lemma ApartUnits(units: seq<Path>, u: Path, v: Path)
    requires DirsApart(units) && u in units && v in units && (Under(u, v) || Under(v, u))
    ensures u == v
  {
    var i :| 0 <= i < |units| && units[i] == u;
    var j :| 0 <= j < |units| && units[j] == v;
  }

  lemma UnderTransitive(p: Path, d: Path, e: Path)
    requires Under(p, d) && Under(d, e)
    ensures Under(p, e)
  {
    assert p[..|e|] == d[..|e|];
  }

  /** A removal of a dir let through takes nothing from any unit but the one that holds it, which is locked and not unsure. */
  lemma RemovalAllowed(units: seq<Path>, dir: Path, locked: seq<Path>, busy: seq<Path>, unsure: seq<Path>)
    requires DirsApart(units) && (forall u :: u in locked ==> u in units)
    requires RemoveRefusal(dir, locked, unsure).None?
    ensures Allowed(units, Removed(dir, false, locked, busy, unsure))
  {
    var i :| 0 <= i < |locked| && Under(dir, locked[i]);
    var v := locked[i];
    forall u | u in unsure ensures !Under(dir, u) {}
    assert v !in unsure;
    forall u, p | u in units && u != v && Under(p, u) ensures !Under(p, dir) {
      if Under(p, dir) {
        UnderTransitive(p, dir, v);
        UnderBoth(p, u, v);
        ApartUnits(units, u, v);
      }
    }
    assert SparesAllBut(units, dir, v);
  }

  /** A removal in a build dir let through takes nothing from a busy unit, locked or not, nor from an unsure one. */
  lemma TargetRemovalAllowed(units: seq<Path>, target: Path, dir: Path, locked: seq<Path>, busy: seq<Path>, unsure: seq<Path>)
    requires DirsApart(units) && (forall u :: u in locked ==> u in units)
    requires TargetRefusal(target, dir, locked, busy, unsure).None?
    ensures Allowed(units, Removed(dir, true, locked, busy, unsure))
  {
    var i :| 0 <= i < |locked| && Under(locked[i], target);
    forall u | u in unsure || u in busy ensures !Under(u, target) {}
    forall u, p | u in units && (u in unsure || u in busy) && Under(p, u) ensures !Under(p, dir) {
      if Under(p, dir) {
        UnderTransitive(p, dir, target);
        UnderBoth(p, u, target);
        UnderTransitive(locked[i], target, u);
        ApartUnits(units, u, locked[i]);
      }
    }
  }

  /** `retain`: what is removed is not worked on any longer. */
  function Without(locked: seq<Path>, dir: Path): seq<Path> {
    if locked == [] then []
    else
      var last := locked[|locked| - 1];
      Without(locked[..|locked| - 1], dir) + if Under(last, dir) then [] else [last]
  }

  lemma {:induction false} WithoutAt(locked: seq<Path>, dir: Path)
    ensures forall u :: u in Without(locked, dir) <==> u in locked && !Under(u, dir)
    ensures DirsApart(locked) ==> DirsApart(Without(locked, dir))
  {
    if locked != [] {
      var front, last := locked[..|locked| - 1], locked[|locked| - 1];
      WithoutAt(front, dir);
      assert locked == front + [last];
      var r := Without(front, dir);
      if DirsApart(locked) {
        assert DirsApart(front);
        forall i | 0 <= i < |r| ensures !Under(r[i], last) && !Under(last, r[i]) {
          assert r[i] in r;
          var j :| 0 <= j < |front| && front[j] == r[i];
          assert locked[j] == r[i] && locked[|locked| - 1] == last;
        }
      }
    }
  }

  /** Whether the pass found a file of `unit` in use. */
  ghost predicate FoundBusy(skipped: seq<(Path, Skip)>, unit: Path) {
    exists i :: 0 <= i < |skipped| && skipped[i].1 == Busy && (Under(skipped[i].0, unit) || Under(unit, skipped[i].0))
  }

  /** Adds the unit of every file the pass found busy, once. */
  method NoteBusy(skipped: seq<(Path, Skip)>, locked: seq<Path>, busy: seq<Path>) returns (more: seq<Path>)
    ensures busy <= more
    ensures forall u :: u in more <==> u in busy || (u in locked && FoundBusy(skipped, u))
    ensures (forall i, j :: 0 <= i < j < |busy| ==> busy[i] != busy[j]) ==>
              forall i, j :: 0 <= i < j < |more| ==> more[i] != more[j]
  {
    more := busy;
    for i := 0 to |skipped|
      invariant busy <= more
      invariant forall u :: u in more <==> u in busy || (u in locked && FoundBusy(skipped[..i], u))
      invariant (forall k, l :: 0 <= k < l < |busy| ==> busy[k] != busy[l]) ==>
                  forall k, l :: 0 <= k < l < |more| ==> more[k] != more[l]
    {
      ghost var start := more;
      if skipped[i].1 == Busy {
        for j := 0 to |locked|
          invariant start <= more && busy <= more
          invariant forall u :: u in more <==>
                      u in start || (u in locked[..j] && (Under(skipped[i].0, u) || Under(u, skipped[i].0)))
          invariant (forall k, l :: 0 <= k < l < |start| ==> start[k] != start[l]) ==>
                      forall k, l :: 0 <= k < l < |more| ==> more[k] != more[l]
        {
          var u := locked[j];
          if (Under(skipped[i].0, u) || Under(u, skipped[i].0)) && u !in more {
            more := more + [u];
          }
        }
        assert locked[..|locked|] == locked;
      }
      forall u ensures FoundBusy(skipped[..i + 1], u) <==>
        FoundBusy(skipped[..i], u) || (skipped[i].1 == Busy && (Under(skipped[i].0, u) || Under(u, skipped[i].0)))
      {
        FoundBusyOneMore(skipped, i, u);
      }
    }
    assert skipped[..|skipped|] == skipped;
  }

  lemma FoundBusyOneMore(skipped: seq<(Path, Skip)>, i: nat, u: Path)
    requires i < |skipped|
    ensures FoundBusy(skipped[..i + 1], u) <==>
            FoundBusy(skipped[..i], u) || (skipped[i].1 == Busy && (Under(skipped[i].0, u) || Under(u, skipped[i].0)))
  {
    var front, more := skipped[..i], skipped[..i + 1];
    assert more == front + [skipped[i]];
    if FoundBusy(front, u) {
      var k :| 0 <= k < |front| && front[k].1 == Busy && (Under(front[k].0, u) || Under(u, front[k].0));
      assert more[k] == front[k];
    }
    if skipped[i].1 == Busy && (Under(skipped[i].0, u) || Under(u, skipped[i].0)) {
      assert more[i] == skipped[i];
    }
  }
}
