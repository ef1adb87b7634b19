/** The one walk that finds build dirs (`discover` in `src/eco/mod.rs`): a claimed dir is not entered. */
module Discover {
  import opened Order
  import opened Paths
  import opened Model
  import opened Guards
  import opened Scans

  /** A dir that can be read, and whether some adapter claims it. */
  datatype Dir = Dir(name: Component, claimed: bool, children: seq<Dir>)

  const GIT: Component := Name(".git")

  /** What the walk finds at `path` and below. */
  function Claims(path: Path, d: Dir): seq<Path>
    decreases d
  {
    if d.name == GIT then [] else if d.claimed then [path] else ClaimsIn(path, d.children)
  }

  function ClaimsIn(path: Path, ds: seq<Dir>): seq<Path>
    decreases ds
  {
    if ds == [] then [] else Claims(path + [ds[0].name], ds[0]) + ClaimsIn(path, ds[1..])
  }

  function ClaimsOf(trees: seq<(Path, Dir)>): seq<Path> {
    if trees == [] then [] else Claims(trees[0].0, trees[0].1) + ClaimsOf(trees[1..])
  }

  function Size(d: Dir): nat {
    1 + SizeIn(d.children)
  }

  function SizeIn(ds: seq<Dir>): nat {
    if ds == [] then 0 else Size(ds[0]) + SizeIn(ds[1..])
  }

  function SizeOf(trees: seq<(Path, Dir)>): nat {
    if trees == [] then 0 else Size(trees[0].1) + SizeOf(trees[1..])
  }

  function Below(path: Path, ds: seq<Dir>): seq<(Path, Dir)> {
    if ds == [] then [] else [(path + [ds[0].name], ds[0])] + Below(path, ds[1..])
  }

  lemma FirstTree(tree: (Path, Dir), more: seq<(Path, Dir)>)
    ensures ClaimsOf([tree] + more) == Claims(tree.0, tree.1) + ClaimsOf(more)
    ensures SizeOf([tree] + more) == Size(tree.1) + SizeOf(more)
  {
    var all := [tree] + more;
    assert all[0] == tree && all[1..] == more;
  }

  lemma {:induction false} BelowIs(path: Path, ds: seq<Dir>, rest: seq<(Path, Dir)>)
    ensures ClaimsOf(Below(path, ds) + rest) == ClaimsIn(path, ds) + ClaimsOf(rest)
    ensures SizeOf(Below(path, ds) + rest) == SizeIn(ds) + SizeOf(rest)
  {
    if ds == [] {
      assert Below(path, ds) + rest == rest;
    } else {
      var first, more := (path + [ds[0].name], ds[0]), Below(path, ds[1..]) + rest;
      BelowIs(path, ds[1..], rest);
      FirstTree(first, more);
      assert Below(path, ds) + rest == [first] + more;
      assert ClaimsIn(path, ds) + ClaimsOf(rest) == Claims(first.0, first.1) + (ClaimsIn(path, ds[1..]) + ClaimsOf(rest));
    }
  }

  /** Names are distinct among the children of every dir. */
  ghost predicate Proper(d: Dir) {
    ProperIn(d.children)
  }

  ghost predicate ProperIn(ds: seq<Dir>) {
    && (forall i, j :: 0 <= i < j < |ds| ==> ds[i].name != ds[j].name)
    && (ds != [] ==> Proper(ds[0]) && ProperIn(ds[1..]))
  }

  function Child(ds: seq<Dir>, name: Component): Option<Dir>
    decreases ds
  {
    if ds == [] then None else if ds[0].name == name then Some(ds[0]) else Child(ds[1..], name)
  }

  /** The dir at `p` below `d`. */
  function At(d: Dir, p: Path): Option<Dir>
    decreases |p|
  {
    if p == [] then Some(d)
    else if Child(d.children, p[0]).None? then None
    else At(Child(d.children, p[0]).value, p[1..])
  }

  /** The walk goes on below `p`. */
  predicate Entered(top: Dir, p: Path) {
    At(top, p).Some? && At(top, p).value.name != GIT && !At(top, p).value.claimed
  }

  /** The walk of `root` comes to `p` and finds it claimed: every dir on the way from the root is entered. */
  ghost predicate IsFound(top: Dir, root: Path, p: Path) {
    && Under(p, root)
    && At(top, p).Some? && At(top, p).value.name != GIT && At(top, p).value.claimed
    && forall n :: |root| <= n < |p| ==> Entered(top, p[..n])
  }

  /** The roots that are there, with the dirs at them. */
  function Views(top: Dir, roots: seq<Path>): seq<(Path, Dir)> {
    if roots == [] then []
    else
      var rest := Views(top, roots[1..]);
      if At(top, roots[0]).Some? then [(roots[0], At(top, roots[0]).value)] + rest else rest
  }

  /** What the walk of `d` finds at `rel` below it, told dir by dir. */
  predicate FoundBelow(d: Dir, rel: Path)
    decreases |rel|
  {
    && d.name != GIT
    && (if d.claimed then rel == []
        else rel != [] && Child(d.children, rel[0]).Some? && FoundBelow(Child(d.children, rel[0]).value, rel[1..]))
  }

  lemma {:induction false} ClaimsExactly(path: Path, d: Dir, p: Path)
    requires Proper(d)
    ensures p in Claims(path, d) <==> Under(p, path) && FoundBelow(d, p[|path|..])
    decreases d
  {
    if d.name != GIT && !d.claimed {
      ClaimsInExactly(path, d.children, p);
      if Under(p, path) && |p| > |path| {
        assert p[|path|..][0] == p[|path|] && p[|path|..][1..] == p[|path| + 1..];
      }
    } else if Under(p, path) {
      assert p[|path|..] == [] <==> p == path;
    }
  }

  lemma {:induction false} ClaimsInExactly(path: Path, ds: seq<Dir>, p: Path)
    requires ProperIn(ds)
    ensures p in ClaimsIn(path, ds) <==>
              && Under(p, path) && |p| > |path| && Child(ds, p[|path|]).Some?
              && FoundBelow(Child(ds, p[|path|]).value, p[|path| + 1..])
    decreases ds
  {
    if ds != [] {
      var below := path + [ds[0].name];
      ClaimsExactly(below, ds[0], p);
      ClaimsInExactly(path, ds[1..], p);
      UnderChild(p, path, ds[0].name);
      if Under(p, path) && |p| > |path| && p[|path|] == ds[0].name {
        NoOtherChild(ds[1..], ds[0].name);
      }
    }
  }

  lemma UnderChild(p: Path, path: Path, name: Component)
    ensures Under(p, path + [name]) <==> Under(p, path) && |p| > |path| && p[|path|] == name
  {
    if Under(p, path + [name]) {
      assert (path + [name])[..|path|] == p[..|path|];
    }
  }

  lemma {:induction false} NoOtherChild(ds: seq<Dir>, name: Component)
    requires forall i :: 0 <= i < |ds| ==> ds[i].name != name
    ensures Child(ds, name).None?
  {
    if ds != [] {
      NoOtherChild(ds[1..], name);
    }
  }

  lemma {:induction false} FoundBelowIs(d: Dir, rel: Path)
    ensures FoundBelow(d, rel) <==>
              && At(d, rel).Some? && At(d, rel).value.name != GIT && At(d, rel).value.claimed
              && forall n :: 0 <= n < |rel| ==> Entered(d, rel[..n])
    decreases |rel|
  {
    if rel != [] {
      assert rel[..0] == [];
      if Child(d.children, rel[0]).Some? {
        var c := Child(d.children, rel[0]).value;
        FoundBelowIs(c, rel[1..]);
        forall n | 0 <= n < |rel| - 1 ensures At(d, rel[..n + 1]) == At(c, rel[1..][..n]) {
          assert rel[..n + 1][0] == rel[0] && rel[..n + 1][1..] == rel[1..][..n];
        }
        forall n | 1 <= n < |rel| ensures Entered(d, rel[..n]) <==> Entered(c, rel[1..][..n - 1]) {
          assert At(d, rel[..(n - 1) + 1]) == At(c, rel[1..][..n - 1]);
        }
        if forall n :: 0 <= n < |rel| ==> Entered(d, rel[..n]) {
          forall n | 0 <= n < |rel[1..]| ensures Entered(c, rel[1..][..n]) {
            assert Entered(d, rel[..n + 1]);
          }
        }
      } else {
        assert At(d, rel).None?;
      }
    }
  }

  lemma {:induction false} AtJoin(d: Dir, p: Path, q: Path)
    requires At(d, p).Some?
    ensures At(d, p + q) == At(At(d, p).value, q)
    decreases |p|
  {
    if p == [] {
      assert p + q == q;
    } else {
      assert (p + q)[0] == p[0] && (p + q)[1..] == p[1..] + q;
      AtJoin(Child(d.children, p[0]).value, p[1..], q);
    }
  }

  lemma {:induction false} AtProper(d: Dir, p: Path)
    requires Proper(d) && At(d, p).Some?
    ensures Proper(At(d, p).value)
    decreases |p|
  {
    if p != [] {
      ChildProper(d.children, p[0]);
      AtProper(Child(d.children, p[0]).value, p[1..]);
    }
  }

  lemma {:induction false} ChildProper(ds: seq<Dir>, name: Component)
    requires ProperIn(ds) && Child(ds, name).Some?
    ensures Proper(Child(ds, name).value)
  {
    if ds[0].name != name {
      ChildProper(ds[1..], name);
    }
  }

  lemma {:induction false} AtFront(d: Dir, p: Path, n: nat)
    requires n <= |p| && At(d, p).Some?
    ensures At(d, p[..n]).Some?
    decreases n
  {
    if n > 0 {
      assert p[..n][0] == p[0] && p[..n][1..] == p[1..][..n - 1];
      AtFront(Child(d.children, p[0]).value, p[1..], n - 1);
    }
  }

  /** What the walk of one root finds. */
  lemma RootFinds(top: Dir, root: Path, p: Path)
    requires Proper(top) && At(top, root).Some?
    ensures p in Claims(root, At(top, root).value) <==> IsFound(top, root, p)
  {
    var d := At(top, root).value;
    AtProper(top, root);
    ClaimsExactly(root, d, p);
    if Under(p, root) {
      var rel := p[|root|..];
      assert p == root + rel;
      FoundBelowIs(d, rel);
      AtJoin(top, root, rel);
      forall n | 0 <= n <= |rel| ensures At(top, p[..|root| + n]) == At(d, rel[..n]) {
        AtJoin(top, root, rel[..n]);
        assert p[..|root| + n] == root + rel[..n];
      }
      if IsFound(top, root, p) {
        forall n | 0 <= n < |rel| ensures Entered(d, rel[..n]) {
          assert Entered(top, p[..|root| + n]);
        }
      }
      if FoundBelow(d, rel) {
        forall n | |root| <= n < |p| ensures Entered(top, p[..n]) {
          assert Entered(d, rel[..n - |root|]) && n == |root| + (n - |root|);
        }
      }
    }
  }

  lemma MissingFindsNothing(top: Dir, root: Path, p: Path)
    requires At(top, root).None?
    ensures !IsFound(top, root, p)
  {
    if Under(p, root) && At(top, p).Some? {
      assert p[..|root|] == root;
      AtFront(top, p, |root|);
    }
  }

  lemma {:induction false} RootsFind(top: Dir, roots: seq<Path>, p: Path)
    requires Proper(top)
    ensures p in ClaimsOf(Views(top, roots)) <==> exists r :: r in roots && IsFound(top, r, p)
  {
    if roots != [] {
      RootsFind(top, roots[1..], p);
      var rest := Views(top, roots[1..]);
      assert roots == [roots[0]] + roots[1..];
      if At(top, roots[0]).Some? {
        RootFinds(top, roots[0], p);
        assert ([(roots[0], At(top, roots[0]).value)] + rest)[1..] == rest;
      } else {
        MissingFindsNothing(top, roots[0], p);
      }
    }
  }

  /** The claimed dirs the walks of the roots come to, each once, in path order. */
  method FindBuildDirs(top: Dir, roots: seq<Path>) returns (found: seq<Path>)
    requires Proper(top)
    ensures Ascending(found) && forall p :: p in found <==> exists r :: r in roots && IsFound(top, r, p)
  {
    var walk := Views(top, roots);
    found := [];
    while walk != []
      invariant found + ClaimsOf(walk) == ClaimsOf(Views(top, roots))
      decreases SizeOf(walk)
    {
      var path, d := walk[0].0, walk[0].1;
      if d.name == GIT {
        walk := walk[1..];
      } else if d.claimed {
        found := found + [path];
        walk := walk[1..];
      } else {
        BelowIs(path, d.children, walk[1..]);
        walk := Below(path, d.children) + walk[1..];
      }
    }
    assert found == ClaimsOf(Views(top, roots));
    forall p ensures p in found <==> exists r :: r in roots && IsFound(top, r, p) {
      RootsFind(top, roots, p);
    }
    UnitsAscending(found);
    found := Units(found);
  }

  /** A root lies below a dir that the walk of another root claims and does not enter, and finds something there. */
  ghost predicate Overlap(top: Dir, roots: seq<Path>, r: Path, s: Path, d: Path) {
    r in roots && s in roots && IsFound(top, r, d) && Under(s, d) && s != d && exists p :: IsFound(top, s, p)
  }

  /** What is found lies apart, which a run asks of its units, if and only if no root that finds anything lies inside a dir
      claimed from another root. Nested roots do no harm otherwise. */
  lemma BuildDirsApart(top: Dir, roots: seq<Path>, found: seq<Path>)
    requires Ascending(found) && forall p :: p in found <==> exists r :: r in roots && IsFound(top, r, p)
    ensures DirsApart(found) <==> !exists r, s, d :: Overlap(top, roots, r, s, d)
  {
    forall r, s, d | Overlap(top, roots, r, s, d) ensures !DirsApart(found) {
      NestedRootsOverlap(top, roots, found, r, s, d);
    }
    if !DirsApart(found) {
      var i, j :| 0 <= i < |found| && 0 <= j < |found| && i != j && Under(found[i], found[j]);
      OneOrOther(found, i, j);
      var q, d := found[i], found[j];
      assert q in found && d in found;
      var r :| r in roots && IsFound(top, r, d);
      var s :| s in roots && IsFound(top, s, q);
      UnderBoth(q, s, d);
      ClaimedIsNotPassed(top, s, q, d);
      assert Overlap(top, roots, r, s, d);
    }
  }

  /** A root does not come past a claimed dir. */
  lemma ClaimedIsNotPassed(top: Dir, s: Path, q: Path, d: Path)
    requires IsFound(top, s, q) && Under(q, d) && q != d && At(top, d).Some? && At(top, d).value.claimed
    ensures !Under(d, s)
  {
    assert q[..|d|] == d && |d| < |q|;
    assert !Entered(top, q[..|d|]);
  }

  /** A root given inside another root's build dir breaks it, wherever the two are and whatever it finds there. */
  lemma NestedRootsOverlap(top: Dir, roots: seq<Path>, found: seq<Path>, r: Path, s: Path, d: Path)
    requires forall p :: p in found <==> exists r :: r in roots && IsFound(top, r, p)
    requires Overlap(top, roots, r, s, d)
    ensures !DirsApart(found)
  {
    var p :| IsFound(top, s, p);
    Through(p, s, d);
    assert p in found && d in found && p != d;
    var i :| 0 <= i < |found| && found[i] == p;
    var j :| 0 <= j < |found| && found[j] == d;
  }

  lemma Through(p: Path, q: Path, b: Path)
    requires Under(p, q) && Under(q, b)
    ensures Under(p, b) && (q != b ==> p != b)
  {
    assert q[..|b|] == p[..|b|];
  }

  lemma OneOrOther(units: seq<Path>, i: nat, j: nat)
    requires Ascending(units) && i < |units| && j < |units| && i != j
    ensures units[i] != units[j]
  {
    PathOrder();
    assert PathLess(units[i], units[j]) || PathLess(units[j], units[i]);
  }
}
