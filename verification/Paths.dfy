/** Paths as normalised component sequences, and the engine's names for its temp files. */
module Paths {
  import opened Order

  /** A file name: any text, or one that `sibling_temp` makes, the temp prefix with the process id and a
      serial behind it. Only this tool makes names of the second form. */
  datatype Component = Name(text: string) | Temp(pid: nat, serial: nat)

  type Path = seq<Component>

  const TMP_PREFIX: string := ".dunnage-tmp-"

  /** `starts_with`: by whole components. */
  predicate Under(path: Path, dir: Path) {
    dir <= path
  }

  predicate LockedIn(path: Path, locked: seq<Path>) {
    exists i :: 0 <= i < |locked| && Under(path, locked[i])
  }

  predicate IsTempName(name: Component) {
    name.Temp? || TMP_PREFIX <= name.text
  }

  predicate IsTemp(path: Path) {
    path != [] && IsTempName(path[|path| - 1])
  }

  /** `with_file_name`. */
  function Sibling(path: Path, name: Component): Path {
    if path == [] then [name] else path[..|path| - 1] + [name]
  }

  function TempOf(path: Path, pid: nat, serial: nat): (r: Path)
    ensures r != [] && r[|r| - 1] == Temp(pid, serial)
  {
    Sibling(path, Temp(pid, serial))
  }

  /** A temp of the process `pid`, numbered from `lo` and below `hi`. */
  predicate Numbered(path: Path, pid: nat, lo: nat, hi: nat) {
    path != [] && path[|path| - 1].Temp? && path[|path| - 1].pid == pid && lo <= path[|path| - 1].serial < hi
  }

  predicate OwnTemp(path: Path, pid: nat, lo: nat) {
    path != [] && path[|path| - 1].Temp? && path[|path| - 1].pid == pid && lo <= path[|path| - 1].serial
  }

  predicate CharLess(a: char, b: char) {
    a < b
  }

  predicate TextLess(a: string, b: string) {
    LexLess(CharLess, a, b)
  }

  /** By text. Temps come first, by process and serial; no scan ever compares one. */
  predicate NameLess(a: Component, b: Component) {
    match (a, b)
    case (Name(s), Name(t)) => TextLess(s, t)
    case (Temp(p, n), Temp(q, m)) => p < q || (p == q && n < m)
    case (Temp(_, _), Name(_)) => true
    case (Name(_), Temp(_, _)) => false
  }

  predicate PathLess(a: Path, b: Path) {
    LexLess(NameLess, a, b)
  }

  predicate PathsLess(a: seq<Path>, b: seq<Path>) {
    LexLess(PathLess, a, b)
  }

  lemma TextOrder()
    ensures StrictTotal(TextLess)
  {
    forall a | true ensures !TextLess(a, a) { LexIrreflexive(CharLess, a); }
    forall a, b, c | TextLess(a, b) && TextLess(b, c) ensures TextLess(a, c) { LexTransitive(CharLess, a, b, c); }
    forall a, b | true ensures a == b || TextLess(a, b) || TextLess(b, a) { LexTotal(CharLess, a, b); }
  }

  lemma NameOrder()
    ensures StrictTotal(NameLess)
  {
    TextOrder();
  }

  lemma PathOrder()
    ensures StrictTotal(PathLess)
  {
    NameOrder();
    forall a | true ensures !PathLess(a, a) { LexIrreflexive(NameLess, a); }
    forall a, b, c | PathLess(a, b) && PathLess(b, c) ensures PathLess(a, c) { LexTransitive(NameLess, a, b, c); }
    forall a, b | true ensures a == b || PathLess(a, b) || PathLess(b, a) { LexTotal(NameLess, a, b); }
  }

  /** Paths are in order by the first component that differs, and names by the first character; what is a part of the other from the
      front comes first. */
  lemma PathsByText(front: Path, text: string, c: char, d: char, a: string, b: string, p: Path, q: Path)
    requires c != d
    ensures PathLess(front + [Name(text + [c] + a)] + p, front + [Name(text + [d] + b)] + q) <==> c < d
    ensures PathLess(front + [Name(text)] + p, front + [Name(text + [c] + a)] + q)
    ensures p != [] ==> PathLess(front, front + p) && !PathLess(front + p, front)
  {
    var s, t := text + [c] + a, text + [d] + b;
    assert s[|text|] == c && t[|text|] == d;
    FirstDecides(CharLess, text, c, d, a, b);
    FirstDecides(NameLess, front, Name(s), Name(t), p, q);
    assert s == text + ([c] + a) && |s| > |text|;
    FrontFirst(CharLess, text, [c] + a);
    FirstDecides(NameLess, front, Name(text), Name(s), p, q);
    FrontFirst(NameLess, front, p);
  }

  lemma PathsOrder()
    ensures StrictTotal(PathsLess)
  {
    PathOrder();
    forall a | true ensures !PathsLess(a, a) { LexIrreflexive(PathLess, a); }
    forall a, b, c | PathsLess(a, b) && PathsLess(b, c) ensures PathsLess(a, c) { LexTransitive(PathLess, a, b, c); }
    forall a, b | true ensures a == b || PathsLess(a, b) || PathsLess(b, a) { LexTotal(PathLess, a, b); }
  }

  /** Sorted and without repeats. */
  ghost predicate Ascending(paths: seq<Path>) {
    forall i, j :: 0 <= i < j < |paths| ==> PathLess(paths[i], paths[j])
  }
}
