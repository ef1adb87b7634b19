/** Which workspace a target dir was built for, from the dep-info files in it (`src/eco/cargo/depinfo.rs`). */
module DepInfo {
  import opened Order
  import opened Paths
  import opened Model

  /** A prerequisite: absolute, or relative to wherever rustc ran. */
  datatype Source = Absolute(path: Path) | Relative(path: Path)

  /** The dep-info of one profile dir: cargo's files, and rustc's in `deps`. */
  datatype Unit = Unit(cargo: seq<seq<Source>>, rustc: seq<seq<Source>>)

  /** `path` without `tail`, when it ends in `tail`'s components. */
  function StripTail(path: Path, tail: Path): (r: Option<Path>)
    ensures r.Some? ==> path == r.value + tail
    ensures r.None? ==> forall root: Path :: root + tail != path
  {
    if |tail| <= |path| && path[|path| - |tail|..] == tail then
      assert path == path[..|path| - |tail|] + path[|path| - |tail|..];
      Some(path[..|path| - |tail|])
    else
      assert forall root: Path :: |root + tail| == |path| ==> (root + tail)[|path| - |tail|..] == tail;
      None
  }

  lemma StripTailExactly(path: Path, tail: Path, root: Path)
    ensures StripTail(path, tail) == Some(root) <==> path == root + tail
  {
    if path == root + tail {
      var r := StripTail(path, tail).value;
      assert r == (r + tail)[..|r|] && root == (root + tail)[..|root|];
    }
  }

  /** Some relative source of the file is, below `root`, a source cargo names. */
  ghost predicate Explains(file: seq<Source>, cargo: seq<Path>, root: Path) {
    exists tail :: Relative(tail) in file && root + tail in cargo
  }

  /** The file pairs with cargo's sources at all. */
  ghost predicate Pairs(file: seq<Source>, cargo: seq<Path>) {
    exists root :: Explains(file, cargo, root)
  }

  /** The file names an absolute source below `root` that the build did not generate. */
  ghost predicate Contradicts(file: seq<Source>, buildDir: Path, root: Path) {
    exists path :: Absolute(path) in file && !Under(path, buildDir) && Under(path, root)
  }

  /** What makes `root` the workspace of a unit, with no order of files in it. */
  ghost predicate IsRoot(rustc: seq<seq<Source>>, cargo: seq<Path>, buildDir: Path, root: Path) {
    && (exists file :: file in rustc && Pairs(file, cargo))
    && (forall file :: file in rustc && Pairs(file, cargo) ==> Explains(file, cargo, root))
    && (forall file :: file in rustc ==> !Contradicts(file, buildDir, root))
  }

  function Relatives(file: seq<Source>): seq<Path> {
    if file == [] then []
    else
      var front, last := Relatives(file[..|file| - 1]), file[|file| - 1];
      if last.Relative? then front + [last.path] else front
  }

  lemma {:induction false} RelativesAt(file: seq<Source>)
    ensures forall p :: p in Relatives(file) <==> Relative(p) in file
  {
    if file != [] {
      RelativesAt(file[..|file| - 1]);
      assert file == file[..|file| - 1] + [file[|file| - 1]];
    }
  }

  function Absolutes(file: seq<Source>): seq<Path> {
    if file == [] then []
    else
      var front, last := Absolutes(file[..|file| - 1]), file[|file| - 1];
      if last.Absolute? then front + [last.path] else front
  }

  /** Every root that explains a relative source of the file. */
  function Explained(file: seq<Source>, cargo: seq<Path>): set<Path> {
    set tail, path | tail in Relatives(file) && path in cargo && StripTail(path, tail).Some? :: StripTail(path, tail).value
  }

  lemma ExplainedAt(file: seq<Source>, cargo: seq<Path>, root: Path)
    ensures root in Explained(file, cargo) <==> Explains(file, cargo, root)
  {
    RelativesAt(file);
    if Explains(file, cargo, root) {
      var tail :| Relative(tail) in file && root + tail in cargo;
      StripTailExactly(root + tail, tail, root);
      assert tail in Relatives(file);
    }
  }

  /** The candidates and the foreign sources after the first `k` files. */
  ghost predicate Narrowed(rustc: seq<seq<Source>>, cargo: seq<Path>, buildDir: Path, k: nat, candidates: Option<set<Path>>,
                           foreign: seq<Path>)
    requires k <= |rustc|
  {
    && (candidates.Some? <==> exists i :: 0 <= i < k && Pairs(rustc[i], cargo))
    && (candidates.Some? ==> forall root ::
          root in candidates.value <==> forall i :: 0 <= i < k && Pairs(rustc[i], cargo) ==> Explains(rustc[i], cargo, root))
    && (forall p :: p in foreign <==> exists i :: 0 <= i < k && Absolute(p) in rustc[i] && !Under(p, buildDir))
  }

  lemma NarrowedOneMore(rustc: seq<seq<Source>>, cargo: seq<Path>, buildDir: Path, k: nat, candidates: Option<set<Path>>,
                        foreign: seq<Path>, more: seq<Path>)
    requires k < |rustc| && Narrowed(rustc, cargo, buildDir, k, candidates, foreign)
    requires forall p :: p in more <==> Absolute(p) in rustc[k] && !Under(p, buildDir)
    ensures var explained := Explained(rustc[k], cargo);
            Narrowed(rustc, cargo, buildDir, k + 1,
                     if explained == {} then candidates
                     else if candidates.None? then Some(explained) else Some(candidates.value * explained), foreign + more)
  {
    ExplainedPairs(rustc[k], cargo);
  }

  lemma ExplainedPairs(file: seq<Source>, cargo: seq<Path>)
    ensures forall root :: root in Explained(file, cargo) <==> Explains(file, cargo, root)
    ensures Explained(file, cargo) == {} <==> !Pairs(file, cargo)
  {
    forall root ensures root in Explained(file, cargo) <==> Explains(file, cargo, root) {
      ExplainedAt(file, cargo, root);
    }
  }

  /** The absolute sources of a file that are not the build's own. */
  method ForeignOf(file: seq<Source>, buildDir: Path) returns (foreign: seq<Path>)
    ensures forall p :: p in foreign <==> Absolute(p) in file && !Under(p, buildDir)
  {
    foreign := [];
    for i := 0 to |file|
      invariant forall p :: p in foreign <==> Absolute(p) in file[..i] && !Under(p, buildDir)
    {
      if file[i].Absolute? && !Under(file[i].path, buildDir) {
        foreign := foreign + [file[i].path];
      }
    }
    assert file[..|file|] == file;
  }

  /** The roots of one unit: candidates narrowed file by file, and those with a foreign source under them dropped. */
  method RootsOfUnit(rustc: seq<seq<Source>>, cargo: seq<Path>, buildDir: Path) returns (roots: set<Path>)
    ensures forall root :: root in roots <==> IsRoot(rustc, cargo, buildDir, root)
  {
    var candidates: Option<set<Path>> := None;
    var foreign: seq<Path> := [];
    for k := 0 to |rustc|
      invariant Narrowed(rustc, cargo, buildDir, k, candidates, foreign)
    {
      var more := ForeignOf(rustc[k], buildDir);
      var explained := Explained(rustc[k], cargo);
      NarrowedOneMore(rustc, cargo, buildDir, k, candidates, foreign, more);
      foreign := foreign + more;
      if explained != {} {
        candidates := Some(if candidates.None? then explained else candidates.value * explained);
      }
    }
    roots := if candidates.None? then {} else set root | root in candidates.value && !Foreign(foreign, root);
    forall root ensures Foreign(foreign, root) <==> exists file :: file in rustc && Contradicts(file, buildDir, root) {
      ForeignContradicts(rustc, buildDir, foreign, root);
    }
  }

  /** Some foreign source lies under `root`. */
  predicate Foreign(foreign: seq<Path>, root: Path) {
    exists i :: 0 <= i < |foreign| && Under(foreign[i], root)
  }

  lemma ForeignContradicts(rustc: seq<seq<Source>>, buildDir: Path, foreign: seq<Path>, root: Path)
    requires forall p :: p in foreign <==> exists i :: 0 <= i < |rustc| && Absolute(p) in rustc[i] && !Under(p, buildDir)
    ensures Foreign(foreign, root) <==> exists file :: file in rustc && Contradicts(file, buildDir, root)
  {
    if Foreign(foreign, root) {
      var i :| 0 <= i < |foreign| && Under(foreign[i], root);
      assert foreign[i] in foreign;
      var k :| 0 <= k < |rustc| && Absolute(foreign[i]) in rustc[k] && !Under(foreign[i], buildDir);
      assert rustc[k] in rustc && Contradicts(rustc[k], buildDir, root);
    }
    if exists file :: file in rustc && Contradicts(file, buildDir, root) {
      var file :| file in rustc && Contradicts(file, buildDir, root);
      var p :| Absolute(p) in file && !Under(p, buildDir) && Under(p, root);
      assert p in foreign;
    }
  }

  /** In whatever order the dir is listed, the answer is the same. */
  lemma OrderDoesNotMatter(rustc: seq<seq<Source>>, other: seq<seq<Source>>, cargo: seq<Path>, more: seq<Path>, buildDir: Path, root: Path)
    requires forall file :: file in rustc <==> file in other
    requires forall path :: path in cargo <==> path in more
    ensures IsRoot(rustc, cargo, buildDir, root) <==> IsRoot(other, more, buildDir, root)
  {
    forall file, r ensures Explains(file, cargo, r) <==> Explains(file, more, r) {}
    forall file ensures Pairs(file, cargo) <==> Pairs(file, more) {
      if Pairs(file, cargo) {
        var r :| Explains(file, cargo, r);
        assert Explains(file, more, r);
      }
      if Pairs(file, more) {
        var r :| Explains(file, more, r);
        assert Explains(file, cargo, r);
      }
    }
  }

  /** The file tells two candidates apart: it pairs and does not explain both, or has a foreign source under one of them. */
  ghost predicate Separates(file: seq<Source>, cargo: seq<Path>, buildDir: Path, a: Path, b: Path) {
    || (Pairs(file, cargo) && !(Explains(file, cargo, a) && Explains(file, cargo, b)))
    || Contradicts(file, buildDir, a) || Contradicts(file, buildDir, b)
  }

  lemma Roots(rustc: seq<seq<Source>>, cargo: seq<Path>, buildDir: Path, a: Path, b: Path)
    requires exists file :: file in rustc && Pairs(file, cargo)
    ensures IsRoot(rustc, cargo, buildDir, a) && IsRoot(rustc, cargo, buildDir, b) <==>
              !exists file :: file in rustc && Separates(file, cargo, buildDir, a, b)
  {}

  /** A unit names at most one root if and only if any two prefixes at which some one pairing file's relative sources end
      cargo's are told apart by a file. Which prefixes those are can be read off that one file. */
  lemma AtMostOneRoot(rustc: seq<seq<Source>>, cargo: seq<Path>, buildDir: Path, file: seq<Source>, roots: set<Path>)
    requires file in rustc && Pairs(file, cargo)
    requires forall root :: root in roots <==> IsRoot(rustc, cargo, buildDir, root)
    ensures |roots| <= 1 <==>
              forall a, b :: a in Explained(file, cargo) && b in Explained(file, cargo) && a != b ==>
                exists other :: other in rustc && Separates(other, cargo, buildDir, a, b)
  {
    ExplainedPairs(file, cargo);
    forall a, b | a in roots && b in roots && a != b ensures |roots| > 1 {
      assert {a, b} <= roots;
      SubsetSize({a, b}, roots);
    }
    if |roots| > 1 {
      var a :| a in roots;
      SubsetSize(roots, {a});
      var b :| b in roots && b != a;
      Roots(rustc, cargo, buildDir, a, b);
      assert a in Explained(file, cargo) && b in Explained(file, cargo);
    }
    forall a, b | a in Explained(file, cargo) && b in Explained(file, cargo) && a != b
      && !exists other :: other in rustc && Separates(other, cargo, buildDir, a, b)
      ensures |roots| > 1
    {
      Roots(rustc, cargo, buildDir, a, b);
      assert a in roots && b in roots;
    }
  }

  lemma {:induction false} SubsetSize<T>(a: set<T>, b: set<T>)
    ensures a <= b ==> |a| <= |b|
  {
    if a <= b && a != {} {
      var x :| x in a;
      SubsetSize(a - {x}, b - {x});
    }
  }

  /** So one pairing file whose relative sources end cargo's at one prefix only is enough, */
  lemma OnePrefixOneRoot(rustc: seq<seq<Source>>, cargo: seq<Path>, buildDir: Path, file: seq<Source>, roots: set<Path>)
    requires file in rustc && Pairs(file, cargo) && |Explained(file, cargo)| == 1
    requires forall root :: root in roots <==> IsRoot(rustc, cargo, buildDir, root)
    ensures |roots| <= 1 && roots <= Explained(file, cargo)
  {
    ExplainedPairs(file, cargo);
    assert roots <= Explained(file, cargo);
    SubsetSize(roots, Explained(file, cargo));
  }

  /** and two prefixes that explain every pairing file, with nothing foreign under either, are both named, against the comment. */
  lemma TwoRoots(rustc: seq<seq<Source>>, cargo: seq<Path>, buildDir: Path, a: Path, b: Path, roots: set<Path>)
    requires a != b && exists file :: file in rustc && Pairs(file, cargo)
    requires forall file :: file in rustc && Pairs(file, cargo) ==>
               exists tail, other :: Relative(tail) in file && a + tail in cargo && Relative(other) in file && b + other in cargo
    requires forall file, path :: file in rustc && Absolute(path) in file && !Under(path, buildDir) ==> !Under(path, a) && !Under(path, b)
    requires forall root :: root in roots <==> IsRoot(rustc, cargo, buildDir, root)
    ensures a in roots && b in roots && |roots| > 1
  {
    SubsetSize({a, b}, roots);
  }

  /** Cargo's own sources, absolute ones only. */
  function CargoSources(files: seq<seq<Source>>): seq<Path> {
    if files == [] then [] else CargoSources(files[..|files| - 1]) + Absolutes(files[|files| - 1])
  }

  lemma {:induction false} AbsolutesAre(file: seq<Source>)
    ensures forall p :: p in Absolutes(file) <==> Absolute(p) in file
  {
    if file != [] {
      AbsolutesAre(file[..|file| - 1]);
      assert file == file[..|file| - 1] + [file[|file| - 1]];
    }
  }

  /** `cargo` lists the absolute paths that the files name, and nothing else. */
  ghost predicate SourcesAre(cargo: seq<Path>, files: seq<seq<Source>>) {
    forall p :: p in cargo <==> exists file :: file in files && Absolute(p) in file
  }

  lemma {:induction false} CargoSourcesAre(files: seq<seq<Source>>)
    ensures SourcesAre(CargoSources(files), files)
  {
    if files != [] {
      CargoSourcesAre(files[..|files| - 1]);
      AbsolutesAre(files[|files| - 1]);
      assert files == files[..|files| - 1] + [files[|files| - 1]];
    }
  }

  /** `root` is the workspace of the unit, whatever order its sources are listed in. */
  ghost predicate IsRootOf(unit: Unit, buildDir: Path, root: Path) {
    forall cargo :: SourcesAre(cargo, unit.cargo) ==> IsRoot(unit.rustc, cargo, buildDir, root)
  }

  lemma IsRootOfUnit(unit: Unit, buildDir: Path, root: Path)
    ensures IsRootOf(unit, buildDir, root) <==> IsRoot(unit.rustc, CargoSources(unit.cargo), buildDir, root)
  {
    var own := CargoSources(unit.cargo);
    CargoSourcesAre(unit.cargo);
    forall cargo | SourcesAre(cargo, unit.cargo) {
      OrderDoesNotMatter(unit.rustc, unit.rustc, own, cargo, buildDir, root);
    }
  }

  /** The roots of all units, sorted. */
  method WorkspaceRoots(buildDir: Path, units: seq<Unit>) returns (roots: seq<Path>)
    ensures Ascending(roots)
    ensures forall root :: root in roots <==>
              exists i :: 0 <= i < |units| && IsRootOf(units[i], buildDir, root)
  {
    forall i, root | 0 <= i < |units| {
      IsRootOfUnit(units[i], buildDir, root);
    }
    var all: set<Path> := {};
    for k := 0 to |units|
      invariant forall root :: root in all <==>
                  exists i :: 0 <= i < k && IsRoot(units[i].rustc, CargoSources(units[i].cargo), buildDir, root)
    {
      var cargo := CargoSources(units[k].cargo);
      if cargo != [] {
        var more := RootsOfUnit(units[k].rustc, cargo, buildDir);
        all := all + more;
      }
    }
    roots := InOrder(all);
  }

  /** A set in path order. */
  method InOrder(all: set<Path>) returns (paths: seq<Path>)
    ensures Ascending(paths) && forall p :: p in paths <==> p in all
  {
    var todo := all;
    var listed: seq<Path> := [];
    while todo != {}
      invariant todo <= all && (forall p :: p in listed <==> p in all && p !in todo)
      invariant Distinct((p: Path) => p, listed)
      decreases todo
    {
      var p :| p in todo;
      listed := listed + [p];
      todo := todo - {p};
    }
    paths := Sort(PathLess, (p: Path) => p, listed);
    PathOrder();
    SortStrict(PathLess, (p: Path) => p, listed);
    SortMembers(PathLess, (p: Path) => p, listed);
  }

  /** Where `": "` comes first. */
  function Split(line: string, from: nat): Option<nat>
    requires from <= |line|
    decreases |line| - from
  {
    if from + 1 >= |line| then None
    else if line[from] == ':' && line[from + 1] == ' ' then Some(from)
    else Split(line, from + 1)
  }

  /** The words of a rule, read from its front: a backslash takes the next character as it is. */
  function Words(s: string, word: string): seq<string>
    decreases |s|
  {
    if s == [] then if word == [] then [] else [word]
    else if s[0] == '\\' then
      if |s| == 1 then Words([], word) else Words(s[2..], word + [s[1]])
    else if s[0] == ' ' then
      (if word == [] then [] else [word]) + Words(s[1..], [])
    else Words(s[1..], word + [s[0]])
  }

  /** The prerequisites of one line: none of a comment, or of what is no rule. */
  function LineWords(line: string): seq<string> {
    if line != [] && line[0] == '#' then []
    else match Split(line, 0)
      case None => []
      case Some(at) => if at + 2 <= |line| then Words(line[at + 2..], []) else []
  }

  /** `str::lines`: a carriage return before the line feed goes too, and no empty line follows the last one. */
  function Lines(text: string, line: string): seq<string>
    decreases |text|
  {
    if text == [] then if line == [] then [] else [line]
    else if text[0] == '\n' then [Chomp(line)] + Lines(text[1..], [])
    else Lines(text[1..], line + [text[0]])
  }

  function Chomp(line: string): string {
    if line != [] && line[|line| - 1] == '\r' then line[..|line| - 1] else line
  }

  function AllWords(lines: seq<string>): seq<string> {
    if lines == [] then [] else AllWords(lines[..|lines| - 1]) + LineWords(lines[|lines| - 1])
  }

  /** The words of one rule, character by character. */
  method ReadWords(s: string) returns (words: seq<string>)
    ensures words == Words(s, [])
  {
    words := [];
    var word: string := [];
    var i := 0;
    while i < |s|
      invariant i <= |s|
      invariant words + Words(s[i..], word) == Words(s, [])
    {
      var c := s[i];
      var rest := s[i..];
      i := i + 1;
      if c == '\\' {
        if i < |s| {
          assert rest[2..] == s[i + 1..];
          word := word + [s[i]];
          i := i + 1;
        } else {
          assert s[i..] == [];
        }
      } else if c == ' ' {
        assert rest[1..] == s[i..];
        if word != [] {
          words := words + [word];
          word := [];
        }
      } else {
        assert rest[1..] == s[i..];
        word := word + [c];
      }
    }
    assert s[i..] == [];
    if word != [] {
      words := words + [word];
    }
  }

  method Prerequisites(text: string) returns (words: seq<string>)
    ensures words == AllWords(Lines(text, []))
  {
    var lines := Lines(text, []);
    words := [];
    for k := 0 to |lines|
      invariant words == AllWords(lines[..k])
    {
      var line := lines[k];
      assert lines[..k + 1][..k] == lines[..k];
      if !(line != [] && line[0] == '#') {
        var at := Split(line, 0);
        if at.Some? && at.value + 2 <= |line| {
          var more := ReadWords(line[at.value + 2..]);
          words := words + more;
        }
      }
    }
    assert lines[..|lines|] == lines;
  }

  /** The writer's side: spaces and backslashes get a backslash. */
  function Escape(word: string): string {
    if word == [] then []
    else (if word[0] == ' ' || word[0] == '\\' then ['\\', word[0]] else [word[0]]) + Escape(word[1..])
  }

  function Printed(words: seq<string>): string {
    if words == [] then []
    else if |words| == 1 then Escape(words[0])
    else Escape(words[0]) + [' '] + Printed(words[1..])
  }

  /** An escaped word is read back as it was, whatever follows. */
  lemma {:induction false} EscapedIsRead(word: string, rest: string, before: string)
    ensures Words(Escape(word) + rest, before) == Words(rest, before + word)
  {
    var s := Escape(word) + rest;
    if word == [] {
      assert s == rest && before + word == before;
    } else {
      EscapedIsRead(word[1..], rest, before + [word[0]]);
      assert before + [word[0]] + word[1..] == before + word;
      if word[0] == ' ' || word[0] == '\\' {
        assert s[2..] == Escape(word[1..]) + rest;
      } else {
        assert s[1..] == Escape(word[1..]) + rest;
      }
    }
  }

  lemma {:induction false} PrintedIsRead(words: seq<string>)
    requires forall w :: w in words ==> w != []
    ensures Words(Printed(words), []) == words
  {
    if words != [] {
      var first := words[0];
      assert first in words;
      if |words| == 1 {
        EscapedIsRead(first, [], []);
        assert Printed(words) == Escape(first) + [] && [] + first == first && words == [first];
      } else {
        var rest := [' '] + Printed(words[1..]);
        EscapedIsRead(first, rest, []);
        assert Printed(words) == Escape(first) + rest && [] + first == first;
        assert rest[1..] == Printed(words[1..]);
        forall w | w in words[1..] ensures w in words {}
        PrintedIsRead(words[1..]);
      }
    }
  }

  /** What a target must not look like for its line to be a rule that splits where it ends. */
  predicate PlainTarget(target: string) {
    && (target == [] || target[0] != '#')
    && forall i :: 0 <= i < |target| - 1 ==> !(target[i] == ':' && target[i + 1] == ' ')
  }

  lemma {:induction false} SplitsAtTarget(target: string, rest: string, from: nat)
    requires PlainTarget(target) && from <= |target|
    ensures Split(target + [':', ' '] + rest, from) == Some(|target|)
    decreases |target| - from
  {
    var line := target + [':', ' '] + rest;
    if from < |target| {
      assert line[from] == target[from];
      assert from + 1 < |target| ==> line[from + 1] == target[from + 1];
      SplitsAtTarget(target, rest, from + 1);
    }
  }

  lemma {:induction false} WordsNotEmpty(s: string, word: string)
    ensures forall w :: w in Words(s, word) ==> w != []
    decreases |s|
  {
    if s != [] {
      if s[0] == '\\' {
        if |s| > 1 {
          WordsNotEmpty(s[2..], word + [s[1]]);
        }
      } else if s[0] == ' ' {
        WordsNotEmpty(s[1..], []);
      } else {
        WordsNotEmpty(s[1..], word + [s[0]]);
      }
    }
  }

  /** A rule line written for these prerequisites names exactly them, if and only if none is the empty name. */
  lemma RuleRoundTrip(target: string, words: seq<string>)
    requires PlainTarget(target)
    ensures LineWords(target + [':', ' '] + Printed(words)) == words <==> forall w :: w in words ==> w != []
  {
    WordsNotEmpty(Printed(words), []);
    var line := target + [':', ' '] + Printed(words);
    SplitsAtTarget(target, Printed(words), 0);
    if forall w :: w in words ==> w != [] {
      PrintedIsRead(words);
    }
    assert line[|target| + 2..] == Printed(words);
    assert line[0] == if target == [] then ':' else target[0];
  }

  predicate OneLine(s: string) {
    forall i :: 0 <= i < |s| ==> s[i] != '\n'
  }

  /** A carriage return at the end of a line belongs to the line break. */
  predicate EndsPlain(s: string) {
    s == [] || s[|s| - 1] != '\r'
  }

  lemma {:induction false} LineIsRead(line: string, rest: string, before: string)
    requires OneLine(line) && OneLine(before) && EndsPlain(before + line)
    ensures Lines(line + ['\n'] + rest, before) == [before + line] + Lines(rest, [])
  {
    var text := line + ['\n'] + rest;
    if line == [] {
      assert text[0] == '\n' && text[1..] == rest && before + line == before;
    } else {
      assert text[1..] == line[1..] + ['\n'] + rest;
      assert before + [line[0]] + line[1..] == before + line;
      LineIsRead(line[1..], rest, before + [line[0]]);
    }
  }

  /** A line may end in a carriage return and a line feed just as well, */
  lemma {:induction false} CarriageReturnGoes(line: string, rest: string, before: string)
    requires OneLine(line) && OneLine(before)
    ensures Lines(line + ['\r', '\n'] + rest, before) == [before + line] + Lines(rest, [])
  {
    var text := line + ['\r', '\n'] + rest;
    if line == [] {
      assert text[0] == '\r' && text[1..][0] == '\n' && text[1..][1..] == rest;
      assert Lines(text[1..], before + ['\r']) == [Chomp(before + ['\r'])] + Lines(rest, []);
      assert (before + ['\r'])[..|before|] == before && before + line == before;
    } else {
      assert text[1..] == line[1..] + ['\r', '\n'] + rest;
      assert before + [line[0]] + line[1..] == before + line;
      CarriageReturnGoes(line[1..], rest, before + [line[0]]);
    }
  }

  /** and the last one need not end at all. */
  lemma {:induction false} LastLineIsRead(line: string, before: string)
    requires OneLine(line)
    ensures Lines(line, before) == if before + line == [] then [] else [before + line]
  {
    if line != [] {
      assert before + [line[0]] + line[1..] == before + line;
      LastLineIsRead(line[1..], before + [line[0]]);
    } else {
      assert before + line == before;
    }
  }

  lemma {:induction false} SplitNowhere(line: string, from: nat)
    requires from <= |line| && forall i :: from <= i < |line| - 1 ==> !(line[i] == ':' && line[i + 1] == ' ')
    ensures Split(line, from).None?
    decreases |line| - from
  {
    if from + 1 < |line| {
      SplitNowhere(line, from + 1);
    }
  }

  /** A comment names nothing, nor does a line that is no rule. */
  lemma OnlyRulesAreRead(line: string)
    requires (line != [] && line[0] == '#') || forall i :: 0 <= i < |line| - 1 ==> !(line[i] == ':' && line[i + 1] == ' ')
    ensures LineWords(line) == []
  {
    if !(line != [] && line[0] == '#') {
      SplitNowhere(line, 0);
    }
  }

  datatype Rule = Rule(target: string, words: seq<string>)

  predicate Writable(rule: Rule) {
    && PlainTarget(rule.target) && OneLine(rule.target)
    && (forall w :: w in rule.words ==> w != [] && OneLine(w))
    && (rule.words != [] ==> EndsPlain(rule.words[|rule.words| - 1]))
  }

  function RuleLine(rule: Rule): string {
    rule.target + [':', ' '] + Printed(rule.words)
  }

  /** A dep-info file, rule by rule. */
  function Text(rules: seq<Rule>): string {
    if rules == [] then [] else RuleLine(rules[0]) + ['\n'] + Text(rules[1..])
  }

  function RuleWords(rules: seq<Rule>): seq<string> {
    if rules == [] then [] else rules[0].words + RuleWords(rules[1..])
  }

  lemma {:induction false} EscapeOneLine(word: string)
    requires OneLine(word)
    ensures OneLine(Escape(word))
  {
    if word != [] {
      EscapeOneLine(word[1..]);
    }
  }

  lemma {:induction false} PrintedOneLine(words: seq<string>)
    requires forall w :: w in words ==> OneLine(w)
    ensures OneLine(Printed(words))
  {
    if words != [] {
      assert words[0] in words;
      EscapeOneLine(words[0]);
      PrintedOneLine(words[1..]);
    }
  }

  lemma {:induction false} EscapeEnds(word: string)
    requires word != []
    ensures Escape(word) != [] && Escape(word)[|Escape(word)| - 1] == word[|word| - 1]
  {
    if |word| > 1 {
      EscapeEnds(word[1..]);
    }
  }

  lemma {:induction false} PrintedEnds(words: seq<string>)
    requires words != [] && forall w :: w in words ==> w != []
    ensures var last, line := words[|words| - 1], Printed(words);
            last != [] && line != [] && line[|line| - 1] == last[|last| - 1]
  {
    assert words[0] in words && words[|words| - 1] in words;
    EscapeEnds(words[0]);
    if |words| > 1 {
      forall w | w in words[1..] ensures w != [] {
        assert w in words;
      }
      PrintedEnds(words[1..]);
    }
  }

  lemma LineEndsPlain(rule: Rule)
    requires Writable(rule)
    ensures EndsPlain(RuleLine(rule))
  {
    if rule.words != [] {
      PrintedEnds(rule.words);
      assert rule.words[|rule.words| - 1] in rule.words;
    }
  }

  function LinesOf(rules: seq<Rule>): seq<string> {
    if rules == [] then [] else [RuleLine(rules[0])] + LinesOf(rules[1..])
  }

  lemma {:induction false} TextLines(rules: seq<Rule>)
    requires forall r :: r in rules ==> Writable(r)
    ensures Lines(Text(rules), []) == LinesOf(rules)
  {
    if rules != [] {
      assert rules[0] in rules;
      PrintedOneLine(rules[0].words);
      LineEndsPlain(rules[0]);
      LineIsRead(RuleLine(rules[0]), Text(rules[1..]), []);
      assert [] + RuleLine(rules[0]) == RuleLine(rules[0]);
      TextLines(rules[1..]);
    }
  }

  lemma {:induction false} AllWordsFront(first: string, lines: seq<string>)
    ensures AllWords([first] + lines) == LineWords(first) + AllWords(lines)
  {
    var all := [first] + lines;
    if lines == [] {
      assert all[..0] == [] && all[0] == first;
    } else {
      AllWordsFront(first, lines[..|lines| - 1]);
      assert all[..|all| - 1] == [first] + lines[..|lines| - 1];
    }
  }

  lemma {:induction false} RulesAreRead(rules: seq<Rule>)
    requires forall r :: r in rules ==> Writable(r)
    ensures AllWords(LinesOf(rules)) == RuleWords(rules)
  {
    if rules != [] {
      assert rules[0] in rules;
      RuleRoundTrip(rules[0].target, rules[0].words);
      AllWordsFront(RuleLine(rules[0]), LinesOf(rules[1..]));
      RulesAreRead(rules[1..]);
    }
  }

  /** Reading a written dep-info file gives back every prerequisite of every rule, in order. */
  lemma TextRoundTrip(rules: seq<Rule>)
    requires forall r :: r in rules ==> Writable(r)
    ensures AllWords(Lines(Text(rules), [])) == RuleWords(rules)
  {
    TextLines(rules);
    RulesAreRead(rules);
  }
}
