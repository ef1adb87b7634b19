/** What a run tells of each pass, and how later rounds add to it (`PassReport`, `Report` in `src/engine.rs`). */
module Reports {
  import opened Order
  import opened Paths
  import opened Model
  import opened Apply
  import opened Staging

  /** Why a run let go of its locks early. */
  datatype Interrupted = Stopped | OutOfBudget

  datatype PassReport = PassReport(name: string, planned: nat, plannedBytes: nat, applied: nat, freedBytes: nat,
                                   skipped: seq<(Path, Skip)>, removals: seq<(Path, string)>)

  const NO_REPORT: PassReport := PassReport("", 0, 0, 0, 0, [], [])

  function Blocks(inodes: seq<Inode>): nat {
    if inodes == [] then 0 else Blocks(inodes[..|inodes| - 1]) + inodes[|inodes| - 1].blocks
  }

  lemma {:induction false} BlocksJoin(s: seq<Inode>, t: seq<Inode>)
    ensures Blocks(s + t) == Blocks(s) + Blocks(t)
  {
    if t == [] {
      assert s + t == s;
    } else {
      BlocksJoin(s, t[..|t| - 1]);
      assert (s + t)[..|s + t| - 1] == s + t[..|t| - 1];
    }
  }

  /** In whatever order groups are told of, they are as large. */
  lemma {:induction false} BlocksOfAll(s: seq<Inode>, t: seq<Inode>)
    requires multiset(s) == multiset(t)
    ensures Blocks(s) == Blocks(t)
  {
    SameEmpty(s, t);
    if s != [] {
      var i := LastIn(s, t);
      BlocksWithout(t, i);
      BlocksOfAll(s[..|s| - 1], t[..i] + t[i + 1..]);
    }
  }

  lemma BlocksWithout(t: seq<Inode>, i: nat)
    requires i < |t|
    ensures Blocks(t) == Blocks(t[..i] + t[i + 1..]) + t[i].blocks
  {
    RemoveAt(t, i);
    BlocksJoin(t[..i] + [t[i]], t[i + 1..]);
    BlocksJoin(t[..i], t[i + 1..]);
    assert (t[..i] + [t[i]])[..i] == t[..i];
  }

  function FirstPath(inode: Inode): Path {
    if inode.paths == [] then [] else inode.paths[0]
  }

  function Skipped(r: PassReport, inode: Inode, skip: Skip): PassReport {
    r.(skipped := r.skipped + [(FirstPath(inode), skip)])
  }

  /** What compressing a group freed: never less than nothing. */
  function Saved(before: Inode, after: Inode): nat {
    if before.blocks <= after.blocks then 0 else before.blocks - after.blocks
  }

  /** One group of a batch accounted for. */
  function Account1(r: PassReport, o: Outcome): PassReport {
    match o
    case Compressed(member, after) => r.(applied := r.applied + 1, freedBytes := r.freedBytes + Saved(member, after))
    case Refused(member, skip) => Skipped(r, member, skip)
  }

  /** The first `k` groups of a batch accounted for. */
  function AccountAll(r: PassReport, outcomes: seq<Outcome>, k: nat): PassReport
    requires k <= |outcomes|
  {
    if k == 0 then r else Account1(AccountAll(r, outcomes, k - 1), outcomes[k - 1])
  }

  /** The groups of a batch that were compressed, with what became of them. */
  ghost function PressedOf(outcomes: seq<Outcome>): seq<Outcome> {
    if outcomes == [] then []
    else
      var last := outcomes[|outcomes| - 1];
      PressedOf(outcomes[..|outcomes| - 1]) + if last.Compressed? then [last] else []
  }

  /** What they are smaller by; one that has grown frees nothing. */
  ghost function SmallerBy(outcomes: seq<Outcome>): nat {
    if outcomes == [] then 0
    else
      var last, front := outcomes[|outcomes| - 1], SmallerBy(outcomes[..|outcomes| - 1]);
      if last.Compressed? && last.after.blocks < last.member.blocks then front + last.member.blocks - last.after.blocks else front
  }

  ghost function RefusedOf(outcomes: seq<Outcome>): seq<(Path, Skip)> {
    if outcomes == [] then []
    else
      var last := outcomes[|outcomes| - 1];
      RefusedOf(outcomes[..|outcomes| - 1])
      + if last.Refused? then [(if last.member.paths == [] then [] else last.member.paths[0], last.skip)] else []
  }

  /** What a report says of a batch: so many groups applied, so much freed, and each refused group with the reason. */
  lemma {:induction false} BatchTells(r: PassReport, outcomes: seq<Outcome>)
    ensures var more := AccountAll(r, outcomes, |outcomes|);
            && more.applied == r.applied + |PressedOf(outcomes)| && more.freedBytes == r.freedBytes + SmallerBy(outcomes)
            && more.skipped == r.skipped + RefusedOf(outcomes)
            && more.name == r.name && more.planned == r.planned && more.plannedBytes == r.plannedBytes && more.removals == r.removals
  {
    if outcomes != [] {
      var n := |outcomes| - 1;
      BatchTells(r, outcomes[..n]);
      AccountFront(r, outcomes, n);
    }
  }

  lemma {:induction false} AccountFront(r: PassReport, outcomes: seq<Outcome>, k: nat)
    requires k < |outcomes|
    ensures AccountAll(r, outcomes[..|outcomes| - 1], k) == AccountAll(r, outcomes, k)
  {
    if k > 0 {
      AccountFront(r, outcomes, k - 1);
    }
  }

  /** `b` is `a` with so many more actions done or skipped, and at most so much more freed. */
  predicate Advanced(a: PassReport, b: PassReport, actions: nat, bytes: nat) {
    && b.name == a.name && b.planned == a.planned && b.plannedBytes == a.plannedBytes && b.removals == a.removals
    && a.applied <= b.applied && a.skipped <= b.skipped
    && b.applied + |b.skipped| == a.applied + |a.skipped| + actions
    && a.freedBytes <= b.freedBytes <= a.freedBytes + bytes
  }

  predicate Names<T>(s: seq<(Path, T)>, p: Path) {
    exists i :: 0 <= i < |s| && s[i].0 == p
  }

  /** What of `round` is at a path `total` does not have yet. */
  function NewSkips(total: seq<(Path, Skip)>, round: seq<(Path, Skip)>): seq<(Path, Skip)> {
    if round == [] then []
    else
      var last := round[|round| - 1];
      NewSkips(total, round[..|round| - 1]) + if Names(total, last.0) then [] else [last]
  }

  function NewRemovals(total: seq<(Path, string)>, round: seq<(Path, string)>): seq<(Path, string)> {
    if round == [] then total
    else
      var last, before := round[|round| - 1], NewRemovals(total, round[..|round| - 1]);
      if Names(before, last.0) then before else before + [last]
  }

  /** A later round adds what it applied, and what it skipped or removed for the first time. */
  function Absorbed(total: PassReport, round: PassReport): PassReport {
    var added := NewSkips(total.skipped, round.skipped);
    PassReport(total.name, total.planned + round.applied + |added|, total.plannedBytes + round.freedBytes,
               total.applied + round.applied, total.freedBytes + round.freedBytes, total.skipped + added,
               NewRemovals(total.removals, round.removals))
  }

  function AbsorbedAll(total: seq<PassReport>, round: seq<PassReport>): seq<PassReport> {
    if total == [] then round
    else seq(|total|, i requires 0 <= i < |total| => if i < |round| then Absorbed(total[i], round[i]) else total[i])
  }

  /** Every planned action is accounted for. */
  predicate Balanced(r: PassReport) {
    r.planned == r.applied + |r.skipped| && r.freedBytes <= r.plannedBytes
  }

  /** Nothing is accounted for that was not planned. */
  predicate Covered(r: PassReport) {
    r.planned >= r.applied + |r.skipped| && r.freedBytes <= r.plannedBytes
  }

  /** Whatever a later round did, in whole or cut short, it keeps the balance. */
  lemma AbsorbKeepsBalance(total: PassReport, round: PassReport)
    ensures Balanced(Absorbed(total, round)) <==> Balanced(total)
    ensures Covered(Absorbed(total, round)) <==> Covered(total)
  {}

  lemma {:induction false} NewSkipsAt(total: seq<(Path, Skip)>, round: seq<(Path, Skip)>, p: Path)
    ensures Names(NewSkips(total, round), p) <==> Names(round, p) && !Names(total, p)
  {
    if round != [] {
      var front, last := round[..|round| - 1], round[|round| - 1];
      NewSkipsAt(total, front, p);
      assert round == front + [last];
      NamesJoin(front, [last], p);
      NamesJoin(NewSkips(total, front), if Names(total, last.0) then [] else [last], p);
      assert Names([last], p) <==> last.0 == p by { assert [last][0] == last; }
    }
  }

  lemma NamesJoin<T>(s: seq<(Path, T)>, t: seq<(Path, T)>, p: Path)
    ensures Names(s + t, p) <==> Names(s, p) || Names(t, p)
  {
    if Names(s, p) {
      var i :| 0 <= i < |s| && s[i].0 == p;
      assert (s + t)[i].0 == p;
    }
    if Names(t, p) {
      var i :| 0 <= i < |t| && t[i].0 == p;
      assert (s + t)[|s| + i].0 == p;
    }
  }

  lemma {:induction false} NewRemovalsAt(total: seq<(Path, string)>, round: seq<(Path, string)>, p: Path)
    ensures Names(NewRemovals(total, round), p) <==> Names(total, p) || Names(round, p)
  {
    if round != [] {
      var front, last := round[..|round| - 1], round[|round| - 1];
      NewRemovalsAt(total, front, p);
      assert round == front + [last];
      NamesJoin(front, [last], p);
      NamesJoin(NewRemovals(total, front), [last], p);
      assert Names([last], p) <==> last.0 == p by { assert [last][0] == last; }
    }
  }

  /** The paths told of are those of either; a path skipped before is told of once. */
  lemma AbsorbedPaths(total: PassReport, round: PassReport, p: Path)
    ensures Names(Absorbed(total, round).skipped, p) <==> Names(total.skipped, p) || Names(round.skipped, p)
    ensures Names(Absorbed(total, round).removals, p) <==> Names(total.removals, p) || Names(round.removals, p)
  {
    NewSkipsAt(total.skipped, round.skipped, p);
    NewRemovalsAt(total.removals, round.removals, p);
    NamesJoin(total.skipped, NewSkips(total.skipped, round.skipped), p);
  }

  lemma {:induction false} NewSkipsAre(total: seq<(Path, Skip)>, round: seq<(Path, Skip)>)
    ensures forall x :: x in NewSkips(total, round) <==> x in round && forall y :: y in total ==> y.0 != x.0
  {
    if round != [] {
      var front, last := round[..|round| - 1], round[|round| - 1];
      NewSkipsAre(total, front);
      assert round == front + [last];
      NamesSome(total, last.0);
    }
  }

  lemma NamesSome<T>(s: seq<(Path, T)>, p: Path)
    ensures Names(s, p) <==> exists y :: y in s && y.0 == p
  {
    forall i | 0 <= i < |s| && s[i].0 == p ensures exists y :: y in s && y.0 == p {
      assert s[i] in s;
    }
  }

  /** Nothing is told of twice. */
  ghost predicate EachOnce(s: seq<(Path, string)>) {
    forall i, j :: 0 <= i < j < |s| ==> s[i].0 != s[j].0
  }

  lemma {:induction false} NewRemovalsAre(total: seq<(Path, string)>, round: seq<(Path, string)>)
    ensures total <= NewRemovals(total, round)
    ensures forall x :: x in NewRemovals(total, round) ==> x in total || x in round
    ensures EachOnce(total) ==> EachOnce(NewRemovals(total, round))
  {
    if round != [] {
      NewRemovalsAre(total, round[..|round| - 1]);
      assert round == round[..|round| - 1] + [round[|round| - 1]];
    }
  }

  /** What a later round adds to the totals: what it applied and freed, each of its skips at a path not told of before, with the same
      reason, and each of its removals at such a path, once. */
  lemma AbsorbedTells(total: PassReport, round: PassReport)
    ensures var r := Absorbed(total, round);
            && r.name == total.name && r.applied == total.applied + round.applied && r.freedBytes == total.freedBytes + round.freedBytes
            && r.planned - total.planned == round.applied + |r.skipped| - |total.skipped|
            && r.plannedBytes == total.plannedBytes + round.freedBytes
            && total.skipped <= r.skipped && total.removals <= r.removals
            && (forall x :: x in r.skipped[|total.skipped|..] <==> x in round.skipped && forall y :: y in total.skipped ==> y.0 != x.0)
            && (forall x :: x in r.removals ==> x in total.removals || x in round.removals)
            && (EachOnce(total.removals) ==> EachOnce(r.removals))
  {
    NewSkipsAre(total.skipped, round.skipped);
    NewRemovalsAre(total.removals, round.removals);
    var added := NewSkips(total.skipped, round.skipped);
    assert (total.skipped + added)[|total.skipped|..] == added;
  }

  lemma {:induction false} NothingNew(total: seq<(Path, Skip)>, round: seq<(Path, Skip)>)
    ensures NewSkips(total, round) == [] <==> forall i :: 0 <= i < |round| ==> Names(total, round[i].0)
  {
    if round != [] {
      var front := round[..|round| - 1];
      NothingNew(total, front);
      if forall i :: 0 <= i < |front| ==> Names(total, front[i].0) {
        forall i | 0 <= i < |round| - 1 ensures Names(total, round[i].0) {
          assert front[i] == round[i];
        }
      }
    }
  }

  /** A round that applies nothing changes what is counted if and only if it skips something for the first time:
      a group skipped for good is planned again by every round and counted once. */
  lemma CountedOnce(total: PassReport, round: PassReport)
    requires round.applied == 0 && round.freedBytes == 0
    ensures Absorbed(total, round).planned == total.planned <==>
              forall i :: 0 <= i < |round.skipped| ==> Names(total.skipped, round.skipped[i].0)
  {
    NothingNew(total.skipped, round.skipped);
  }

  /** What the rounds applied of their `i`-th pass; a round cut short may not have come to it. */
  ghost function AppliedIn(each: seq<seq<PassReport>>, i: nat): nat {
    if each == [] then 0
    else
      var last := each[|each| - 1];
      AppliedIn(each[..|each| - 1], i) + if i < |last| then last[i].applied else 0
  }

  /** What they freed by it. */
  ghost function FreedIn(each: seq<seq<PassReport>>, i: nat): nat {
    if each == [] then 0
    else
      var last := each[|each| - 1];
      FreedIn(each[..|each| - 1], i) + if i < |last| then last[i].freedBytes else 0
  }

  /** The totals are the sums over the rounds, pass by pass. */
  ghost predicate Summed(each: seq<seq<PassReport>>, total: seq<PassReport>) {
    forall i :: 0 <= i < |total| ==> total[i].applied == AppliedIn(each, i) && total[i].freedBytes == FreedIn(each, i)
  }

  /** One more round absorbed is one more round summed. */
  lemma SummedOneMore(each: seq<seq<PassReport>>, total: seq<PassReport>, round: seq<PassReport>)
    requires Summed(each, total) && (total == [] ==> each == [])
    ensures Summed(each + [round], AbsorbedAll(total, round))
  {
    assert (each + [round])[..|each|] == each;
  }

  class Report {
    /** Units a build was seen in. */
    var busy: seq<Path>
    /** Units worked on without a lock. */
    var quiet: seq<Path>
    var tempsRemoved: nat
    var passes: seq<PassReport>
    var interrupted: Option<Interrupted>
    var rounds: nat

    constructor ()
      ensures busy == [] && quiet == [] && tempsRemoved == 0 && passes == [] && interrupted == None && rounds == 0
    {
      busy, quiet, tempsRemoved, passes, interrupted, rounds := [], [], 0, [], None, 0;
    }

    /** Adds a round's pass reports to the ones before it, pass by pass. */
    method Absorb(round: seq<PassReport>)
      modifies this`passes
      ensures passes == AbsorbedAll(old(passes), round)
    {
      if passes == [] {
        passes := round;
        return;
      }
      var n := if |passes| <= |round| then |passes| else |round|;
      for i := 0 to n
        invariant |passes| == |old(passes)|
        invariant forall k :: 0 <= k < i ==> passes[k] == Absorbed(old(passes)[k], round[k])
        invariant forall k :: i <= k < |passes| ==> passes[k] == old(passes)[k]
      {
        var total := AbsorbInto(passes[i], round[i]);
        passes := passes[i := total];
      }
    }
  }

  /** `PassReport::absorb`. */
  method AbsorbInto(total: PassReport, round: PassReport) returns (r: PassReport)
    ensures r == Absorbed(total, round)
  {
    var skips: seq<(Path, Skip)> := [];
    for i := 0 to |round.skipped|
      invariant skips == NewSkips(total.skipped, round.skipped[..i])
    {
      assert round.skipped[..i + 1][..i] == round.skipped[..i];
      if !Names(total.skipped, round.skipped[i].0) {
        skips := skips + [round.skipped[i]];
      }
    }
    assert round.skipped[..|round.skipped|] == round.skipped;
    r := total.(planned := total.planned + round.applied + |skips|,
                plannedBytes := total.plannedBytes + round.freedBytes,
                applied := total.applied + round.applied,
                freedBytes := total.freedBytes + round.freedBytes,
                skipped := total.skipped + skips);
    for i := 0 to |round.removals|
      invariant r == Absorbed(total, round).(removals := NewRemovals(total.removals, round.removals[..i]))
    {
      assert round.removals[..i + 1][..i] == round.removals[..i];
      if !Names(r.removals, round.removals[i].0) {
        r := r.(removals := r.removals + [round.removals[i]]);
      }
    }
    assert round.removals[..|round.removals|] == round.removals;
  }
}
