/** Which profile dirs to evict (`src/evict.rs`), and which incremental caches (`src/eco/cargo/incremental.rs`). */
module Evict {
  import opened Order
  import opened Paths
  import opened Model

  const SECS_PER_DAY: nat := 86_400

  /** A profile dir as the lock-free inventory saw it. `built` is its last build in seconds since the epoch. */
  datatype ProfileInfo = ProfileInfo(dir: Path, bytes: nat, built: Option<nat>)

  datatype Limits = Limits(idleDays: Option<nat>, maxTotal: Option<nat>)

  datatype Reason = Idle(days: nat) | OverCap(total: int, max: nat)

  datatype Choice = Choice(info: ProfileInfo, reason: Reason)

  function Days(now: nat, built: nat): nat {
    if now <= built then 0 else (now - built) / SECS_PER_DAY
  }

  predicate IsIdle(p: ProfileInfo, now: nat, limits: Limits) {
    p.built.Some? && limits.idleDays.Some? && Days(now, p.built.value) >= limits.idleDays.value
  }

  function Total(ps: seq<ProfileInfo>): nat {
    if ps == [] then 0 else Total(ps[..|ps| - 1]) + ps[|ps| - 1].bytes
  }

  /** The bytes a choice takes. */
  function Freed(cs: seq<Choice>): nat {
    if cs == [] then 0 else Freed(cs[..|cs| - 1]) + cs[|cs| - 1].info.bytes
  }

  predicate IsChosen(cs: seq<Choice>, p: ProfileInfo) {
    exists i :: 0 <= i < |cs| && cs[i].info == p
  }

  /** The idle profiles, in the order of the inventory. */
  function IdleOnes(ps: seq<ProfileInfo>, now: nat, limits: Limits): seq<Choice> {
    if ps == [] then []
    else
      var front, last := IdleOnes(ps[..|ps| - 1], now, limits), ps[|ps| - 1];
      if IsIdle(last, now, limits) then front + [Choice(last, Idle(Days(now, last.built.value)))] else front
  }

  /** The profiles with a known last build that are not idle: what the cap may still take. */
  function Others(ps: seq<ProfileInfo>, now: nat, limits: Limits): seq<ProfileInfo> {
    if ps == [] then []
    else
      var front, last := Others(ps[..|ps| - 1], now, limits), ps[|ps| - 1];
      if last.built.Some? && !IsIdle(last, now, limits) then front + [last] else front
  }

  type Age = (nat, Path)

  function AgeOf(p: ProfileInfo): Age {
    (if p.built.Some? then p.built.value else 0, p.dir)
  }

  predicate AgeLess(a: Age, b: Age) {
    a.0 < b.0 || (a.0 == b.0 && PathLess(a.1, b.1))
  }

  lemma AgeOrder()
    ensures StrictTotal(AgeLess)
  {
    PathOrder();
  }

  /** The first `n` of `queue` as victims of the cap, each with what was left before it. */
  function Victims(queue: seq<ProfileInfo>, n: nat, left: int, max: nat): seq<Choice>
    requires n <= |queue|
  {
    seq(n, i requires 0 <= i < n => Choice(queue[i], OverCap(left - Total(queue[..i]), max)))
  }

  lemma TotalStep(ps: seq<ProfileInfo>, k: nat)
    requires k < |ps|
    ensures Total(ps[..k + 1]) == Total(ps[..k]) + ps[k].bytes
  {
    assert ps[..k + 1][..k] == ps[..k];
  }

  lemma {:induction false} TotalGrows(ps: seq<ProfileInfo>, k: nat, l: nat)
    requires k <= l <= |ps|
    ensures Total(ps[..k]) <= Total(ps[..l])
  {
    if k < l {
      TotalGrows(ps, k, l - 1);
      TotalStep(ps, l - 1);
    }
  }

  lemma {:induction false} TotalJoin(s: seq<ProfileInfo>, t: seq<ProfileInfo>)
    ensures Total(s + t) == Total(s) + Total(t)
  {
    if t == [] {
      assert s + t == s;
    } else {
      TotalJoin(s, t[..|t| - 1]);
      assert (s + t)[..|s + t| - 1] == s + t[..|t| - 1];
    }
  }

  lemma {:induction false} TotalOfAll(s: seq<ProfileInfo>, t: seq<ProfileInfo>)
    requires multiset(s) == multiset(t)
    ensures Total(s) == Total(t)
  {
    SameEmpty(s, t);
    if s != [] {
      var i := LastIn(s, t);
      TotalWithout(t, i);
      TotalOfAll(s[..|s| - 1], t[..i] + t[i + 1..]);
    }
  }

  lemma TotalWithout(t: seq<ProfileInfo>, i: nat)
    requires i < |t|
    ensures Total(t) == Total(t[..i] + t[i + 1..]) + t[i].bytes
  {
    RemoveAt(t, i);
    TotalJoin(t[..i] + [t[i]], t[i + 1..]);
    TotalJoin(t[..i], t[i + 1..]);
    TotalStep(t, i);
    assert t[..i + 1] == t[..i] + [t[i]];
  }

  lemma FreedMore(s: seq<Choice>, c: Choice)
    ensures Freed(s + [c]) == Freed(s) + c.info.bytes
  {
    assert (s + [c])[..|s|] == s;
  }

  lemma {:induction false} FreedJoin(s: seq<Choice>, t: seq<Choice>)
    ensures Freed(s + t) == Freed(s) + Freed(t)
  {
    if t == [] {
      assert s + t == s;
    } else {
      FreedJoin(s, t[..|t| - 1]);
      assert (s + t)[..|s + t| - 1] == s + t[..|t| - 1];
    }
  }

  /** Nobody is both idle and in the queue of the cap, so together they are no more than there is. */
  lemma {:induction false} PartsFit(ps: seq<ProfileInfo>, now: nat, limits: Limits)
    ensures Freed(IdleOnes(ps, now, limits)) + Total(Others(ps, now, limits)) <= Total(ps)
  {
    if ps != [] {
      var front, last := ps[..|ps| - 1], ps[|ps| - 1];
      PartsFit(front, now, limits);
      if IsIdle(last, now, limits) {
        FreedMore(IdleOnes(front, now, limits), Choice(last, Idle(Days(now, last.built.value))));
      } else if last.built.Some? {
        var queue := Others(front, now, limits);
        assert (queue + [last])[..|queue|] == queue;
      }
    }
  }

  lemma IdleTotal(ps: seq<ProfileInfo>, k: nat, now: nat, limits: Limits)
    requires k < |ps|
    ensures var idle := IdleOnes(ps[..k], now, limits);
            IdleOnes(ps[..k + 1], now, limits) ==
            if IsIdle(ps[k], now, limits) then idle + [Choice(ps[k], Idle(Days(now, ps[k].built.value)))] else idle
    ensures var others := Others(ps[..k], now, limits);
            Others(ps[..k + 1], now, limits) == if ps[k].built.Some? && !IsIdle(ps[k], now, limits) then others + [ps[k]] else others
    ensures Freed(IdleOnes(ps[..k + 1], now, limits)) <= Total(ps)
  {
    assert ps[..k + 1][..k] == ps[..k];
    PartsFit(ps[..k + 1], now, limits);
    TotalGrows(ps, k + 1, |ps|);
    assert ps[..|ps|] == ps;
  }

  function QueueOf(ps: seq<ProfileInfo>, now: nat, limits: Limits): seq<ProfileInfo> {
    Sort(AgeLess, AgeOf, Others(ps, now, limits))
  }

  function LeftOf(ps: seq<ProfileInfo>, now: nat, limits: Limits): int {
    Total(ps) - Freed(IdleOnes(ps, now, limits))
  }

  /** How far the cap reaches into the queue: no further than it has to. */
  predicate Reaches(queue: seq<ProfileInfo>, left: int, max: nat, n: nat) {
    && n <= |queue| && Total(queue[..n]) <= left
    && (left - Total(queue[..n]) <= max || n == |queue|)
    && (n > 0 ==> left - Total(queue[..n - 1]) > max)
  }

  /** What is chosen: the idle ones, then the first `n` of the others by last build and dir. */
  ghost predicate Chose(ps: seq<ProfileInfo>, now: nat, limits: Limits, n: nat, chosen: seq<Choice>) {
    match limits.maxTotal
    case None => n == 0 && chosen == IdleOnes(ps, now, limits)
    case Some(max) =>
      && Reaches(QueueOf(ps, now, limits), LeftOf(ps, now, limits), max, n)
      && chosen == IdleOnes(ps, now, limits) + Victims(QueueOf(ps, now, limits), n, LeftOf(ps, now, limits), max)
  }

  /** Which profile dirs to evict and why. The running total is a `nat`: it never underflows. */
  method Select(ps: seq<ProfileInfo>, now: nat, limits: Limits) returns (chosen: seq<Choice>)
    ensures exists n: nat :: Chose(ps, now, limits, n, chosen)
  {
    ghost var n := 0;
    var kept, total;
    chosen, kept, total := TakeIdle(ps, now, limits);
    if limits.maxTotal.Some? {
      QueueFits(ps, now, limits);
      var victims, taken := TakeVictims(Sort(AgeLess, AgeOf, kept), total, limits.maxTotal.value);
      chosen := chosen + victims;
      n := taken;
    }
    assert Chose(ps, now, limits, n, chosen);
  }

  /** The first loop of `select`. */
  method TakeIdle(ps: seq<ProfileInfo>, now: nat, limits: Limits) returns (chosen: seq<Choice>, kept: seq<ProfileInfo>, total: nat)
    ensures chosen == IdleOnes(ps, now, limits) && kept == Others(ps, now, limits) && total == LeftOf(ps, now, limits)
  {
    total := Total(ps);
    kept := [];
    chosen := [];
    for k := 0 to |ps|
      invariant chosen == IdleOnes(ps[..k], now, limits) && kept == Others(ps[..k], now, limits)
      invariant total == Total(ps) - Freed(chosen)
    {
      IdleTotal(ps, k, now, limits);
      if ps[k].built.Some? {
        var days := Days(now, ps[k].built.value);
        if limits.idleDays.Some? && days >= limits.idleDays.value {
          FreedMore(chosen, Choice(ps[k], Idle(days)));
          total := total - ps[k].bytes;
          chosen := chosen + [Choice(ps[k], Idle(days))];
        } else {
          kept := kept + [ps[k]];
        }
      }
    }
    assert ps[..|ps|] == ps;
  }

  lemma QueueFits(ps: seq<ProfileInfo>, now: nat, limits: Limits)
    ensures Total(QueueOf(ps, now, limits)) <= LeftOf(ps, now, limits)
  {
    PartsFit(ps, now, limits);
    TotalOfAll(QueueOf(ps, now, limits), Others(ps, now, limits));
  }

  lemma {:induction false} OneMoreVictim(queue: seq<ProfileInfo>, n: nat, left: nat, max: nat)
    requires n < |queue| && Total(queue) <= left
    ensures Victims(queue, n + 1, left, max) == Victims(queue, n, left, max) + [Choice(queue[n], OverCap(left - Total(queue[..n]), max))]
    ensures Total(queue[..n + 1]) == Total(queue[..n]) + queue[n].bytes <= left
  {
    TotalStep(queue, n);
    TotalGrows(queue, n + 1, |queue|);
    assert queue[..|queue|] == queue;
  }

  /** The second loop of `select`. */
  method TakeVictims(queue: seq<ProfileInfo>, left: nat, max: nat) returns (victims: seq<Choice>, n: nat)
    requires Total(queue) <= left
    ensures Reaches(queue, left, max, n) && victims == Victims(queue, n, left, max)
  {
    assert queue[..|queue|] == queue;
    var total: nat := left;
    victims, n := [], 0;
    while n < |queue| && total > max
      invariant n <= |queue| && Total(queue[..n]) <= left && total == left - Total(queue[..n])
      invariant victims == Victims(queue, n, left, max)
      invariant n > 0 ==> left - Total(queue[..n - 1]) > max
    {
      OneMoreVictim(queue, n, left, max);
      victims := victims + [Choice(queue[n], OverCap(total, max))];
      total := total - queue[n].bytes;
      n := n + 1;
    }
  }

  function Left(ps: seq<ProfileInfo>, chosen: seq<Choice>): int {
    Total(ps) - Freed(chosen)
  }

  lemma {:induction false} IdleAt(ps: seq<ProfileInfo>, now: nat, limits: Limits)
    ensures forall c :: c in IdleOnes(ps, now, limits) <==>
              c.info in ps && IsIdle(c.info, now, limits) && c.reason == Idle(Days(now, c.info.built.value))
    ensures forall p :: p in Others(ps, now, limits) <==> p in ps && p.built.Some? && !IsIdle(p, now, limits)
  {
    if ps != [] {
      IdleAt(ps[..|ps| - 1], now, limits);
      assert ps == ps[..|ps| - 1] + [ps[|ps| - 1]];
    }
  }

  /** A choice in its two parts, told by what is in them. */
  ghost predicate Parts(ps: seq<ProfileInfo>, now: nat, limits: Limits, idle: seq<Choice>, queue: seq<ProfileInfo>, victims: seq<Choice>,
                        left: int, n: nat) {
    && (forall c :: c in idle <==> c.info in ps && IsIdle(c.info, now, limits) && c.reason == Idle(Days(now, c.info.built.value)))
    && (forall p :: p in queue <==> p in ps && p.built.Some? && !IsIdle(p, now, limits))
    && Sorted(AgeLess, AgeOf, queue)
    && left == Total(ps) - Freed(idle)
    && |victims| == n <= |queue|
    && (if limits.maxTotal.Some? then TakenInTurn(victims, queue, left, limits.maxTotal.value) else victims == [])
  }

  lemma ChoseParts(ps: seq<ProfileInfo>, now: nat, limits: Limits, n: nat, chosen: seq<Choice>)
    returns (idle: seq<Choice>, queue: seq<ProfileInfo>, victims: seq<Choice>, left: int)
    requires Chose(ps, now, limits, n, chosen)
    ensures Parts(ps, now, limits, idle, queue, victims, left, n) && chosen == idle + victims
    ensures limits.maxTotal.Some? ==> Reaches(queue, left, limits.maxTotal.value, n)
  {
    idle, queue, left := IdleOnes(ps, now, limits), QueueOf(ps, now, limits), LeftOf(ps, now, limits);
    victims := if limits.maxTotal.Some? then Victims(queue, n, left, limits.maxTotal.value) else [];
    IdleAt(ps, now, limits);
    QueueIs(ps, now, limits);
    if limits.maxTotal.Some? {
      VictimsAre(queue, n, left, limits.maxTotal.value);
    }
  }

  ghost predicate TakenInTurn(victims: seq<Choice>, queue: seq<ProfileInfo>, left: int, max: nat) {
    && |victims| <= |queue|
    && forall i :: 0 <= i < |victims| ==> victims[i] == Choice(queue[i], OverCap(left - Total(queue[..i]), max))
  }

  lemma VictimsAre(queue: seq<ProfileInfo>, n: nat, left: int, max: nat)
    requires n <= |queue|
    ensures |Victims(queue, n, left, max)| == n && TakenInTurn(Victims(queue, n, left, max), queue, left, max)
  {}

  lemma QueueIs(ps: seq<ProfileInfo>, now: nat, limits: Limits)
    ensures Sorted(AgeLess, AgeOf, QueueOf(ps, now, limits))
    ensures forall p :: p in QueueOf(ps, now, limits) <==> p in ps && p.built.Some? && !IsIdle(p, now, limits)
  {
    AgeOrder();
    IdleAt(ps, now, limits);
    SortSorted(AgeLess, AgeOf, Others(ps, now, limits));
    SortMembers(AgeLess, AgeOf, Others(ps, now, limits));
  }

  /** So many whole days have gone by since `built`; a build in the future is no day old. */
  ghost predicate DaysGone(built: nat, now: nat, days: nat) {
    if now < built then days == 0 else built + 86_400 * days <= now < built + 86_400 * (days + 1)
  }

  /** Days, told in seconds. */
  lemma IdleInSeconds(p: ProfileInfo, now: nat, limits: Limits)
    ensures IsIdle(p, now, limits) <==>
              && p.built.Some? && limits.idleDays.Some?
              && (limits.idleDays.value == 0 || p.built.value + 86_400 * limits.idleDays.value <= now)
    ensures p.built.Some? ==> forall days: nat :: days == Days(now, p.built.value) <==> DaysGone(p.built.value, now, days)
  {}

  /** Exactly the profiles last built as many days ago as asked, of 86400 seconds each, are chosen for being idle, each with the days
      that have gone by; with no days asked these are all that were built. One whose last build is unknown is never chosen. */
  lemma IdleExactly(ps: seq<ProfileInfo>, now: nat, limits: Limits, n: nat, chosen: seq<Choice>, c: Choice)
    requires Chose(ps, now, limits, n, chosen)
    ensures c in chosen && c.reason.Idle? <==>
              && c.info in ps && c.info.built.Some? && limits.idleDays.Some?
              && (limits.idleDays.value == 0 || c.info.built.value + 86_400 * limits.idleDays.value <= now)
              && c.reason.Idle? && DaysGone(c.info.built.value, now, c.reason.days)
    ensures c in chosen ==> c.info in ps && c.info.built.Some?
  {
    var idle, queue, victims, left := ChoseParts(ps, now, limits, n, chosen);
    IdleInSeconds(c.info, now, limits);
    if c in victims {
      var i :| 0 <= i < n && victims[i] == c;
      assert queue[i] in queue;
    }
  }

  /** Built before, or at the same time and not behind by path. */
  ghost predicate NotNewer(c: ProfileInfo, p: ProfileInfo) {
    && c.built.Some? && p.built.Some?
    && c.built.value <= p.built.value && (c.built.value == p.built.value ==> !PathLess(p.dir, c.dir))
  }

  lemma AgesTell(c: ProfileInfo, p: ProfileInfo)
    requires c.built.Some? && p.built.Some?
    ensures !AgeLess(AgeOf(p), AgeOf(c)) <==> NotNewer(c, p)
  {}

  /** Nothing the cap spares was built before anything it takes, nor at the same time and before it by path. */
  lemma CapTakesOldest(ps: seq<ProfileInfo>, now: nat, limits: Limits, n: nat, chosen: seq<Choice>, c: Choice, p: ProfileInfo)
    requires Chose(ps, now, limits, n, chosen) && c in chosen && c.reason.OverCap?
    requires p in ps && p.built.Some? && !IsChosen(chosen, p)
    ensures c.info.built.Some? && c.info.built.value <= p.built.value
    ensures c.info.built.value == p.built.value ==> !PathLess(p.dir, c.info.dir)
  {
    var idle, queue, victims, left := ChoseParts(ps, now, limits, n, chosen);
    forall x | x in chosen ensures x.info != p {}
    forall q | q in ps && IsIdle(q, now, limits) ensures q != p {
      assert Choice(q, Idle(Days(now, q.built.value))) in chosen;
    }
    forall k | 0 <= k < n ensures queue[k] != p {
      assert victims[k] in chosen;
    }
    var i :| 0 <= i < n && victims[i] == c;
    var j :| 0 <= j < |queue| && queue[j] == p;
    assert queue[i] in queue;
    AgesTell(c.info, p);
  }

  /** What the cap takes it takes by last build, the oldest first, and in path order where they are as old. */
  lemma VictimsInOrder(ps: seq<ProfileInfo>, now: nat, limits: Limits, n: nat, chosen: seq<Choice>, i: nat, j: nat)
    requires Chose(ps, now, limits, n, chosen) && i < j < |chosen| && chosen[i].reason.OverCap?
    ensures chosen[j].reason.OverCap? && NotNewer(chosen[i].info, chosen[j].info)
  {
    var idle, queue, victims, left := ChoseParts(ps, now, limits, n, chosen);
    forall k | 0 <= k < |idle| ensures chosen[k].reason.Idle? {
      assert chosen[k] == idle[k] && idle[k] in idle;
    }
    InTurnInOrder(ps, now, limits, idle, queue, victims, left, n, i - |idle|, j - |idle|);
    assert chosen[i] == victims[i - |idle|] && chosen[j] == victims[j - |idle|];
  }

  lemma InTurnInOrder(ps: seq<ProfileInfo>, now: nat, limits: Limits, idle: seq<Choice>, queue: seq<ProfileInfo>, victims: seq<Choice>,
                      left: int, n: nat, k: nat, l: nat)
    requires Parts(ps, now, limits, idle, queue, victims, left, n) && k < l < n
    ensures victims[l].reason.OverCap? && NotNewer(victims[k].info, victims[l].info)
  {
    assert queue[k] in queue && queue[l] in queue;
    AgesTell(queue[k], queue[l]);
  }

  lemma {:induction false} VictimsFree(queue: seq<ProfileInfo>, victims: seq<Choice>, k: nat)
    requires k <= |victims| <= |queue| && forall i :: 0 <= i < k ==> victims[i].info == queue[i]
    ensures Freed(victims[..k]) == Total(queue[..k])
  {
    if k > 0 {
      VictimsFree(queue, victims, k - 1);
      TotalStep(queue, k - 1);
      assert victims[..k][..k - 1] == victims[..k - 1];
    }
  }

  /** What is left before the victim at `k`. */
  lemma LeftBefore(ps: seq<ProfileInfo>, now: nat, limits: Limits, idle: seq<Choice>, queue: seq<ProfileInfo>, victims: seq<Choice>,
                   left: int, n: nat, k: nat)
    requires Parts(ps, now, limits, idle, queue, victims, left, n) && k <= n
    ensures Left(ps, idle + victims[..k]) == left - Total(queue[..k])
  {
    VictimsFree(queue, victims, k);
    FreedJoin(idle, victims[..k]);
  }

  /** Afterwards everything fits, or everything with a known last build is chosen; and it would not without the last victim. */
  lemma CapIsMetMinimally(ps: seq<ProfileInfo>, now: nat, limits: Limits, n: nat, chosen: seq<Choice>)
    requires Chose(ps, now, limits, n, chosen) && limits.maxTotal.Some?
    ensures Left(ps, chosen) >= 0
    ensures Left(ps, chosen) <= limits.maxTotal.value || forall p :: p in ps && p.built.Some? ==> IsChosen(chosen, p)
    ensures chosen != [] && chosen[|chosen| - 1].reason.OverCap? ==>
              Left(ps, chosen) + chosen[|chosen| - 1].info.bytes > limits.maxTotal.value
  {
    var idle, queue, victims, left := ChoseParts(ps, now, limits, n, chosen);
    LeftAfter(ps, now, limits, idle, queue, victims, left, n);
    LastVictim(ps, now, limits, idle, queue, victims, left, n);
    if n == |queue| {
      AllChosen(ps, now, limits, idle, queue, victims, left);
    }
  }

  lemma LeftAfter(ps: seq<ProfileInfo>, now: nat, limits: Limits, idle: seq<Choice>, queue: seq<ProfileInfo>, victims: seq<Choice>,
                  left: int, n: nat)
    requires Parts(ps, now, limits, idle, queue, victims, left, n)
    ensures Left(ps, idle + victims) == left - Total(queue[..n])
  {
    LeftBefore(ps, now, limits, idle, queue, victims, left, n, n);
    assert victims[..n] == victims;
  }

  lemma LastVictim(ps: seq<ProfileInfo>, now: nat, limits: Limits, idle: seq<Choice>, queue: seq<ProfileInfo>, victims: seq<Choice>,
                   left: int, n: nat)
    requires Parts(ps, now, limits, idle, queue, victims, left, n)
    ensures var chosen := idle + victims;
            chosen != [] && chosen[|chosen| - 1].reason.OverCap? ==>
              n > 0 && left - Total(queue[..n]) + chosen[|chosen| - 1].info.bytes == left - Total(queue[..n - 1])
  {
    if n > 0 {
      TotalStep(queue, n - 1);
      assert (idle + victims)[|idle + victims| - 1] == victims[n - 1];
    } else if idle != [] {
      assert idle[|idle| - 1] in idle;
    }
  }

  lemma AllChosen(ps: seq<ProfileInfo>, now: nat, limits: Limits, idle: seq<Choice>, queue: seq<ProfileInfo>, victims: seq<Choice>,
                  left: int)
    requires Parts(ps, now, limits, idle, queue, victims, left, |queue|)
    ensures forall p :: p in ps && p.built.Some? ==> IsChosen(idle + victims, p)
  {
    var chosen := idle + victims;
    forall p | p in ps && p.built.Some? ensures IsChosen(chosen, p) {
      if IsIdle(p, now, limits) {
        var c := Choice(p, Idle(Days(now, p.built.value)));
        var i :| 0 <= i < |idle| && idle[i] == c;
        assert chosen[i].info == p;
      } else {
        var j :| 0 <= j < |queue| && queue[j] == p;
        assert chosen[|idle| + j].info == p;
      }
    }
  }

  /** Each reason tells what there was before its profile went. */
  lemma ReasonsTell(ps: seq<ProfileInfo>, now: nat, limits: Limits, n: nat, chosen: seq<Choice>, i: nat)
    requires Chose(ps, now, limits, n, chosen) && i < |chosen| && chosen[i].reason.OverCap?
    ensures limits.maxTotal.Some? && chosen[i].reason == OverCap(Left(ps, chosen[..i]), limits.maxTotal.value)
  {
    var idle, queue, victims, left := ChoseParts(ps, now, limits, n, chosen);
    forall j | 0 <= j < |idle| ensures chosen[j].reason.Idle? {
      assert chosen[j] == idle[j] && idle[j] in idle;
    }
    var k := i - |idle|;
    assert chosen[i] == victims[k] && chosen[..i] == idle + victims[..k];
    LeftBefore(ps, now, limits, idle, queue, victims, left, n, k);
  }

  /** A build dir with its profile dirs. */
  datatype Target = Target(root: Path, bytes: nat, profiles: seq<ProfileInfo>)

  datatype Whole = Whole(target: Path, bytes: nat, profiles: seq<ProfileInfo>, first: Reason)

  function ReasonFor(chosen: seq<Choice>, dir: Path): Option<Reason> {
    if chosen == [] then None
    else if chosen[0].info.dir == dir then Some(chosen[0].reason)
    else ReasonFor(chosen[1..], dir)
  }

  lemma {:induction false} ReasonForAt(chosen: seq<Choice>, dir: Path)
    ensures ReasonFor(chosen, dir).Some? <==> exists c :: c in chosen && c.info.dir == dir
  {
    if chosen != [] {
      ReasonForAt(chosen[1..], dir);
      assert chosen == [chosen[0]] + chosen[1..];
    }
  }

  /** The targets whose every profile dir is chosen, and that have any. */
  function WholeTargets(targets: seq<Target>, chosen: seq<Choice>): seq<Whole> {
    if targets == [] then []
    else
      var front, t := WholeTargets(targets[..|targets| - 1], chosen), targets[|targets| - 1];
      if t.profiles != [] && forall p :: p in t.profiles ==> ReasonFor(chosen, p.dir).Some?
      then front + [Whole(t.root, t.bytes, t.profiles, ReasonFor(chosen, t.profiles[0].dir).value)]
      else front
  }

  lemma {:induction false} WholeExactly(targets: seq<Target>, chosen: seq<Choice>, root: Path, profiles: seq<ProfileInfo>)
    ensures (exists w :: w in WholeTargets(targets, chosen) && w.target == root && w.profiles == profiles) <==>
              (exists t :: t in targets && t.root == root && t.profiles == profiles && profiles != []
                && forall p :: p in profiles ==> exists c :: c in chosen && c.info.dir == p.dir)
  {
    if targets != [] {
      var front, t := targets[..|targets| - 1], targets[|targets| - 1];
      WholeExactly(front, chosen, root, profiles);
      assert targets == front + [t];
      forall p | p in t.profiles ensures ReasonFor(chosen, p.dir).Some? <==> exists c :: c in chosen && c.info.dir == p.dir {
        ReasonForAt(chosen, p.dir);
      }
      if t.profiles != [] && forall p :: p in t.profiles ==> ReasonFor(chosen, p.dir).Some? {
        var w := Whole(t.root, t.bytes, t.profiles, ReasonFor(chosen, t.profiles[0].dir).value);
        assert WholeTargets(targets, chosen)[|WholeTargets(front, chosen)|] == w;
      }
    }
  }

  /** What to delete: a target whole, or one dir of a profile. */
  datatype Removal = TargetWhole(target: Path, reason: Reason, bytes: nat) | One(dir: Path, info: ProfileInfo)

  /** Under the lock: the profile is still the one that was chosen. */
  predicate Unbuilt(profiles: seq<Profile>, info: ProfileInfo) {
    if profiles == [] then false
    else if profiles[0].dir == info.dir then profiles[0].lastUsed == info.built
    else Unbuilt(profiles[1..], info)
  }

  /** The profile found first at its dir was last used when it was last built, as the inventory has it. */
  ghost predicate StandsAs(profiles: seq<Profile>, info: ProfileInfo) {
    exists i :: 0 <= i < |profiles| && profiles[i].dir == info.dir && profiles[i].lastUsed == info.built
      && forall j :: 0 <= j < i ==> profiles[j].dir != info.dir
  }

  /** Nothing else keeps a profile. */
  lemma {:induction false} UnbuiltIs(profiles: seq<Profile>, info: ProfileInfo)
    ensures Unbuilt(profiles, info) <==> StandsAs(profiles, info)
  {
    if profiles != [] && profiles[0].dir != info.dir {
      var rest := profiles[1..];
      UnbuiltIs(rest, info);
      if StandsAs(rest, info) {
        var i :| 0 <= i < |rest| && rest[i].dir == info.dir && rest[i].lastUsed == info.built
          && forall j :: 0 <= j < i ==> rest[j].dir != info.dir;
        assert profiles[i + 1] == rest[i];
        forall j | 0 <= j < i + 1 ensures profiles[j].dir != info.dir {
          assert j > 0 ==> profiles[j] == rest[j - 1];
        }
      }
      if StandsAs(profiles, info) {
        var i :| 0 <= i < |profiles| && profiles[i].dir == info.dir && profiles[i].lastUsed == info.built
          && forall j :: 0 <= j < i ==> profiles[j].dir != info.dir;
        assert rest[i - 1] == profiles[i];
        forall j | 0 <= j < i - 1 ensures rest[j].dir != info.dir {
          assert rest[j] == profiles[j + 1];
        }
      }
    }
  }

  predicate AllUnbuilt(profiles: seq<Profile>, infos: seq<ProfileInfo>) {
    forall p :: p in infos ==> Unbuilt(profiles, p)
  }

  predicate Inside(taken: seq<Path>, dir: Path) {
    exists i :: 0 <= i < |taken| && Under(dir, taken[i])
  }

  /** The whole targets that still may go, in order. */
  function WholesOf(whole: seq<Whole>, profiles: seq<Profile>): seq<Removal> {
    if whole == [] then []
    else
      var last := whole[|whole| - 1];
      WholesOf(whole[..|whole| - 1], profiles) + if AllUnbuilt(profiles, last.profiles) then [TargetWhole(last.target, last.first, last.bytes)] else []
  }

  /** The profiles that still may go and do not go with their target, in order. */
  function OnesOf(chosen: seq<Choice>, whole: seq<Whole>, profiles: seq<Profile>): seq<Removal> {
    if chosen == [] then []
    else
      var last := chosen[|chosen| - 1].info;
      OnesOf(chosen[..|chosen| - 1], whole, profiles)
      + if Unbuilt(profiles, last) && !GoesWhole(whole, profiles, last.dir) then [One(last.dir, last)] else []
  }

  /** Some whole target with the dir in it goes. */
  predicate GoesWhole(whole: seq<Whole>, profiles: seq<Profile>, dir: Path) {
    exists w :: w in whole && AllUnbuilt(profiles, w.profiles) && Under(dir, w.target)
  }

  lemma {:induction false} WholesAt(whole: seq<Whole>, profiles: seq<Profile>)
    ensures forall a :: a in WholesOf(whole, profiles) <==>
              exists w :: w in whole && AllUnbuilt(profiles, w.profiles) && a == TargetWhole(w.target, w.first, w.bytes)
  {
    if whole != [] {
      WholesAt(whole[..|whole| - 1], profiles);
      assert whole == whole[..|whole| - 1] + [whole[|whole| - 1]];
    }
  }

  lemma {:induction false} OnesAt(chosen: seq<Choice>, whole: seq<Whole>, profiles: seq<Profile>)
    ensures forall a :: a in OnesOf(chosen, whole, profiles) <==>
              exists c :: c in chosen && Unbuilt(profiles, c.info) && a == One(c.info.dir, c.info)
                && !GoesWhole(whole, profiles, c.info.dir)
  {
    if chosen != [] {
      OnesAt(chosen[..|chosen| - 1], whole, profiles);
      assert chosen == chosen[..|chosen| - 1] + [chosen[|chosen| - 1]];
    }
  }

  /** The eviction looked at again under the locks: the whole targets that are still what was chosen, and after them the single
      profiles that are and do not go with one. */
  method PlanEvict(whole: seq<Whole>, chosen: seq<Choice>, profiles: seq<Profile>) returns (actions: seq<Removal>)
    ensures actions == WholesOf(whole, profiles) + OnesOf(chosen, whole, profiles)
    ensures forall a :: a in actions && a.TargetWhole? <==>
              exists w :: w in whole && AllStand(profiles, w.profiles) && a == TargetWhole(w.target, w.first, w.bytes)
    ensures forall a :: a in actions && a.One? <==>
              exists c :: c in chosen && StandsAs(profiles, c.info) && a == One(c.info.dir, c.info)
                && !exists w :: w in whole && AllStand(profiles, w.profiles) && w.target <= c.info.dir
  {
    actions := [];
    var taken: seq<Path> := [];
    for k := 0 to |whole|
      invariant actions == WholesOf(whole[..k], profiles)
      invariant forall p :: p in taken <==> exists i :: 0 <= i < k && AllUnbuilt(profiles, whole[i].profiles) && p == whole[i].target
    {
      assert whole[..k + 1][..k] == whole[..k];
      if AllUnbuilt(profiles, whole[k].profiles) {
        actions := actions + [TargetWhole(whole[k].target, whole[k].first, whole[k].bytes)];
        taken := taken + [whole[k].target];
      }
    }
    assert whole[..|whole|] == whole;
    ghost var targets := actions;
    for k := 0 to |chosen|
      invariant actions == targets + OnesOf(chosen[..k], whole, profiles)
    {
      assert chosen[..k + 1][..k] == chosen[..k];
      InsideIs(whole, profiles, taken, chosen[k].info.dir);
      if !Inside(taken, chosen[k].info.dir) && Unbuilt(profiles, chosen[k].info) {
        actions := actions + [One(chosen[k].info.dir, chosen[k].info)];
      }
    }
    assert chosen[..|chosen|] == chosen;
    WholesStand(whole, profiles);
    OnesStand(chosen, whole, profiles);
  }

  /** Each of the profiles stands as the inventory has it. */
  ghost predicate AllStand(profiles: seq<Profile>, infos: seq<ProfileInfo>) {
    forall p :: p in infos ==> StandsAs(profiles, p)
  }

  lemma AllUnbuiltIs(profiles: seq<Profile>, infos: seq<ProfileInfo>)
    ensures AllUnbuilt(profiles, infos) <==> AllStand(profiles, infos)
  {
    forall p | p in infos {
      UnbuiltIs(profiles, p);
    }
  }

  lemma WholesStand(whole: seq<Whole>, profiles: seq<Profile>)
    ensures forall a :: a in WholesOf(whole, profiles) <==>
              exists w :: w in whole && AllStand(profiles, w.profiles) && a == TargetWhole(w.target, w.first, w.bytes)
  {
    WholesAt(whole, profiles);
    forall w: Whole {
      AllUnbuiltIs(profiles, w.profiles);
    }
  }

  lemma OnesStand(chosen: seq<Choice>, whole: seq<Whole>, profiles: seq<Profile>)
    ensures forall a :: a in OnesOf(chosen, whole, profiles) <==>
              exists c :: c in chosen && StandsAs(profiles, c.info) && a == One(c.info.dir, c.info)
                && !exists w :: w in whole && AllStand(profiles, w.profiles) && w.target <= c.info.dir
  {
    OnesAt(chosen, whole, profiles);
    forall w: Whole {
      AllUnbuiltIs(profiles, w.profiles);
    }
    forall c: Choice {
      UnbuiltIs(profiles, c.info);
    }
  }

  lemma InsideIs(whole: seq<Whole>, profiles: seq<Profile>, taken: seq<Path>, dir: Path)
    requires forall p :: p in taken <==> exists i :: 0 <= i < |whole| && AllUnbuilt(profiles, whole[i].profiles) && p == whole[i].target
    ensures Inside(taken, dir) <==> GoesWhole(whole, profiles, dir)
  {
    if Inside(taken, dir) {
      var i :| 0 <= i < |taken| && Under(dir, taken[i]);
      assert taken[i] in taken;
    }
    if exists w :: w in whole && AllUnbuilt(profiles, w.profiles) && Under(dir, w.target) {
      var w :| w in whole && AllUnbuilt(profiles, w.profiles) && Under(dir, w.target);
      assert w.target in taken;
    }
  }

  /** The caches of idle profiles that have one: `incremental::select`. */
  function IdleCaches(ps: seq<ProfileInfo>, now: nat, idleDays: nat, hasCache: Path -> bool): seq<ProfileInfo> {
    if ps == [] then []
    else
      var front, last := IdleCaches(ps[..|ps| - 1], now, idleDays, hasCache), ps[|ps| - 1];
      if hasCache(last.dir) && last.built.Some? && Days(now, last.built.value) >= idleDays then front + [last] else front
  }

  /** `Incremental::plan`: the caches that are still there, of profiles not built since. */
  function PlanCaches(idle: seq<ProfileInfo>, profiles: seq<Profile>, hasCache: Path -> bool, name: Component): seq<Removal> {
    if idle == [] then []
    else
      var front, last := PlanCaches(idle[..|idle| - 1], profiles, hasCache, name), idle[|idle| - 1];
      if Unbuilt(profiles, last) && hasCache(last.dir) then front + [One(last.dir + [name], last)] else front
  }

  lemma {:induction false} CachesAt(ps: seq<ProfileInfo>, now: nat, idleDays: nat, hasCache: Path -> bool)
    ensures forall p :: p in IdleCaches(ps, now, idleDays, hasCache) <==>
              && p in ps && hasCache(p.dir) && p.built.Some?
              && (idleDays == 0 || p.built.value + 86_400 * idleDays <= now)
  {
    if ps != [] {
      CachesAt(ps[..|ps| - 1], now, idleDays, hasCache);
      assert ps == ps[..|ps| - 1] + [ps[|ps| - 1]];
    }
  }

  lemma {:induction false} PlanCachesAt(idle: seq<ProfileInfo>, profiles: seq<Profile>, hasCache: Path -> bool, name: Component)
    ensures forall a :: a in PlanCaches(idle, profiles, hasCache, name) <==>
              a.One? && a.info in idle && StandsAs(profiles, a.info) && hasCache(a.info.dir) && a.dir == a.info.dir + [name]
  {
    if idle != [] {
      UnbuiltIs(profiles, idle[|idle| - 1]);
      PlanCachesAt(idle[..|idle| - 1], profiles, hasCache, name);
      assert idle == idle[..|idle| - 1] + [idle[|idle| - 1]];
    }
  }
}
