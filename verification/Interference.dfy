/** Copies made while a build without a lock may write: each is taken between two looks at a stamp
    (`try_replace`, `stage_copy`, `try_finish_compress` in `src/engine.rs`). */
module Interference {
  import opened Files
  import opened Model

  /** What a path holds at one moment. */
  datatype Version = Version(stamp: Stamp, bytes: Bytes)

  /** A path anybody may write. What is written has a stamp the path never had; that is all that is assumed. */
  class Site {
    var now: Option<Version>
    /** Every stamp the path ever had, with what it stood for. */
    var held: map<Stamp, Bytes>

    ghost predicate Valid()
      reads this
    {
      now.Some? ==> |now.value.bytes| == now.value.stamp.size && now.value.stamp in held && held[now.value.stamp] == now.value.bytes
    }

    /** The path had this stamp and has it no longer. */
    ghost predicate Gone(stamp: Stamp)
      reads this
    {
      stamp in held && !(now.Some? && now.value.stamp == stamp)
    }

    constructor (first: Option<Version>)
      requires first.Some? ==> |first.value.bytes| == first.value.stamp.size
      ensures Valid() && now == first
    {
      now := first;
      held := if first.Some? then map[first.value.stamp := first.value.bytes] else map[];
    }

    /** Any number of outside writes, replacements and removals, between two steps of the engine. */
    method Interfere()
      requires Valid()
      modifies this
      ensures Valid()
      ensures forall s :: s in old(held) ==> s in held && held[s] == old(held)[s]
      ensures forall s :: old(Gone(s)) ==> Gone(s)
      ensures now == old(now) || (old(now).Some? ==> Gone(old(now).value.stamp))
    {
      var times: nat :| true;
      for i := 0 to times
        invariant Valid()
        invariant forall s :: s in old(held) ==> s in held && held[s] == old(held)[s]
        invariant forall s :: old(Gone(s)) ==> Gone(s)
        invariant now == old(now) || (old(now).Some? ==> Gone(old(now).value.stamp))
      {
        var next: Option<Version> :| true;
        if next.None? || (|next.value.bytes| == next.value.stamp.size && next.value.stamp !in held) {
          if next.Some? {
            held := held[next.value.stamp := next.value.bytes];
          }
          now := next;
        }
      }
    }

    /** `Stamp::read(path)? == stamp`. */
    method Check(stamp: Stamp) returns (r: Io<bool>)
      requires Valid()
      ensures r.Done? ==> now.Some? && r.value == (now.value.stamp == stamp)
    {
      var broken: bool := *;
      var e: IoError := *;
      if now.None? || broken {
        return Fail(e);
      }
      return Done(now.value.stamp == stamp);
    }
  }

  /** What a copy of `site` knows if the site had `stamp` when it began: it has gone since, or this is its content. */
  ghost predicate Faithful(site: Site, stamp: Stamp, bytes: Bytes)
    reads site
  {
    site.Gone(stamp) || (site.now.Some? && site.now.value.stamp == stamp && bytes <= site.now.value.bytes)
  }

  /** Outside writes either leave the site as it was or take its stamp away for good. */
  method Wait(site: Site, ghost stamp: Stamp, ghost bytes: Bytes)
    requires site.Valid() && stamp in site.held && Faithful(site, stamp, bytes)
    modifies site
    ensures site.Valid() && stamp in site.held && site.held[stamp] == old(site.held)[stamp] && Faithful(site, stamp, bytes)
    ensures old(site.Gone(stamp)) ==> site.Gone(stamp)
  {
    site.Interfere();
  }

  /** Copies the file byte by byte while others write: each byte is what the path holds when it is read. */
  method Copy(site: Site, ghost stamp: Stamp) returns (r: Io<Bytes>)
    requires site.Valid() && site.now.Some? && site.now.value.stamp == stamp
    modifies site
    ensures site.Valid() && stamp in site.held && site.held[stamp] == old(site.held)[stamp]
    ensures r.Done? ==> Faithful(site, stamp, r.value) && (site.Gone(stamp) || |r.value| == stamp.size)
  {
    var copy: Bytes := [];
    Wait(site, stamp, copy);
    if site.now.None? {
      return Fail(Other(0));
    }
    var size := |site.now.value.bytes|;
    for i := 0 to size
      invariant site.Valid() && stamp in site.held && site.held[stamp] == old(site.held)[stamp]
      invariant |copy| == i && Faithful(site, stamp, copy)
      invariant site.Gone(stamp) || size == stamp.size
    {
      Wait(site, stamp, copy);
      if site.now.None? || |site.now.value.bytes| <= i {
        return Fail(Other(0));
      }
      copy := copy + [site.now.value.bytes[i]];
    }
    return Done(copy);
  }

  /** A clone, taken between two looks at the source: the steps of `try_replace` up to the rename. Others write the source
      before, between and after all of them. */
  method CloneGuarded(source: Site, stamp: Stamp) returns (r: Io<Option<Bytes>>)
    requires source.Valid()
    modifies source
    ensures source.Valid()
    ensures r.Done? && r.value.Some? ==> stamp in source.held && source.held[stamp] == r.value.value
    ensures r == Done(None) ==> source.now.Some? && source.now.value.stamp != stamp
  {
    source.Interfere();
    var before :- source.Check(stamp);
    if !before {
      return Done(None);
    }
    var copy :- Copy(source, stamp);
    Wait(source, stamp, copy);
    var after :- source.Check(stamp);
    return Done(if after then Some(copy) else None);
  }

  /** A private copy of a group's first path, the backend, and the second look: the steps of `stage_copy` and
      `try_finish_compress` up to the rename. The backend keeps the bytes, or the length shows that it did not. */
  method CompressGuarded(first: Site, stamp: Stamp, backend: Bytes -> Bytes) returns (r: Io<Option<Bytes>>)
    requires first.Valid()
    requires forall b :: backend(b) == b || |backend(b)| != |b|
    modifies first
    ensures first.Valid()
    ensures r.Done? && r.value.Some? ==> stamp in first.held && first.held[stamp] == r.value.value
  {
    first.Interfere();
    var before :- first.Check(stamp);
    if !before {
      return Done(None);
    }
    var copy :- Copy(first, stamp);
    Wait(first, stamp, copy);
    var compressed := backend(copy);
    if |compressed| != stamp.size {
      return Done(None);
    }
    Wait(first, stamp, copy);
    var after :- first.Check(stamp);
    return Done(if after then Some(compressed) else None);
  }

  /** A copy whose bytes were read at `times` from a path with this history. */
  function Assembled(history: seq<Version>, times: seq<nat>): Bytes
    requires forall i :: 0 <= i < |times| ==> times[i] < |history| && i < |history[times[i]].bytes|
  {
    seq(|times|, i requires 0 <= i < |times| => history[times[i]].bytes[i])
  }

  /** Times at which a file of this size may be read from front to back, after the look at `from` and before the one at `to`. */
  ghost predicate MayRead(history: seq<Version>, from: nat, to: nat, size: nat, times: seq<nat>) {
    && |times| == size
    && (forall i :: 0 <= i < size ==> from <= times[i] <= to && times[i] < |history| && i < |history[times[i]].bytes|)
    && (forall i, j :: 0 <= i < j < size ==> times[i] <= times[j])
  }

  /** Every version between the looks agrees with the first, as far as it reaches. */
  ghost predicate AgreesBetween(history: seq<Version>, from: nat, to: nat)
    requires from <= to < |history|
  {
    forall k, i :: from <= k <= to && 0 <= i < |history[from].bytes| && i < |history[k].bytes| ==>
      history[k].bytes[i] == history[from].bytes[i]
  }

  /** When two looks that find one stamp are enough, if stamps may come back: exactly when no version between them has another byte
      where the copy may be reading. */
  lemma TwoLooksSuffice(history: seq<Version>, from: nat, to: nat, stamp: Stamp)
    requires from <= to < |history| && history[from].stamp == stamp && history[to].stamp == stamp
    requires |history[from].bytes| == stamp.size && |history[to].bytes| == stamp.size
    ensures (forall times :: MayRead(history, from, to, stamp.size, times) ==> Assembled(history, times) == history[from].bytes)
            <==> AgreesBetween(history, from, to)
  {
    if !AgreesBetween(history, from, to) {
      var k, i :| from <= k <= to && 0 <= i < |history[from].bytes| && i < |history[k].bytes|
        && history[k].bytes[i] != history[from].bytes[i];
      var times := seq(stamp.size, n requires 0 <= n < stamp.size => if n < i then from else if n == i then k else to);
      assert MayRead(history, from, to, stamp.size, times);
      assert Assembled(history, times)[i] != history[from].bytes[i];
    }
  }
}
