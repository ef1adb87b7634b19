/** The index over any number of builds, runs and seedings: it never vouches for bytes that are gone. */
module Cache {
  import opened Paths
  import opened Files
  import opened Model
  import opened Preserve
  import opened Index
  import opened Codec
  import opened Truth
  import opened Removal
  import opened Guards
  import opened Passes
  import Run
  import Seed

  /** The files, and every stamp a file ever had. */
  datatype World = World(fs: Fs, past: set<Stamp>)

  /** A run as it is told when it has ended: with what it was begun, the states the disk went through, and what it left. */
  datatype RunTale = RunTale(passes: seq<Pass>, opts: Options, units: seq<Path>, taken: Taken, pid: nat, serial: nat, from: nat,
                             states: seq<Fs>, removals: seq<Removed>)

  /** What happens to files and index, one thing at a time: builds and all else that is not this tool, runs, seedings, and what the
      index goes through between them. */
  datatype Event =
    | Built(after: Fs)
    | Ran(tale: RunTale, after: Fs, entries: Entries)
    | Seeded(begin: nat, states: seq<Fs>, after: Fs, entries: Entries)
    | Expired(idle: nat, now: nat)
    | Reloaded

  /** A build gives what it writes a stamp that never was. */
  ghost predicate FreshlyStamped(w: World, after: Fs) {
    && after.WellFormed() && w.fs.ever <= after.ever
    && forall id :: id in after.nodes && StampOf(id, after.nodes[id]) in w.past ==>
         && id in w.fs.nodes && StampOf(id, w.fs.nodes[id]) == StampOf(id, after.nodes[id])
         && w.fs.nodes[id].bytes == after.nodes[id].bytes
  }

  /** The rules of a run, as they are told before it begins. */
  ghost function RulesOf(h: Hasher, w: World, m: Entries, t: RunTale): Rules {
    Rules(t.taken.locked, t.pid, t.serial, ClonesOnly(t.passes, t.opts),
          Lossless(t.passes, t.opts) && Knows(h, m, w.fs, w.fs) && Run.NoCollision(h, w.fs))
  }

  /** When an event may happen: of a run and of a seeding, what `Run.RunWith` and `Seed.Seed` promise of them. */
  ghost predicate Allowed(h: Hasher, w: World, m: Entries, e: Event) {
    match e
    case Built(after) => FreshlyStamped(w, after)
    case Ran(t, after, n) =>
      && Lossless(t.passes, t.opts) && Run.NoCollision(h, w.fs)
      && Run.RunKept(RulesOf(h, w, m, t), w.fs, t.from, h, t.units, t.taken, m, after, t.states, n, t.removals)
    case Seeded(begin, states, after, n) =>
      && (Seed.Trusted(h, m, w.fs) ==> Seed.Trusted(h, n, after)) && after.WellFormed()
      && n in Datings(m, states, begin) && begin < |states| && states[|states| - 1] == after
    case Expired(_, _) => true
    case Reloaded => true
  }

  /** The stamps files had from the state at `begin` on. */
  ghost function StampsIn(states: seq<Fs>, begin: nat): set<Stamp> {
    set k, id | begin <= k < |states| && id in states[k].nodes :: StampOf(id, states[k].nodes[id])
  }

  ghost function NextWorld(w: World, e: Event): World {
    match e
    case Built(after) => World(after, w.past + StampsIn([after], 0))
    case Ran(t, after, _) => World(after, w.past + StampsIn(t.states, if t.from == 0 then 0 else t.from - 1))
    case Seeded(begin, states, after, _) => World(after, w.past + StampsIn(states, begin))
    case _ => w
  }

  function NextIndex(m: Entries, e: Event): Entries {
    match e
    case Ran(_, _, n) => n
    case Seeded(_, _, _, n) => n
    case Expired(idle, now) => ExpiredFrom(m, idle, now)
    case Reloaded => Cacheable(m)
    case Built(_) => m
  }

  /** Present stamps and cached ones are stamps that have been, and a hit tells the truth. */
  ghost predicate Trusted(h: Hasher, w: World, m: Entries) {
    && w.fs.WellFormed() && m.Keys <= w.fs.ever
    && (forall id :: id in w.fs.nodes ==> StampOf(id, w.fs.nodes[id]) in w.past)
    && (forall id :: id in m ==> KeyStamp(m, id) in w.past)
    && Sound(h, m, w.fs.nodes)
  }

  /** `events` leads from one world and index to another, every event allowed when it happens. */
  ghost predicate Leads(h: Hasher, w: World, m: Entries, events: seq<Event>, w': World, m': Entries)
    decreases |events|
  {
    if events == [] then w' == w && m' == m
    else Allowed(h, w, m, events[0]) && Leads(h, NextWorld(w, events[0]), NextIndex(m, events[0]), events[1..], w', m')
  }

  /** An index that is trusted is right about what a run will scan. */
  lemma TrustedKnows(h: Hasher, w: World, m: Entries)
    requires Trusted(h, w, m)
    ensures Knows(h, m, w.fs, w.fs) && Seed.Trusted(h, m, w.fs)
  {}

  /** The versions an index knows after a stretch of states are versions that have been. */
  lemma DatedIsPast(w: World, m: Entries, n: Entries, states: seq<Fs>, begin: nat)
    requires n in Datings(m, states, begin) && forall id :: id in m ==> KeyStamp(m, id) in w.past
    ensures forall id :: id in n ==> KeyStamp(n, id) in w.past + StampsIn(states, begin)
  {
    forall id | id in n ensures KeyStamp(n, id) in w.past + StampsIn(states, begin) {
      if !(id in m && KeyStamp(n, id) == KeyStamp(m, id)) {
        var k :| begin <= k < |states| && Live(states[k], KeyStamp(n, id));
        assert StampOf(id, states[k].nodes[id]) in StampsIn(states, begin);
      }
    }
  }

  lemma LastIsPast(states: seq<Fs>, begin: nat, after: Fs)
    requires begin < |states| && states[|states| - 1] == after
    ensures forall id :: id in after.nodes ==> StampOf(id, after.nodes[id]) in StampsIn(states, begin)
  {}

  lemma BuildKeepsTrust(h: Hasher, w: World, m: Entries, after: Fs)
    requires Trusted(h, w, m) && FreshlyStamped(w, after)
    ensures Trusted(h, NextWorld(w, Built(after)), m)
  {
    LastIsPast([after], 0, after);
    forall id | id in after.nodes && Hits(m, StampOf(id, after.nodes[id])) ensures m[id].entry.hash == h(after.nodes[id].bytes) {
      assert KeyStamp(m, id) == StampOf(id, after.nodes[id]);
    }
  }

  /** A run of lossless passes may begin with a trusted index, and leaves one. */
  lemma RunKeepsTrust(h: Hasher, w: World, m: Entries, t: RunTale, after: Fs, n: Entries)
    requires Trusted(h, w, m) && Allowed(h, w, m, Ran(t, after, n))
    ensures Trusted(h, NextWorld(w, Ran(t, after, n)), n)
  {
    TrustedKnows(h, w, m);
    assert after in Steps(RulesOf(h, w, m, t), w.fs, Run.Dirs(t.removals));
    DatedIsPast(w, m, n, t.states, t.from - 1);
    LastIsPast(t.states, t.from - 1, after);
  }

  lemma EventKeepsTrust(h: Hasher, w: World, m: Entries, e: Event)
    requires Trusted(h, w, m) && Allowed(h, w, m, e)
    ensures Trusted(h, NextWorld(w, e), NextIndex(m, e))
  {
    match e
    case Built(after) => BuildKeepsTrust(h, w, m, after);
    case Ran(t, after, n) => RunKeepsTrust(h, w, m, t, after, n);
    case Seeded(begin, states, after, n) =>
      TrustedKnows(h, w, m);
      DatedIsPast(w, m, n, states, begin);
      LastIsPast(states, begin, after);
    case _ =>
  }

  /** Over any interleaving of builds, runs, seedings, expiry and saving, an entry that hits a file has the hash of that file's
      bytes; and the next run may go by it. */
  lemma {:induction false} TrustForever(h: Hasher, w: World, m: Entries, events: seq<Event>, w': World, m': Entries)
    requires Trusted(h, w, m) && Leads(h, w, m, events, w', m')
    ensures Trusted(h, w', m') && Knows(h, m', w'.fs, w'.fs)
    decreases |events|
  {
    if events == [] {
      TrustedKnows(h, w, m);
    } else {
      EventKeepsTrust(h, w, m, events[0]);
      TrustForever(h, NextWorld(w, events[0]), NextIndex(m, events[0]), events[1..], w', m');
    }
  }

  /** The one thing that can break it: a write that brings back a cached stamp with other bytes. */
  lemma StampTrustIsNeeded(h: Hasher, w: World, m: Entries, id: FileId, node: Node)
    requires Trusted(h, w, m)
    ensures Sound(h, m, w.fs.nodes[id := node]) <==> (Hits(m, StampOf(id, node)) ==> m[id].entry.hash == h(node.bytes))
  {
    var after := w.fs.nodes[id := node];
    assert id in after && after[id] == node;
    forall i | i in after && i != id && Hits(m, StampOf(i, after[i])) ensures m[i].entry.hash == h(after[i].bytes) {
      assert after[i] == w.fs.nodes[i];
    }
  }
}
