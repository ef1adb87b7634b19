/** What the index is worth while a run replaces the files it knows. */
module Truth {
  import opened Paths
  import opened Files
  import opened Model
  import opened Preserve
  import opened Swap
  import opened Apply
  import opened Index
  import opened Dedupe

  /** The index is right about the scanned state `seen` and about the present one, in which `seen` is kept; and it knows
      no identity that was not given out. */
  ghost predicate Knows(h: Hasher, m: Entries, seen: Fs, fs: Fs) {
    && seen.WellFormed() && fs.WellFormed()
    && Stable(seen, fs, false) && Kept(seen, fs, {}, false)
    && Sound(h, m, seen.nodes) && Sound(h, m, fs.nodes)
    && m.Keys <= fs.ever
  }

  /** Whatever the index has for `id` is the hash of what the scan saw there. */
  ghost predicate Right(h: Hasher, m: Entries, seen: Fs, id: FileId) {
    id in m && id in seen.nodes ==> m[id].entry.hash == h(seen.nodes[id].bytes)
  }

  /** As long as no file changes its age the index stays right. */
  lemma KnowsAfter(h: Hasher, m: Entries, seen: Fs, a: Fs, s: Fs, id: FileId)
    requires Knows(h, m, seen, a) && s.WellFormed() && Stable(a, s, false) && Kept(a, s, {}, false)
    requires AgedOnly(a, s, id) && (id in a.nodes ==> Right(h, m, seen, id))
    requires id in a.nodes ==> id in seen.nodes
    ensures Knows(h, m, seen, s)
  {
    StableTransitive(seen, a, s, false);
    KeptTransitive(seen, a, s, {}, {}, false);
  }

  lemma ExactIsAgeless(a: Fs, s: Fs, id: FileId)
    requires Stable(a, s, true) && a.WellFormed()
    ensures AgedOnly(a, s, id)
  {}

  lemma KnowsAfterExact(h: Hasher, m: Entries, seen: Fs, a: Fs, s: Fs)
    requires Knows(h, m, seen, a) && s.WellFormed() && Stable(a, s, true) && Kept(a, s, {}, true)
    ensures Knows(h, m, seen, s)
  {
    StableTransitive(seen, a, s, false);
    KeptTransitive(seen, a, s, {}, {}, false);
  }

  /** A replacement, applied or not, leaves the index right: where it moved an age, the index was right whatever
      the age. */
  lemma KnowsAfterReplace(h: Hasher, m: Entries, seen: Fs, a: Fs, r: Replace, locked: seq<Path>, pid: nat, lo: nat, hi: nat,
                          s: Fs, g: Goal, skip: Option<Skip>)
    requires Knows(h, m, seen, a) && Vouched(seen, r) && Right(h, m, seen, r.sourceStamp.id)
    requires ReplaceOutcome(a, r, locked, pid, lo, hi, s, g, skip) && Kept(a, s, {}, false)
    ensures Knows(h, m, seen, s)
  {
    if ReplaceSkip(a, r, locked).None? {
      ReplaceStands(a, r, locked);
      if g.exact {
        ExactIsAgeless(a, s, r.sourceStamp.id);
      }
      KnowsAfter(h, m, seen, a, s, r.sourceStamp.id);
    }
  }

  /** `replaced` after a replacement tells the index nothing false. */
  lemma KnowsReplaced(h: Hasher, m: Entries, seen: Fs, a: Fs, r: Replace, locked: seq<Path>, pid: nat, lo: nat, hi: nat,
                      s: Fs, g: Goal, new_: Stamp, now: nat)
    requires Knows(h, m, seen, a) && Vouched(seen, r)
    requires ReplaceOutcome(a, r, locked, pid, lo, hi, s, g, None) && Knows(h, m, seen, s)
    requires s.Has(r.member.paths[0]) && new_ == StampOf(s.names[r.member.paths[0]], s.At(r.member.paths[0]))
    ensures Knows(h, ReplacedIn(m, r.sourceStamp, r.member.stamp, new_, now), seen, s)
    ensures forall id :: Right(h, m, seen, id) ==> Right(h, ReplacedIn(m, r.sourceStamp, r.member.stamp, new_, now), seen, id)
  {
    ReplaceStands(a, r, locked);
    assert new_.id == g.target && s.nodes[new_.id].bytes == g.bytes == a.At(r.source).bytes;
    assert g.bytes == seen.nodes[r.sourceStamp.id].bytes;
    assert new_.id in s.ever;
    if Lookup(m, r.sourceStamp).Some? {
      var hash := Lookup(m, r.sourceStamp).value.hash;
      assert hash == h(g.bytes);
      assert new_.id in seen.nodes ==> new_.id == r.sourceStamp.id;
      SharedSound(h, m, seen.nodes, r.sourceStamp, now);
      SharedSound(h, m, s.nodes, r.sourceStamp, now);
      var left := SharedIn(m, r.sourceStamp, now) - {r.member.stamp.id};
      RemovedSound(h, SharedIn(m, r.sourceStamp, now), seen.nodes, {r.member.stamp.id});
      RemovedSound(h, SharedIn(m, r.sourceStamp, now), s.nodes, {r.member.stamp.id});
      PutSound(h, left, seen.nodes, new_, hash, true, now);
      PutSound(h, left, s.nodes, new_, hash, true, now);
    }
  }

  /** `rewritten` after a compression tells the index nothing false. */
  lemma KnowsRewritten(h: Hasher, m: Entries, seen: Fs, fs: Fs, before: Stamp, after: Stamp, now: nat)
    requires Knows(h, m, seen, fs)
    requires before.id in seen.nodes && before == StampOf(before.id, seen.nodes[before.id])
    requires after.id !in seen.ever && after.id in fs.ever
    requires after.id in fs.nodes ==> fs.nodes[after.id].bytes == seen.nodes[before.id].bytes
    ensures Knows(h, RewrittenIn(m, before, after, now), seen, fs)
  {
    if Lookup(m, before).Some? {
      RemovedSound(h, m, seen.nodes, {before.id});
      RemovedSound(h, m, fs.nodes, {before.id});
      PutSound(h, m - {before.id}, fs.nodes, after, Lookup(m, before).value.hash, false, now);
    }
  }

  /** What hashing put into the index is about the versions that were scanned. */
  lemma LearnedDated(h: Hasher, known: Entries, m0: Entries, m: Entries, seen: Fs, fs: Fs, asked: seq<Candidate>, states: seq<Fs>, begin: nat,
                     k: nat)
    requires m0 in Datings(known, states, begin) && Learned(h, fs, m0, m, asked)
    requires begin <= k < |states| && states[k] == seen && forall x :: x in asked ==> Describes(seen, x.inode)
    ensures m in Datings(known, states, begin)
  {
    forall id | id in m ensures (id in known && KeyStamp(m, id) == KeyStamp(known, id)) || Lived(states, begin, KeyStamp(m, id)) {
      if id in m0 && m[id].entry == m0[id].entry {
        assert KeyStamp(m, id) == KeyStamp(m0, id);
      } else {
        var x :| x in asked && x.inode.stamp.id == id && IsHashOf(h, fs, m, x);
        assert KeyStamp(m, id) == x.inode.stamp && Live(states[k], x.inode.stamp);
      }
    }
  }

  lemma KnowsScanned(h: Hasher, m: Entries, seen: Fs, fs: Fs)
    requires Knows(h, m, seen, fs)
    ensures Knows(h, m, fs, fs)
  {}

  /** Hashing the candidates of a scan leaves the index right, and for good: whatever it has for a candidate it hit is
      the hash of its content. */
  lemma KnowsLearned(h: Hasher, m0: Entries, m: Entries, seen: Fs, fs: Fs, asked: seq<Candidate>)
    requires Knows(h, m0, seen, fs) && Learned(h, fs, m0, m, asked) && Pictured(seen, fs, asked)
    ensures Knows(h, m, seen, fs)
    ensures forall x :: x in asked && Hits(m, x.inode.stamp) ==> Right(h, m, seen, x.inode.stamp.id)
  {
    forall x | x in asked && x.inode.paths != [] && fs.Has(x.inode.paths[0]) && x.inode.stamp.id in fs.nodes
      ensures fs.At(x.inode.paths[0]).bytes == fs.nodes[x.inode.stamp.id].bytes
    {
      assert Describes(seen, x.inode) && x.inode.stamp.id in seen.ever;
    }
    LearnedSound(h, fs, m0, m, asked, seen.nodes);
    LearnedSound(h, fs, m0, m, asked, fs.nodes);
    forall id | id in m ensures id in fs.ever {
      if !(id in m0) {
        var x :| x in asked && x.inode.stamp.id == id && IsHashOf(h, fs, m, x);
        assert Describes(seen, x.inode);
      }
    }
  }
}
