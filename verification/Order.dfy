/** Strict total orders, the lexicographic order of sequences, and the sort of a standard library. */
module Order {

  ghost predicate StrictTotal<T(!new)>(lt: (T, T) -> bool) {
    && (forall x :: !lt(x, x))
    && (forall x, y, z :: lt(x, y) && lt(y, z) ==> lt(x, z))
    && (forall x, y :: x == y || lt(x, y) || lt(y, x))
  }

  /** The order of `slice::cmp`: first difference decides, a prefix comes first. */
  predicate LexLess<T(==)>(lt: (T, T) -> bool, a: seq<T>, b: seq<T>) {
    if b == [] then false
    else if a == [] then true
    else if a[0] == b[0] then LexLess(lt, a[1..], b[1..])
    else lt(a[0], b[0])
  }

  /** The first place where two sequences differ decides, */
  lemma {:induction false} FirstDecides<T>(lt: (T, T) -> bool, front: seq<T>, x: T, y: T, p: seq<T>, q: seq<T>)
    requires x != y
    ensures LexLess(lt, front + [x] + p, front + [y] + q) <==> lt(x, y)
  {
    var a, b := front + [x] + p, front + [y] + q;
    if front != [] {
      FirstDecides(lt, front[1..], x, y, p, q);
      assert a[1..] == front[1..] + [x] + p && b[1..] == front[1..] + [y] + q;
    }
  }

  /** and if there is none, the longer one comes second. */
  lemma {:induction false} FrontFirst<T>(lt: (T, T) -> bool, front: seq<T>, p: seq<T>)
    ensures LexLess(lt, front, front + p) <==> p != []
    ensures !LexLess(lt, front + p, front)
  {
    if front != [] {
      FrontFirst(lt, front[1..], p);
      assert (front + p)[1..] == front[1..] + p;
    }
  }

  lemma {:induction false} LexIrreflexive<T(!new)>(lt: (T, T) -> bool, a: seq<T>)
    ensures !LexLess(lt, a, a)
  {
    if a != [] {
      LexIrreflexive(lt, a[1..]);
    }
  }

  lemma {:induction false} LexTransitive<T(!new)>(lt: (T, T) -> bool, a: seq<T>, b: seq<T>, c: seq<T>)
    requires StrictTotal(lt)
    requires LexLess(lt, a, b) && LexLess(lt, b, c)
    ensures LexLess(lt, a, c)
  {
    if a != [] && a[0] == b[0] && b[0] == c[0] {
      LexTransitive(lt, a[1..], b[1..], c[1..]);
    }
  }

  lemma {:induction false} LexTotal<T(!new)>(lt: (T, T) -> bool, a: seq<T>, b: seq<T>)
    requires StrictTotal(lt)
    ensures a == b || LexLess(lt, a, b) || LexLess(lt, b, a)
  {
    if a != [] && b != [] && a[0] == b[0] {
      LexTotal(lt, a[1..], b[1..]);
      if a[1..] == b[1..] {
        assert a == [a[0]] + a[1..] == b;
      }
    }
  }

  /** No later element is before an earlier one. */
  ghost predicate Sorted<T, K>(lt: (K, K) -> bool, key: T -> K, s: seq<T>) {
    forall i, j :: 0 <= i < j < |s| ==> !lt(key(s[j]), key(s[i]))
  }

  /** A stable insertion: `x` goes behind everything that is not after it. */
  function Insert<T, K>(lt: (K, K) -> bool, key: T -> K, s: seq<T>, x: T): (r: seq<T>)
    ensures multiset(r) == multiset(s) + multiset{x}
  {
    if s == [] then [x]
    else if lt(key(x), key(s[|s| - 1])) then
      assert s == s[..|s| - 1] + [s[|s| - 1]];
      Insert(lt, key, s[..|s| - 1], x) + [s[|s| - 1]]
    else s + [x]
  }

  /** `sort_by`: what the result is matters here, not how the standard library gets there. */
  function Sort<T, K>(lt: (K, K) -> bool, key: T -> K, s: seq<T>): (r: seq<T>)
    ensures multiset(r) == multiset(s)
    ensures |r| == |s|
  {
    if s == [] then []
    else
      assert s == s[..|s| - 1] + [s[|s| - 1]];
      var r := Insert(lt, key, Sort(lt, key, s[..|s| - 1]), s[|s| - 1]);
      assert |multiset(r)| == |multiset(s)|;
      r
  }

  lemma {:induction false} InsertSorted<T, K(!new)>(lt: (K, K) -> bool, key: T -> K, s: seq<T>, x: T)
    requires StrictTotal(lt) && Sorted(lt, key, s)
    ensures Sorted(lt, key, Insert(lt, key, s, x))
  {
    var r := Insert(lt, key, s, x);
    if s != [] {
      var last := s[|s| - 1];
      if lt(key(x), key(last)) {
        var front := Insert(lt, key, s[..|s| - 1], x);
        InsertSorted(lt, key, s[..|s| - 1], x);
        forall i | 0 <= i < |front|
          ensures !lt(key(last), key(front[i]))
        {
          assert front[i] in multiset(s[..|s| - 1]) + multiset{x};
        }
      } else {
        forall i | 0 <= i < |s|
          ensures !lt(key(x), key(s[i]))
        {
          assert i == |s| - 1 || !lt(key(last), key(s[i]));
        }
      }
    }
  }

  lemma {:induction false} SortSorted<T, K(!new)>(lt: (K, K) -> bool, key: T -> K, s: seq<T>)
    requires StrictTotal(lt)
    ensures Sorted(lt, key, Sort(lt, key, s))
  {
    if s != [] {
      SortSorted(lt, key, s[..|s| - 1]);
      InsertSorted(lt, key, Sort(lt, key, s[..|s| - 1]), s[|s| - 1]);
    }
  }

  lemma SortMembers<T, K>(lt: (K, K) -> bool, key: T -> K, s: seq<T>)
    ensures forall x :: x in Sort(lt, key, s) <==> x in s
  {
    forall x ensures x in Sort(lt, key, s) <==> x in s {
      assert x in Sort(lt, key, s) <==> x in multiset(Sort(lt, key, s));
      assert x in s <==> x in multiset(s);
    }
  }

  ghost predicate Distinct<T, K>(key: T -> K, s: seq<T>) {
    forall i, j :: 0 <= i < j < |s| ==> key(s[i]) != key(s[j])
  }

  ghost predicate StrictlySorted<T, K>(lt: (K, K) -> bool, key: T -> K, s: seq<T>) {
    forall i, j :: 0 <= i < j < |s| ==> lt(key(s[i]), key(s[j]))
  }

  /** Taking out one element takes it out of the multiset once. */
  lemma RemoveAt<T>(s: seq<T>, i: nat)
    requires i < |s|
    ensures multiset(s[..i] + s[i + 1..]) == multiset(s) - multiset{s[i]}
    ensures s == s[..i] + [s[i]] + s[i + 1..]
  {
    assert s == s[..i] + [s[i]] + s[i + 1..];
  }

  /** The last element of one order of things, found in another. */
  lemma LastIn<T>(s: seq<T>, t: seq<T>) returns (i: nat)
    requires multiset(s) == multiset(t) && s != []
    ensures i < |t| && t[i] == s[|s| - 1]
    ensures multiset(s[..|s| - 1]) == multiset(t[..i] + t[i + 1..])
  {
    var n := |s| - 1;
    RemoveAt(s, n);
    assert s[..n] + s[n + 1..] == s[..n];
    assert s[n] in multiset(t);
    i :| 0 <= i < |t| && t[i] == s[n];
    RemoveAt(t, i);
  }

  lemma SameEmpty<T>(s: seq<T>, t: seq<T>)
    requires multiset(s) == multiset(t)
    ensures |s| == |t|
  {
    assert |t| == |multiset(t)| == |multiset(s)| == |s|;
  }

  lemma RepeatCounts<T>(s: seq<T>, i: nat, j: nat)
    requires i < j < |s| && s[i] == s[j]
    ensures multiset(s)[s[i]] >= 2
  {
    assert s == s[..j] + s[j..];
    assert s[i] in s[..j] && s[i] in s[j..];
  }

  lemma {:induction false} CountRepeats<T>(s: seq<T>, x: T)
    requires multiset(s)[x] >= 2
    ensures exists i, j :: 0 <= i < j < |s| && s[i] == x && s[j] == x
  {
    var front, last := s[..|s| - 1], s[|s| - 1];
    assert s == front + [last];
    if last == x {
      assert x in multiset(front);
      var i :| 0 <= i < |front| && front[i] == x;
      assert s[i] == x && s[|s| - 1] == x;
    } else {
      CountRepeats(front, x);
      var i, j :| 0 <= i < j < |front| && front[i] == x && front[j] == x;
      assert s[i] == x && s[j] == x;
    }
  }

  lemma PermutedDistinct<T, K>(key: T -> K, s: seq<T>, r: seq<T>)
    requires multiset(r) == multiset(s) && Distinct(key, s)
    ensures Distinct(key, r)
  {
    forall i, j | 0 <= i < j < |r|
      ensures key(r[i]) != key(r[j])
    {
      assert r[i] in multiset(r) && r[j] in multiset(r);
      var k :| 0 <= k < |s| && s[k] == r[i];
      var l :| 0 <= l < |s| && s[l] == r[j];
      if r[i] == r[j] {
        RepeatCounts(r, i, j);
        CountRepeats(s, r[i]);
        assert false;
      }
      assert key(s[k]) != key(s[l]) by { assert k < l || l < k; }
    }
  }

  /** Sorting what has no two equal keys leaves every element strictly after the ones before. */
  lemma SortStrict<T, K(!new)>(lt: (K, K) -> bool, key: T -> K, s: seq<T>)
    requires StrictTotal(lt) && Distinct(key, s)
    ensures StrictlySorted(lt, key, Sort(lt, key, s))
  {
    SortSorted(lt, key, s);
    PermutedDistinct(key, s, Sort(lt, key, s));
  }
}
