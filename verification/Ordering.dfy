/** Orders and sorting shared by the request listing, the trace report and canonical JSON. */
module Ordering {

  /** Code-point lexicographic order, as Go and Python compare strings. */
  predicate LexLess(a: seq<int>, b: seq<int>) {
    b != [] && (a == [] || a[0] < b[0] || (a[0] == b[0] && LexLess(a[1..], b[1..])))
  }

  lemma {:induction false} LexLessTotal(a: seq<int>, b: seq<int>)
    ensures a == b || LexLess(a, b) || LexLess(b, a)
  {
    if a != [] && b != [] && a[0] == b[0] {
      LexLessTotal(a[1..], b[1..]);
      assert a == [a[0]] + a[1..] && b == [b[0]] + b[1..];
    }
  }

  lemma {:induction false} LexLessIrreflexive(a: seq<int>)
    ensures !LexLess(a, a)
  {
    if a != [] {
      LexLessIrreflexive(a[1..]);
    }
  }

  lemma {:induction false} LexLessTransitive(a: seq<int>, b: seq<int>, c: seq<int>)
    requires LexLess(a, b) && LexLess(b, c)
    ensures LexLess(a, c)
  {
    if a != [] && a[0] == b[0] && b[0] == c[0] {
      LexLessTransitive(a[1..], b[1..], c[1..]);
    }
  }

  function Codes(s: string): (r: seq<int>)
    ensures |r| == |s|
    ensures forall i :: 0 <= i < |s| ==> r[i] == s[i] as int
  {
    seq(|s|, i requires 0 <= i < |s| => s[i] as int)
  }

  predicate StringLess(a: string, b: string) {
    LexLess(Codes(a), Codes(b))
  }

  lemma CodesInjective(a: string, b: string)
    requires Codes(a) == Codes(b)
    ensures a == b
  {
  }

  ghost predicate StrictOrder<T(!new)>(less: (T, T) -> bool) {
    && (forall x :: !less(x, x))
    && (forall x, y, z :: less(x, y) && less(y, z) ==> less(x, z))
  }

  /** A strict order whose ties are transitive, the requirement of every library sort. */
  ghost predicate WeakOrder<T(!new)>(less: (T, T) -> bool) {
    && StrictOrder(less)
    && (forall x, y, z :: !less(y, x) && !less(z, y) ==> !less(z, x))
  }

  /** No two different elements of `s` tie. */
  ghost predicate Decides<T>(less: (T, T) -> bool, s: seq<T>) {
    forall x, y :: x in s && y in s ==> x == y || less(x, y) || less(y, x)
  }

  ghost predicate StrictlySorted<T>(less: (T, T) -> bool, s: seq<T>) {
    forall i, j :: 0 <= i < j < |s| ==> less(s[i], s[j])
  }

  /** No element is placed after one that it precedes. */
  ghost predicate Sorted<T>(less: (T, T) -> bool, s: seq<T>) {
    forall i, j :: 0 <= i < j < |s| ==> !less(s[j], s[i])
  }

  ghost predicate Distinct<T>(s: seq<T>) {
    forall i, j :: 0 <= i < j < |s| ==> s[i] != s[j]
  }

  lemma StringLessIsStrictOrder()
    ensures StrictOrder(StringLess) && WeakOrder(StringLess)
    ensures forall a, b :: a == b || StringLess(a, b) || StringLess(b, a)
  {
    forall a: string
      ensures !StringLess(a, a)
    {
      LexLessIrreflexive(Codes(a));
    }
    forall a: string, b: string, c: string | StringLess(a, b) && StringLess(b, c)
      ensures StringLess(a, c)
    {
      LexLessTransitive(Codes(a), Codes(b), Codes(c));
    }
    forall a: string, b: string
      ensures a == b || StringLess(a, b) || StringLess(b, a)
    {
      LexLessTotal(Codes(a), Codes(b));
      if Codes(a) == Codes(b) {
        CodesInjective(a, b);
      }
    }
  }

  function Insert<T>(less: (T, T) -> bool, x: T, s: seq<T>): (r: seq<T>)
    ensures multiset(r) == multiset{x} + multiset(s)
  {
    if s == [] then [x]
    else if less(s[0], x) then
      assert s == [s[0]] + s[1..];
      [s[0]] + Insert(less, x, s[1..])
    else [x] + s
  }

  /** A reference sort for the library sorts of Go and Python. */
  function Sort<T>(less: (T, T) -> bool, s: seq<T>): (r: seq<T>)
    ensures multiset(r) == multiset(s)
  {
    if s == [] then []
    else
      assert s == [s[0]] + s[1..];
      Insert(less, s[0], Sort(less, s[1..]))
  }

  lemma SameMultiset<T>(a: seq<T>, b: seq<T>)
    requires multiset(a) == multiset(b)
    ensures |a| == |b|
    ensures forall x :: x in a <==> x in b
  {
    assert |multiset(a)| == |a| && |multiset(b)| == |b|;
    forall x
      ensures x in a <==> x in b
    {
      assert x in a <==> x in multiset(a);
      assert x in b <==> x in multiset(b);
    }
  }

  lemma {:induction false} InsertSorted<T(!new)>(less: (T, T) -> bool, x: T, s: seq<T>)
    requires WeakOrder(less) && Sorted(less, s)
    ensures Sorted(less, Insert(less, x, s))
  {
    if s != [] && less(s[0], x) {
      var t := Insert(less, x, s[1..]);
      InsertSorted(less, x, s[1..]);
      SameMultiset(t, [x] + s[1..]);
      forall j | 0 <= j < |t|
        ensures !less(t[j], s[0])
      {
        assert t[j] in [x] + s[1..];
        if t[j] != x {
          var k :| 0 <= k < |s[1..]| && s[1..][k] == t[j];
          assert !less(s[k + 1], s[0]);
        }
      }
    } else if s != [] {
      forall j | 0 <= j < |s|
        ensures !less(s[j], x)
      {
        assert !less(s[j], s[0]);
      }
    }
  }

  /** Sorting by a strict weak order yields a sorted permutation. */
  lemma {:induction false} SortSorted<T(!new)>(less: (T, T) -> bool, s: seq<T>)
    requires WeakOrder(less)
    ensures Sorted(less, Sort(less, s))
  {
    if s != [] {
      SortSorted(less, s[1..]);
      InsertSorted(less, s[0], Sort(less, s[1..]));
    }
  }

  lemma DistinctFromMultiset<T>(a: seq<T>, b: seq<T>)
    requires multiset(a) == multiset(b) && Distinct(a)
    ensures Distinct(b)
  {
    forall i, j | 0 <= i < j < |b|
      ensures b[i] != b[j]
    {
      if b[i] == b[j] {
        var x := b[i];
        assert b == b[..i] + [x] + b[i + 1..j] + [x] + b[j + 1..];
        assert multiset(b)[x] >= 2;
        DistinctCount(a, x);
      }
    }
  }

  lemma {:induction false} DistinctCount<T>(a: seq<T>, x: T)
    requires Distinct(a)
    ensures multiset(a)[x] <= 1
  {
    if a != [] {
      DistinctCount(a[1..], x);
      assert a == [a[0]] + a[1..];
      if a[0] == x {
        assert x !in a[1..];
      }
    }
  }

  /** Sorting distinct elements that never tie leaves exactly one possible result. */
  lemma SortStrictlySorted<T(!new)>(less: (T, T) -> bool, s: seq<T>)
    requires WeakOrder(less) && Distinct(s) && Decides(less, s)
    ensures StrictlySorted(less, Sort(less, s))
    ensures forall x :: x in Sort(less, s) <==> x in s
    ensures |Sort(less, s)| == |s|
  {
    var r := Sort(less, s);
    SortSorted(less, s);
    SameMultiset(r, s);
    DistinctFromMultiset(s, r);
    forall i, j | 0 <= i < j < |r|
      ensures less(r[i], r[j])
    {
      assert r[i] in s && r[j] in s;
    }
  }

  /** A strictly sorted sequence is determined by the set of its elements. */
  lemma {:induction false} StrictlySortedUnique<T(!new)>(less: (T, T) -> bool, a: seq<T>, b: seq<T>)
    requires StrictOrder(less)
    requires StrictlySorted(less, a) && StrictlySorted(less, b)
    requires forall x :: x in a <==> x in b
    ensures a == b
  {
    assert |a| > 0 ==> a[0] in b;
    assert |b| > 0 ==> b[0] in a;
    if a != [] {
      assert a[0] == b[0];
      forall x
        ensures x in a[1..] <==> x in b[1..]
      {
        if x in a[1..] {
          assert x in a && less(a[0], x);
        }
        if x in b[1..] {
          assert x in b && less(b[0], x);
        }
      }
      StrictlySortedUnique(less, a[1..], b[1..]);
      assert a == [a[0]] + a[1..] && b == [b[0]] + b[1..];
    }
  }

  lemma {:induction false} ElementCount<T>(s: seq<T>)
    requires Distinct(s)
    ensures |set x | x in s| == |s|
  {
    if s != [] {
      ElementCount(s[1..]);
      assert (set x | x in s) == {s[0]} + (set x | x in s[1..]);
    }
  }

  /** `out` lists the first elements of `pool`, in order, cut at a positive limit. */
  ghost predicate IsCut<T>(less: (T, T) -> bool, pool: set<T>, limit: int, out: seq<T>) {
    && StrictlySorted(less, out)
    && (limit > 0 ==> |out| <= limit)
    && (forall x :: x in out ==> x in pool)
    && (forall x :: x in pool && x !in out ==> 0 < limit == |out| && forall y :: y in out ==> less(y, x))
  }

  lemma CutsNest<T(!new)>(less: (T, T) -> bool, pool: set<T>, limit: int, a: seq<T>, b: seq<T>)
    requires StrictOrder(less) && IsCut(less, pool, limit, a) && IsCut(less, pool, limit, b)
    ensures (forall x :: x in a ==> x in b) || (|a| <= |b| && forall y :: y in b ==> y in a)
  {
  }

  lemma NestedSame<T>(a: seq<T>, b: seq<T>)
    requires Distinct(a) && Distinct(b) && |a| <= |b|
    requires forall y :: y in b ==> y in a
    ensures forall x :: x in a ==> x in b
  {
    var inA, inB := set x | x in a, set x | x in b;
    ElementCount(a);
    ElementCount(b);
    assert inB <= inA;
    assert |inA - inB| == |inA| - |inB|;
    forall x | x in a
      ensures x in b
    {
      assert x in inA && x !in inA - inB;
    }
  }

  lemma CutInclusion<T(!new)>(less: (T, T) -> bool, pool: set<T>, limit: int, a: seq<T>, b: seq<T>)
    requires StrictOrder(less) && IsCut(less, pool, limit, a) && IsCut(less, pool, limit, b)
    ensures forall x :: x in a ==> x in b
  {
    CutsNest(less, pool, limit, a, b);
    if !(forall x :: x in a ==> x in b) {
      NestedSame(a, b);
    }
  }

  /** There is at most one cut, however the pool is enumerated. */
  lemma CutUnique<T(!new)>(less: (T, T) -> bool, pool: set<T>, limit: int, a: seq<T>, b: seq<T>)
    requires StrictOrder(less) && IsCut(less, pool, limit, a) && IsCut(less, pool, limit, b)
    ensures a == b
  {
    CutInclusion(less, pool, limit, a, b);
    CutInclusion(less, pool, limit, b, a);
    StrictlySortedUnique(less, a, b);
  }

  /** A cut holds min(limit, |pool|) elements, and the whole pool without a positive limit. */
  lemma CutLength<T(!new)>(less: (T, T) -> bool, pool: set<T>, limit: int, out: seq<T>)
    requires StrictOrder(less) && IsCut(less, pool, limit, out)
    ensures |out| == if 0 < limit < |pool| then limit else |pool|
  {
    var shown := set x | x in out;
    ElementCount(out);
    assert shown <= pool;
    assert |pool - shown| == |pool| - |shown|;
    if x :| x in pool && x !in out {
      assert x in pool - shown;
    } else {
      assert pool == shown;
    }
  }

  /** Sorting the pool and truncating it yields the cut. */
  lemma SortedPrefixIsCut<T(!new)>(less: (T, T) -> bool, pool: set<T>, limit: int, listed: seq<T>)
    requires WeakOrder(less) && Distinct(listed) && Decides(less, listed)
    requires forall x :: x in listed <==> x in pool
    ensures
      var sorted := Sort(less, listed);
      IsCut(less, pool, limit, if 0 < limit < |sorted| then sorted[..limit] else sorted)
  {
    SortStrictlySorted(less, listed);
    var sorted := Sort(less, listed);
    if 0 < limit < |sorted| {
      var out := sorted[..limit];
      forall k | 0 <= k < limit
        ensures sorted[k] in out
      {
        assert out[k] == sorted[k];
      }
      forall x | x in pool && x !in out
        ensures forall y :: y in out ==> less(y, x)
      {
        assert x in sorted;
        var k :| 0 <= k < |sorted| && sorted[k] == x;
      }
    }
  }
}
