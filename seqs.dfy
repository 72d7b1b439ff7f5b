/**
 * Generic sequence facts used by the dictionary-building loops of the
 * extractor and the normalizer: a Python `dict` that is filled in a loop
 * keeps its keys in first-insertion order, which is `Distinct` of the keys
 * seen, and counts per key are `Count`.
 */
module Seqs {

  /** Number of occurrences of `x` in `xs`. */
  function Count<T(==)>(xs: seq<T>, x: T): (n: nat)
    ensures n <= |xs|
    ensures n == 0 <==> x !in xs
    decreases |xs|
  {
    if xs == [] then 0
    else
      var init := xs[..|xs| - 1];
      assert xs == init + [xs[|xs| - 1]];
      Count(init, x) + (if xs[|xs| - 1] == x then 1 else 0)
  }

  predicate NoDup<T(==)>(xs: seq<T>) {
    forall i, j :: 0 <= i < j < |xs| ==> xs[i] != xs[j]
  }

  /** The elements of `xs` without repetitions, in order of first occurrence. */
  function Distinct<T(==,!new)>(xs: seq<T>): (r: seq<T>)
    ensures forall x :: x in r <==> x in xs
    ensures NoDup(r)
    ensures |r| <= |xs|
    decreases |xs|
  {
    if xs == [] then []
    else
      var init := xs[..|xs| - 1];
      var x := xs[|xs| - 1];
      assert xs == init + [x];
      var d := Distinct(init);
      if x in d then d else d + [x]
  }

  /** The index of the first occurrence of `x` in `xs`. */
  function IndexOf<T(==)>(xs: seq<T>, x: T): (i: nat)
    requires x in xs
    ensures i < |xs| && xs[i] == x
    ensures forall j :: 0 <= j < i ==> xs[j] != x
    decreases |xs|
  {
    if xs[0] == x then 0 else 1 + IndexOf(xs[1..], x)
  }

  lemma IndexOfPrefix<T>(xs: seq<T>, y: T, x: T)
    requires x in xs
    ensures IndexOf(xs + [y], x) == IndexOf(xs, x)
  {
    var i := IndexOf(xs, x);
    assert (xs + [y])[i] == x;
  }

  /** `Distinct` lists the elements in the order in which they first occur. */
  lemma {:induction false} DistinctFirstOccurrence<T(!new)>(xs: seq<T>, i: int, j: int)
    requires 0 <= i < j < |Distinct(xs)|
    ensures IndexOf(xs, Distinct(xs)[i]) < IndexOf(xs, Distinct(xs)[j])
    decreases |xs|
  {
    var init := xs[..|xs| - 1];
    var x := xs[|xs| - 1];
    assert xs == init + [x];
    var d := Distinct(init);
    var a, b := Distinct(xs)[i], Distinct(xs)[j];
    if j < |d| {
      assert a == d[i] && b == d[j];
      DistinctFirstOccurrence(init, i, j);
      IndexOfPrefix(init, x, a);
      IndexOfPrefix(init, x, b);
    } else {
      assert x !in d && b == x && a == d[i];
      assert x !in init;
      IndexOfPrefix(init, x, a);
      assert IndexOf(xs, b) == |init|;
    }
  }

  /** Appending one element to a sequence that has already been deduplicated. */
  lemma DistinctSnoc<T(!new)>(xs: seq<T>, x: T)
    ensures Distinct(xs + [x]) == if x in xs then Distinct(xs) else Distinct(xs) + [x]
  {
    assert (xs + [x])[..|xs|] == xs;
  }

  lemma CountSnoc<T>(xs: seq<T>, x: T, y: T)
    ensures Count(xs + [x], y) == Count(xs, y) + (if x == y then 1 else 0)
  {
    assert (xs + [x])[..|xs|] == xs;
  }

  /** The total of `Count(xs, k)` over the keys `ks`. */
  function SumCounts<T(==)>(ks: seq<T>, xs: seq<T>): nat
    decreases |ks|
  {
    if ks == [] then 0 else SumCounts(ks[..|ks| - 1], xs) + Count(xs, ks[|ks| - 1])
  }

  lemma {:induction false} SumCountsSnoc<T>(ks: seq<T>, xs: seq<T>, x: T)
    ensures SumCounts(ks, xs + [x]) == SumCounts(ks, xs) + Count(ks, x)
    decreases |ks|
  {
    if ks != [] {
      SumCountsSnoc(ks[..|ks| - 1], xs, x);
      CountSnoc(xs, x, ks[|ks| - 1]);
    }
  }

  lemma SumCountsAppend<T>(ks: seq<T>, k: T, xs: seq<T>)
    ensures SumCounts(ks + [k], xs) == SumCounts(ks, xs) + Count(xs, k)
  {
    assert (ks + [k])[..|ks|] == ks;
  }

  /** Every element is counted once under the key it belongs to. */
  lemma {:induction false} SumCountsDistinct<T(!new)>(xs: seq<T>)
    ensures SumCounts(Distinct(xs), xs) == |xs|
    decreases |xs|
  {
    if xs != [] {
      var init := xs[..|xs| - 1];
      var x := xs[|xs| - 1];
      assert xs == init + [x];
      var d := Distinct(init);
      SumCountsDistinct(init);
      SumCountsSnoc(d, init, x);
      DistinctSnoc(init, x);
      if x in d {
        assert Count(d, x) == 1 by { CountNoDup(d, x); }
      } else {
        assert Count(d, x) == 0;
        SumCountsAppend(d, x, xs);
        CountSnoc(init, x, x);
        assert Count(init, x) == 0;
      }
    }
  }

  /** In a sequence without repetitions an element occurs at most once. */
  lemma {:induction false} CountNoDup<T>(xs: seq<T>, x: T)
    requires NoDup(xs) && x in xs
    ensures Count(xs, x) == 1
    decreases |xs|
  {
    var init := xs[..|xs| - 1];
    assert xs == init + [xs[|xs| - 1]];
    if xs[|xs| - 1] == x {
      assert x !in init by {
        forall j | 0 <= j < |init| ensures init[j] != x { assert init[j] == xs[j]; }
      }
    } else {
      assert x in init;
      assert NoDup(init) by {
        forall i, j | 0 <= i < j < |init| ensures init[i] != init[j] { assert init[i] == xs[i] && init[j] == xs[j]; }
      }
      CountNoDup(init, x);
    }
  }

  /** A non-empty prefix is the shorter prefix and one more element. */
  lemma TakeSnoc<T>(s: seq<T>, n: int)
    requires 0 < n <= |s|
    ensures s[..n] == s[..n - 1] + [s[n - 1]]
  {
  }

  /** Extending `a + s[..j]` by the next element of `s`. */
  lemma AppendTakeSnoc<T>(a: seq<T>, s: seq<T>, j: int)
    requires 0 <= j < |s|
    ensures a + s[..j + 1] == (a + s[..j]) + [s[j]]
  {
    assert s[..j + 1] == s[..j] + [s[j]];
  }

  lemma AppendNil<T>(a: seq<T>)
    ensures a + [] == a
  {
  }

  /** Dropping the last element of `a + b` drops it from `b`. */
  lemma AppendInit<T>(a: seq<T>, b: seq<T>)
    requires b != []
    ensures (a + b)[..|a + b| - 1] == a + b[..|b| - 1]
    ensures (a + b)[|a + b| - 1] == b[|b| - 1]
  {
  }
}
