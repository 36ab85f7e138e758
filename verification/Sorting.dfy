/** The stable sort every component relies on, and what a permutation preserves. */
module Sorting {
  import opened Sums

  ghost predicate TotalPreorder<T(!new)>(le: (T, T) -> bool) {
    && (forall x, y :: le(x, y) || le(y, x))
    && (forall x, y, z :: le(x, y) && le(y, z) ==> le(x, z))
  }

  ghost predicate SortedBy<T>(le: (T, T) -> bool, xs: seq<T>) {
    forall i, j :: 0 <= i < j < |xs| ==> le(xs[i], xs[j])
  }

  ghost predicate Permutes<T>(xs: seq<T>, ys: seq<T>) {
    multiset(xs) == multiset(ys)
  }

  /** Insert before the first element that is not smaller, so that equal keys keep their order. */
  function Insert<T(!new)>(le: (T, T) -> bool, x: T, xs: seq<T>): (r: seq<T>)
    ensures multiset(r) == multiset{x} + multiset(xs)
    ensures TotalPreorder(le) && SortedBy(le, xs) ==> SortedBy(le, r)
  {
    if xs == [] then [x]
    else if le(x, xs[0]) then
      assert [x] + xs == [x] + xs[..0] + xs;
      [x] + xs
    else
      assert xs == [xs[0]] + xs[1..];
      var rest := Insert(le, x, xs[1..]);
      InsertElems(x, xs[1..], rest);
      [xs[0]] + rest
  }

  lemma InsertElems<T>(x: T, xs: seq<T>, r: seq<T>)
    requires multiset(r) == multiset{x} + multiset(xs)
    ensures |r| == |xs| + 1
    ensures forall i :: 0 <= i < |r| ==> r[i] == x || r[i] in xs
  {
    assert |multiset(r)| == |multiset(xs)| + 1;
    forall i | 0 <= i < |r|
      ensures r[i] == x || r[i] in xs
    {
      assert r[i] in multiset(r);
    }
  }

  /** Stable insertion sort: a sorted permutation of its argument. */
  function Sort<T(!new)>(le: (T, T) -> bool, xs: seq<T>): (r: seq<T>)
    ensures Permutes(xs, r)
    ensures TotalPreorder(le) ==> SortedBy(le, r)
  {
    if xs == [] then []
    else
      assert xs == [xs[0]] + xs[1..];
      Insert(le, xs[0], Sort(le, xs[1..]))
  }

  lemma PermutesElems<T>(xs: seq<T>, ys: seq<T>)
    requires Permutes(xs, ys)
    ensures |xs| == |ys| && Elems(xs) == Elems(ys)
    ensures forall x :: x in xs <==> x in ys
  {
    assert |multiset(xs)| == |multiset(ys)|;
    forall x
      ensures x in xs <==> x in ys
    {
      assert x in xs <==> x in multiset(xs);
      assert x in ys <==> x in multiset(ys);
    }
  }

  lemma {:induction false} DistinctCounts<T>(xs: seq<T>)
    ensures Distinct(xs) <==> forall x :: multiset(xs)[x] <= 1
  {
    if xs != [] {
      var n := |xs| - 1;
      assert xs == xs[..n] + [xs[n]];
      DistinctCounts(xs[..n]);
      if Distinct(xs) {
        assert xs[n] !in multiset(xs[..n]);
      } else if Distinct(xs[..n]) {
        var i :| 0 <= i < n && xs[i] == xs[n];
        assert xs[..n][i] in multiset(xs[..n]);
        assert multiset(xs)[xs[n]] >= 2;
      } else {
        var x :| multiset(xs[..n])[x] > 1;
        assert multiset(xs)[x] > 1;
      }
    }
  }

  lemma PermutesDistinct<T>(xs: seq<T>, ys: seq<T>)
    requires Permutes(xs, ys) && Distinct(xs)
    ensures Distinct(ys)
  {
    DistinctCounts(xs);
    DistinctCounts(ys);
  }

  /** Drop the first occurrence. */
  function Remove<T(==)>(xs: seq<T>, x: T): seq<T> {
    if xs == [] then []
    else if xs[0] == x then xs[1..]
    else [xs[0]] + Remove(xs[1..], x)
  }

  lemma {:induction false} RemoveSubset<T>(xs: seq<T>, x: T)
    ensures forall y :: y in Remove(xs, x) ==> y in xs
  {
    if xs != [] && xs[0] != x {
      RemoveSubset(xs[1..], x);
    }
  }

  lemma {:induction false} RemoveElems<T>(xs: seq<T>, x: T)
    requires x in xs
    ensures multiset(Remove(xs, x)) == multiset(xs) - multiset{x} && |Remove(xs, x)| == |xs| - 1
  {
    assert xs == [xs[0]] + xs[1..];
    if xs[0] != x {
      RemoveElems(xs[1..], x);
    }
  }
}
