/** Finite sums over maps, and the exchange argument behind "take the largest first". */
module Sums {

  /** The sum of the values of an integer map. */
  ghost function Sum<K>(m: map<K, int>): int
    decreases |m|
  {
    if m == map[] then 0
    else
      var k :| k in m;
      m[k] + Sum(m - {k})
  }

  /** The sum of the values of a real map. */
  ghost function SumR<K>(m: map<K, real>): real
    decreases |m|
  {
    if m == map[] then 0.0
    else
      var k :| k in m;
      m[k] + SumR(m - {k})
  }

  ghost function Restrict<K, V>(m: map<K, V>, s: set<K>): map<K, V> {
    map k | k in m && k in s :: m[k]
  }

  lemma {:induction false} SumTake<K>(m: map<K, int>, k: K)
    requires k in m
    ensures Sum(m) == m[k] + Sum(m - {k})
    decreases |m|
  {
    var p :| p in m && Sum(m) == m[p] + Sum(m - {p});
    if p != k {
      SumTake(m - {p}, k);
      SumTake(m - {k}, p);
      assert m - {p} - {k} == m - {k} - {p};
    }
  }

  lemma SumPut<K>(m: map<K, int>, k: K, v: int)
    requires k !in m
    ensures Sum(m[k := v]) == Sum(m) + v
  {
    SumTake(m[k := v], k);
    assert m[k := v] - {k} == m;
  }

  lemma {:induction false} SumTakeR<K>(m: map<K, real>, k: K)
    requires k in m
    ensures SumR(m) == m[k] + SumR(m - {k})
    decreases |m|
  {
    var p :| p in m && SumR(m) == m[p] + SumR(m - {p});
    if p != k {
      SumTakeR(m - {p}, k);
      SumTakeR(m - {k}, p);
      assert m - {p} - {k} == m - {k} - {p};
    }
  }

  lemma SumEmptyR<K>(m: map<K, real>)
    requires m == map[]
    ensures SumR(m) == 0.0
  {
  }

  lemma SumPutR<K>(m: map<K, real>, k: K, v: real)
    requires k !in m
    ensures SumR(m[k := v]) == SumR(m) + v
  {
    SumTakeR(m[k := v], k);
    assert m[k := v] - {k} == m;
  }

  lemma {:induction false} SumNonneg<K>(m: map<K, int>)
    requires forall k :: k in m ==> m[k] >= 0
    ensures Sum(m) >= 0
    decreases |m|
  {
    if m != map[] {
      var k :| k in m;
      SumTake(m, k);
      SumNonneg(m - {k});
    }
  }

  lemma {:induction false} SumNonnegR<K>(m: map<K, real>)
    requires forall k :: k in m ==> m[k] >= 0.0
    ensures SumR(m) >= 0.0
    decreases |m|
  {
    if m != map[] {
      var k :| k in m;
      SumTakeR(m, k);
      SumNonnegR(m - {k});
    }
  }

  lemma SumZeroR<K>(m: map<K, real>)
    requires forall k :: k in m ==> m[k] == 0.0
    ensures SumR(m) == 0.0
    decreases |m|
  {
    if m != map[] {
      var k :| k in m;
      SumTakeR(m, k);
      SumZeroR(m - {k});
    }
  }

  lemma {:induction false} SumSplit<K>(m: map<K, int>, s: set<K>)
    requires s <= m.Keys
    ensures Sum(m) == Sum(Restrict(m, s)) + Sum(m - s)
    decreases s
  {
    if s == {} {
      assert m - s == m;
      assert Restrict(m, s) == map[];
    } else {
      var k :| k in s;
      SumSplit(m, s - {k});
      SumTake(Restrict(m, s), k);
      SumTake(m - (s - {k}), k);
      assert Restrict(m, s) - {k} == Restrict(m, s - {k});
      assert m - (s - {k}) - {k} == m - s;
    }
  }

  lemma {:induction false} SubsetCard<K>(a: set<K>, b: set<K>)
    requires a <= b
    ensures |a| <= |b|
    decreases a
  {
    if a != {} {
      var x :| x in a;
      SubsetCard(a - {x}, b - {x});
    }
  }

  lemma SubsetSameCard<K>(a: set<K>, b: set<K>)
    requires a <= b && |a| >= |b|
    ensures a == b
  {
    if !(b <= a) {
      var x :| x in b && x !in a;
      SubsetCard(a, b - {x});
    }
  }

  ghost predicate Outranks<K>(f: map<K, int>, top: set<K>) {
    forall x, y :: x in f && x !in top && y in f && y in top ==> f[x] <= f[y]
  }

  /** If everything outside `top` is worth no more than anything inside it, then no set of at
      most |top| elements is worth more than `top`. */
  lemma {:induction false} TopSetIsBest<K>(f: map<K, int>, top: set<K>, other: set<K>)
    requires top <= f.Keys && other <= f.Keys
    requires forall k :: k in f ==> f[k] >= 0
    requires Outranks(f, top)
    requires |other| <= |top|
    ensures Sum(Restrict(f, other)) <= Sum(Restrict(f, top))
    decreases other - top
  {
    if other <= top {
      SumSubset(f, other, top);
    } else {
      var x :| x in other && x !in top;
      if top <= other {
        SubsetSameCard(top, other);
        assert false;
      } else {
        var y :| y in top && y !in other;
        ExchangeOne(f, other, x, y);
        var swapped := other - {x} + {y};
        assert |swapped| == |other|;
        assert swapped - top < other - top by {
          assert x in other - top && x !in swapped - top;
          assert swapped - top <= other - top;
        }
        TopSetIsBest(f, top, swapped);
      }
    }
  }

  lemma SumSubset<K>(f: map<K, int>, a: set<K>, b: set<K>)
    requires a <= b <= f.Keys
    requires forall k :: k in f ==> f[k] >= 0
    ensures Sum(Restrict(f, a)) <= Sum(Restrict(f, b))
  {
    SumSplit(Restrict(f, b), a);
    assert Restrict(Restrict(f, b), a) == Restrict(f, a);
    SumNonneg(Restrict(f, b) - a);
  }

  lemma ExchangeOne<K>(f: map<K, int>, s: set<K>, x: K, y: K)
    requires s <= f.Keys && x in s && y in f && y !in s
    ensures Sum(Restrict(f, s - {x} + {y})) == Sum(Restrict(f, s)) - f[x] + f[y]
  {
    SumTake(Restrict(f, s), x);
    SumTake(Restrict(f, s - {x} + {y}), y);
    assert Restrict(f, s) - {x} == Restrict(f, s - {x} + {y}) - {y};
  }

  /** The set of the elements of a duplicate-free sequence has its length. */
  ghost predicate Distinct<T>(s: seq<T>) {
    forall i, j :: 0 <= i < j < |s| ==> s[i] != s[j]
  }

  ghost function Elems<T>(s: seq<T>): set<T> {
    set x | x in s
  }

  lemma {:induction false} DistinctCard<T>(s: seq<T>)
    requires Distinct(s)
    ensures |Elems(s)| == |s|
  {
    if s != [] {
      var n := |s| - 1;
      DistinctCard(s[..n]);
      assert Elems(s) == Elems(s[..n]) + {s[n]} by {
        assert s == s[..n] + [s[n]];
      }
    }
  }

  lemma SumRestrictAdd<K>(m: map<K, int>, s: set<K>, k: K)
    requires k in m && k !in s
    ensures Sum(Restrict(m, s + {k})) == Sum(Restrict(m, s)) + m[k]
  {
    SumTake(Restrict(m, s + {k}), k);
    assert Restrict(m, s + {k}) - {k} == Restrict(m, s);
  }
}
