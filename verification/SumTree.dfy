/** The array-backed sum tree behind prioritised replay, for every capacity, a power of two or not. */
module SumTrees {

  // ----- The shape of the tree -----

  /** Slots under node i, left to right; nodes at or beyond `cap` are the leaves. */
  function Leaves(cap: nat, i: nat): (r: seq<nat>)
    requires 1 <= i < 2 * cap
    ensures r != [] && forall k :: 0 <= k < |r| ==> r[k] < cap
    decreases 2 * cap - i
  {
    if i >= cap then [i - cap] else Leaves(cap, 2 * i) + Leaves(cap, 2 * i + 1)
  }

  /** The largest power of two that is at most cap. */
  function Top(cap: nat): (p: nat)
    requires cap >= 1
    ensures p <= cap < 2 * p
  {
    if cap == 1 then 1 else 2 * Top(cap / 2)
  }

  /** The slot at position p, left to right: a rotation of the slot numbers. */
  function Slot(cap: nat, p: nat): (d: nat)
    requires p < cap
    ensures d < cap
  {
    var first := 2 * Top(cap) - cap;
    if first + p < cap then first + p else first + p - cap
  }

  function Order(cap: nat): (r: seq<nat>)
    requires cap >= 1
    ensures |r| == cap && forall p :: 0 <= p < cap ==> r[p] < cap
  {
    seq(cap, p requires 0 <= p < cap => Slot(cap, p))
  }

  function Pow(t: nat): (m: nat)
    ensures m >= 1
  {
    if t == 0 then 1 else 2 * Pow(t - 1)
  }

  lemma {:induction false} TopIsPow(cap: nat) returns (t: nat)
    requires cap >= 1
    ensures Top(cap) == Pow(t)
  {
    if cap == 1 {
      t := 0;
    } else {
      var u := TopIsPow(cap / 2);
      t := u + 1;
    }
  }

  /** The leaves below the nodes lo..hi of the last full level. */
  function Level(cap: nat, lo: nat, hi: nat): seq<nat>
    requires 1 <= lo <= hi <= 2 * cap
    decreases hi - lo
  {
    if lo == hi then [] else Leaves(cap, lo) + Level(cap, lo + 1, hi)
  }

  lemma {:induction false} LevelSplit(cap: nat, lo: nat, mid: nat, hi: nat)
    requires 1 <= lo <= mid <= hi <= 2 * cap
    ensures Level(cap, lo, hi) == Level(cap, lo, mid) + Level(cap, mid, hi)
    decreases mid - lo
  {
    if lo < mid {
      LevelSplit(cap, lo + 1, mid, hi);
    }
  }

  lemma Halves(i: nat, h: nat)
    ensures (2 * i) * h == i * (2 * h) && (2 * i + 2) * h == (i + 1) * (2 * h)
    ensures (2 * i) * h <= (2 * i + 1) * h <= (2 * i + 2) * h
  {
    assert (2 * i + 1) * h == (2 * i) * h + h;
    assert (2 * i + 2) * h == (2 * i + 1) * h + h;
  }

  lemma BelowTop(i: nat, m: nat, top: nat)
    requires 2 <= m && (i + 1) * m <= 2 * top
    ensures i < top
  {
    assert i >= top ==> (i + 1) * m >= (top + 1) * 2;
  }

  /** The leaves under a node are the leaves under its descendants on the last full level. */
  lemma {:induction false} LeavesAreLevel(cap: nat, i: nat, t: nat)
    requires cap >= 1 && i >= 1 && i < 2 * cap
    requires 1 <= i * Pow(t) <= (i + 1) * Pow(t) <= 2 * cap && (i + 1) * Pow(t) <= 2 * Top(cap)
    ensures Leaves(cap, i) == Level(cap, i * Pow(t), (i + 1) * Pow(t))
    decreases t
  {
    if t == 0 {
      assert Level(cap, i + 1, i + 1) == [];
    } else {
      var h := Pow(t - 1);
      Halves(i, h);
      BelowTop(i, Pow(t), Top(cap));
      LeavesAreLevel(cap, 2 * i, t - 1);
      LeavesAreLevel(cap, 2 * i + 1, t - 1);
      LevelSplit(cap, i * Pow(t), (2 * i + 1) * h, (i + 1) * Pow(t));
    }
  }

  /** Nodes beyond cap are single slots in increasing order ... */
  lemma {:induction false} LevelOfLeaves(cap: nat, lo: nat, hi: nat)
    requires 1 <= cap <= lo <= hi <= 2 * cap
    ensures Level(cap, lo, hi) == seq(hi - lo, p requires 0 <= p < hi - lo => lo - cap + p)
    decreases hi - lo
  {
    if lo < hi {
      LevelOfLeaves(cap, lo + 1, hi);
    }
  }

  /** ... and nodes before it on the last full level are pairs of slots in increasing order. */
  lemma {:induction false} LevelOfPairs(cap: nat, lo: nat, hi: nat)
    requires 1 <= lo <= hi <= cap <= 2 * lo
    ensures Level(cap, lo, hi) == seq(2 * (hi - lo), p requires 0 <= p < 2 * (hi - lo) => 2 * lo - cap + p)
    decreases hi - lo
  {
    if lo < hi {
      LevelOfPairs(cap, lo + 1, hi);
      assert Leaves(cap, lo) == [2 * lo - cap, 2 * lo + 1 - cap];
    }
  }

  /** Left to right, the tree lists the slots in rotated order. */
  lemma TreeOrder(cap: nat)
    requires cap >= 1
    ensures Leaves(cap, 1) == Order(cap)
  {
    var top := Top(cap);
    var t := TopIsPow(cap);
    LeavesAreLevel(cap, 1, t);
    LevelSplit(cap, top, cap, 2 * top);
    LevelOfPairs(cap, top, cap);
    LevelOfLeaves(cap, cap, 2 * top);
    var a, b := Level(cap, top, cap), Level(cap, cap, 2 * top);
    assert a + b == Order(cap) by {
      hide Leaves, Level, Pow, Top;
    }
  }

  // ----- Sums over slots -----

  function SumAt(leaf: seq<real>, slots: seq<nat>): real
    requires forall k :: 0 <= k < |slots| ==> slots[k] < |leaf|
  {
    if slots == [] then 0.0 else SumAt(leaf, slots[..|slots| - 1]) + leaf[slots[|slots| - 1]]
  }

  lemma {:induction false} SumAtConcat(leaf: seq<real>, a: seq<nat>, b: seq<nat>)
    requires forall k :: 0 <= k < |a| ==> a[k] < |leaf|
    requires forall k :: 0 <= k < |b| ==> b[k] < |leaf|
    ensures SumAt(leaf, a + b) == SumAt(leaf, a) + SumAt(leaf, b)
  {
    if b == [] {
      assert a + b == a;
    } else {
      var m := |b| - 1;
      assert (a + b)[..|a + b| - 1] == a + b[..m];
      SumAtConcat(leaf, a, b[..m]);
    }
  }

  lemma SumAtOne(leaf: seq<real>, d: nat)
    requires d < |leaf|
    ensures SumAt(leaf, [d]) == leaf[d]
  {
    assert [d][..0] == [];
  }

  /** The plain sum of all priorities. */
  function Total(leaf: seq<real>): real {
    if leaf == [] then 0.0 else Total(leaf[..|leaf| - 1]) + leaf[|leaf| - 1]
  }

  lemma {:induction false} SumAtRun(leaf: seq<real>, slots: seq<nat>, from: nat)
    requires from + |slots| <= |leaf| && forall k :: 0 <= k < |slots| ==> slots[k] == from + k
    ensures SumAt(leaf, slots) == Total(leaf[..from + |slots|]) - Total(leaf[..from])
  {
    if slots != [] {
      var m := |slots| - 1;
      SumAtRun(leaf, slots[..m], from);
      assert leaf[..from + |slots|][..from + m] == leaf[..from + m];
    }
  }

  /** Tree order is two runs of consecutive slots. */
  lemma OrderIsTwoRuns(cap: nat, first: nat)
    requires cap >= 1 && first == 2 * Top(cap) - cap
    ensures first <= cap && |Order(cap)| == cap
    ensures Order(cap) == Order(cap)[..cap - first] + Order(cap)[cap - first..]
    ensures var a := Order(cap)[..cap - first]; forall k :: 0 <= k < |a| ==> a[k] == first + k
    ensures var b := Order(cap)[cap - first..]; forall k :: 0 <= k < |b| ==> b[k] == k
  {
    hide Top;
  }

  /** Summing the slots in tree order is summing all priorities. */
  lemma OrderSumsAll(leaf: seq<real>)
    requires leaf != []
    ensures SumAt(leaf, Order(|leaf|)) == Total(leaf)
  {
    hide SumAt, Total, Top, Order;
    var cap := |leaf|;
    var first := 2 * Top(cap) - cap;
    OrderIsTwoRuns(cap, first);
    var a, b := Order(cap)[..cap - first], Order(cap)[cap - first..];
    SumAtConcat(leaf, a, b);
    SumAtRun(leaf, a, first);
    SumAtRun(leaf, b, 0);
    TotalEnds(leaf);
  }

  lemma TotalEnds(leaf: seq<real>)
    ensures Total(leaf[..|leaf|]) == Total(leaf) && Total(leaf[..0]) == 0.0
  {
    assert leaf[..|leaf|] == leaf;
  }

  // ----- The intervals of a draw -----

  /** Sum of the priorities of the first p slots, in tree order. */
  function Prefix(leaf: seq<real>, p: nat): real
    requires p <= |leaf| && leaf != []
  {
    SumAt(leaf, Order(|leaf|)[..p])
  }

  lemma PrefixNext(leaf: seq<real>, p: nat)
    requires p < |leaf|
    ensures Prefix(leaf, p + 1) == Prefix(leaf, p) + leaf[Slot(|leaf|, p)]
  {
    var order := Order(|leaf|);
    assert order[..p + 1][..p] == order[..p];
  }

  lemma {:induction false} PrefixMono(leaf: seq<real>, p: nat, q: nat)
    requires p <= q <= |leaf| && leaf != [] && forall d :: 0 <= d < |leaf| ==> leaf[d] >= 0.0
    ensures Prefix(leaf, p) <= Prefix(leaf, q)
    decreases q - p
  {
    if p < q {
      PrefixMono(leaf, p, q - 1);
      PrefixNext(leaf, q - 1);
    }
  }

  /** The draw v belongs to the slot at position p. */
  ghost predicate Owns(leaf: seq<real>, p: nat, v: real)
    requires p < |leaf|
  {
    Prefix(leaf, p) < v <= Prefix(leaf, p + 1)
  }

  /** The intervals tile (0, total], one per slot, each exactly as long as its slot's priority:
      every draw there has one owner, and the owner's priority is positive. */
  lemma IntervalsTile(leaf: seq<real>, v: real)
    requires leaf != [] && forall d :: 0 <= d < |leaf| ==> leaf[d] >= 0.0
    requires 0.0 < v <= Total(leaf)
    ensures exists p: nat :: p < |leaf| && Owns(leaf, p, v)
    ensures forall p: nat, q: nat :: p < |leaf| && q < |leaf| && Owns(leaf, p, v) && Owns(leaf, q, v) ==> p == q
    ensures forall p: nat :: p < |leaf| ==> Prefix(leaf, p + 1) - Prefix(leaf, p) == leaf[Slot(|leaf|, p)]
    ensures forall p: nat :: p < |leaf| && Owns(leaf, p, v) ==> leaf[Slot(|leaf|, p)] > 0.0
  {
    hide Prefix, Total, Slot;
    PrefixEnds(leaf);
    OwnerBelow(leaf, v, |leaf|);
    forall p: nat, q: nat | p < |leaf| && q < |leaf| && Owns(leaf, p, v) && Owns(leaf, q, v)
      ensures p == q
    {
      if p < q {
        PrefixMono(leaf, p + 1, q);
      } else if q < p {
        PrefixMono(leaf, q + 1, p);
      }
    }
    forall p: nat | p < |leaf|
      ensures Prefix(leaf, p + 1) - Prefix(leaf, p) == leaf[Slot(|leaf|, p)]
    {
      PrefixNext(leaf, p);
    }
  }

  lemma PrefixEnds(leaf: seq<real>)
    requires leaf != []
    ensures Prefix(leaf, 0) == 0.0 && Prefix(leaf, |leaf|) == Total(leaf)
  {
    OrderSumsAll(leaf);
    assert Order(|leaf|)[..|leaf|] == Order(|leaf|);
  }

  lemma {:induction false} OwnerBelow(leaf: seq<real>, v: real, q: nat)
    requires leaf != [] && q <= |leaf| && Prefix(leaf, 0) < v <= Prefix(leaf, q)
    ensures exists p: nat :: p < q && Owns(leaf, p, v)
  {
    if v > Prefix(leaf, q - 1) {
      assert Owns(leaf, q - 1, v);
    } else {
      OwnerBelow(leaf, v, q - 1);
    }
  }

  // ----- The tree object -----

  ghost predicate SumsAt(t: seq<real>, j: nat)
    requires 2 * j + 1 < |t|
  {
    t[j] == t[2 * j] + t[2 * j + 1]
  }

  class SumTree {
    const capacity: nat
    const tree: array<real>

    /** The priorities, by slot. */
    ghost function Priorities(): (leaf: seq<real>)
      requires tree.Length == 2 * capacity
      reads this, tree
      ensures |leaf| == capacity
    {
      tree[capacity..]
    }

    ghost predicate Valid()
      reads this, tree
    {
      && capacity >= 1 && tree.Length == 2 * capacity
      && (forall j: nat :: 1 <= j < capacity ==> SumsAt(tree[..], j))
      && (forall j :: capacity <= j < 2 * capacity ==> tree[j] >= 0.0)
    }

    constructor (capacity: nat)
      requires capacity >= 1
      ensures this.capacity == capacity && Valid() && fresh(tree)
      ensures Priorities() == seq(capacity, _ => 0.0)
    {
      this.capacity := capacity;
      tree := new real[2 * capacity](_ => 0.0);
    }

    /** Set one priority and restore every sum above it. */
    method Update(d: nat, priority: real)
      requires Valid() && d < capacity && priority >= 0.0
      modifies tree
      ensures Valid() && Priorities() == old(Priorities())[d := priority]
    {
      var idx := d + capacity;
      ghost var t := tree[..];
      tree[idx] := priority;
      WriteMovesHole(t, tree[..], 0, idx);
      while idx > 1
        invariant 1 <= idx < 2 * capacity
        invariant forall j: nat :: 1 <= j < capacity && j != idx / 2 ==> SumsAt(tree[..], j)
        invariant Priorities() == old(Priorities())[d := priority]
      {
        idx := idx / 2;
        t := tree[..];
        tree[idx] := tree[2 * idx] + tree[2 * idx + 1];
        WriteMovesHole(t, tree[..], idx, idx);
      }
    }

    lemma {:induction false} NodeSums(i: nat)
      requires Valid() && 1 <= i < 2 * capacity
      ensures tree[i] == SumAt(Priorities(), Leaves(capacity, i)) && tree[i] >= 0.0
      decreases 2 * capacity - i
    {
      hide SumAt;
      var leaf := Priorities();
      if i >= capacity {
        SumAtOne(leaf, i - capacity);
      } else {
        assert SumsAt(tree[..], i);
        NodeSums(2 * i);
        NodeSums(2 * i + 1);
        SumAtConcat(leaf, Leaves(capacity, 2 * i), Leaves(capacity, 2 * i + 1));
      }
    }

    /** The root holds the sum of all priorities. */
    method Root() returns (t: real)
      requires Valid()
      ensures t == Total(Priorities()) && t >= 0.0
    {
      t := tree[1];
      NodeSums(1);
      TreeOrder(capacity);
      OrderSumsAll(Priorities());
    }

    /** The largest priority, or 1 while there is none. */
    method MaxPriority() returns (m: real)
      requires Valid()
      ensures m > 0.0
      ensures (forall d :: 0 <= d < capacity ==> Priorities()[d] == 0.0)
           || (m in Priorities() && forall d :: 0 <= d < capacity ==> Priorities()[d] <= m)
      ensures (forall d :: 0 <= d < capacity ==> Priorities()[d] == 0.0) ==> m == 1.0
    {
      m := tree[capacity];
      ghost var at: nat := 0;
      for j := capacity to 2 * capacity
        invariant at < capacity && Priorities()[at] == m
        invariant forall d :: 0 <= d < j - capacity ==> Priorities()[d] <= m
        invariant Priorities()[0] <= m
      {
        if tree[j] > m {
          m, at := tree[j], j - capacity;
        }
      }
      if m <= 0.0 {
        m := 1.0;
      }
    }

    /** Descend to the slot that owns the draw. A draw of zero lands on the first slot of the tree
        order, whatever its priority; so the slot hit has a positive priority iff the draw is
        positive or that first slot's priority is. */
    method SampleOne(val: real) returns (d: nat)
      requires Valid()
      ensures d < capacity
      ensures 0.0 < val <= Total(Priorities()) ==>
        forall p: nat :: p < capacity ==> (Slot(capacity, p) == d <==> Owns(Priorities(), p, val))
      ensures val == 0.0 ==> d == Slot(capacity, 0)
      ensures 0.0 <= val <= Total(Priorities()) ==>
        (Priorities()[d] > 0.0 <==> val > 0.0 || Priorities()[Slot(capacity, 0)] > 0.0)
    {
      hide Total, Prefix, Slot, Placed, Leaves;
      ghost var leaf := Priorities();
      ghost var skip: nat := 0;
      var rest, idx := val, 1;
      StartDescent();
      while idx < capacity
        invariant 1 <= idx < 2 * capacity && Placed(capacity, skip, idx)
        invariant skip <= capacity && rest == val - Prefix(leaf, skip)
        invariant 0.0 < val <= Total(leaf) ==> 0.0 < rest <= tree[idx]
        invariant val == 0.0 ==> skip == 0 && rest == 0.0
        decreases 2 * capacity - idx
      {
        var left := 2 * idx;
        Descend(skip, idx);
        if rest <= tree[left] {
          idx := left;
        } else {
          rest := rest - tree[left];
          skip := skip + |Leaves(capacity, left)|;
          idx := left + 1;
        }
      }
      d := idx - capacity;
      PlacedLeaf(capacity, skip, idx);
      Landed(leaf, skip, d, val);
    }

    lemma StartDescent()
      requires Valid()
      ensures Placed(capacity, 0, 1) && Prefix(Priorities(), 0) == 0.0 && tree[1] == Total(Priorities())
    {
      NodeSums(1);
      TreeOrder(capacity);
      PrefixEnds(Priorities());
      OrderSumsAll(Priorities());
      assert Order(capacity)[0..capacity] == Order(capacity);
    }

    lemma Descend(skip: nat, idx: nat)
      requires Valid() && 1 <= idx < capacity && Placed(capacity, skip, idx)
      ensures Placed(capacity, skip, 2 * idx)
      ensures Placed(capacity, skip + |Leaves(capacity, 2 * idx)|, 2 * idx + 1)
      ensures skip + |Leaves(capacity, 2 * idx)| <= capacity
      ensures Prefix(Priorities(), skip + |Leaves(capacity, 2 * idx)|) == Prefix(Priorities(), skip) + tree[2 * idx]
      ensures tree[idx] == tree[2 * idx] + tree[2 * idx + 1] && tree[2 * idx] >= 0.0
    {
      hide Leaves, Placed, Prefix, SumAt;
      PlacedChildren(capacity, skip, idx);
      assert SumsAt(tree[..], idx);
      NodeSums(2 * idx);
      PrefixAfter(Priorities(), skip, 2 * idx);
    }
  }

  /** The slots under node i are the ones at positions skip, skip + 1, ... of the tree order. */
  ghost predicate Placed(cap: nat, skip: nat, i: nat) {
    && 1 <= i < 2 * cap && skip + |Leaves(cap, i)| <= cap
    && Order(cap)[skip..skip + |Leaves(cap, i)|] == Leaves(cap, i)
  }

  lemma PlacedChildren(cap: nat, skip: nat, i: nat)
    requires Placed(cap, skip, i) && i < cap
    ensures Placed(cap, skip, 2 * i) && Placed(cap, skip + |Leaves(cap, 2 * i)|, 2 * i + 1)
    ensures skip + |Leaves(cap, 2 * i)| <= cap
  {
    hide Order;
    var l, r := Leaves(cap, 2 * i), Leaves(cap, 2 * i + 1);
    assert Leaves(cap, i) == l + r && skip + |l| + |r| == skip + |Leaves(cap, i)|;
    TakeSplit(Order(cap), skip, Leaves(cap, 2 * i), Leaves(cap, 2 * i + 1));
  }

  lemma PlacedLeaf(cap: nat, skip: nat, i: nat)
    requires Placed(cap, skip, i) && i >= cap
    ensures skip < cap && Slot(cap, skip) == i - cap
  {
    hide Slot;
    assert Order(cap)[skip..skip + 1][0] == Order(cap)[skip];
  }

  lemma PrefixAfter(leaf: seq<real>, skip: nat, i: nat)
    requires Placed(|leaf|, skip, i)
    ensures Prefix(leaf, skip + |Leaves(|leaf|, i)|) == Prefix(leaf, skip) + SumAt(leaf, Leaves(|leaf|, i))
  {
    hide SumAt, Leaves;
    var order, l := Order(|leaf|), Leaves(|leaf|, i);
    assert order[..skip + |l|] == order[..skip] + l;
    SumAtConcat(leaf, order[..skip], l);
  }

  /** Writing one node can only upset the sum of its parent. */
  lemma WriteMovesHole(t: seq<real>, t': seq<real>, hole: nat, idx: nat)
    requires 1 <= idx < |t| == |t'| && t' == t[idx := t'[idx]]
    requires forall j: nat :: 1 <= j && 2 * j + 1 < |t| && j != hole ==> SumsAt(t, j)
    requires if 2 * idx + 1 < |t| then hole == idx && t'[idx] == t[2 * idx] + t[2 * idx + 1] else hole == 0
    ensures forall j: nat :: 1 <= j && 2 * j + 1 < |t'| && j != idx / 2 ==> SumsAt(t', j)
  {
    forall j: nat | 1 <= j && 2 * j + 1 < |t'| && j != idx / 2
      ensures SumsAt(t', j)
    {
      assert j != hole ==> SumsAt(t, j);
    }
  }

  lemma TakeSplit<T>(s: seq<T>, k: nat, l: seq<T>, r: seq<T>)
    requires k + |l| + |r| <= |s| && s[k..k + |l| + |r|] == l + r
    ensures s[k..k + |l|] == l && s[k + |l|..k + |l| + |r|] == r && s[..k + |l|] == s[..k] + l
  {
    var here := s[k..k + |l| + |r|];
    assert s[k..k + |l|] == here[..|l|] && s[k + |l|..k + |l| + |r|] == here[|l|..];
  }

  /** Having skipped the slots before position p and found the draw within the slot there. */
  lemma Landed(leaf: seq<real>, p: nat, d: nat, v: real)
    requires leaf != [] && p < |leaf| && d < |leaf| && Slot(|leaf|, p) == d
    requires forall e :: 0 <= e < |leaf| ==> leaf[e] >= 0.0
    requires 0.0 < v <= Total(leaf) ==> 0.0 < v - Prefix(leaf, p) <= leaf[d]
    requires v == 0.0 ==> p == 0
    ensures 0.0 < v <= Total(leaf) ==>
      leaf[d] > 0.0 && forall q: nat :: q < |leaf| ==> (Slot(|leaf|, q) == d <==> Owns(leaf, q, v))
    ensures v == 0.0 ==> d == Slot(|leaf|, 0)
  {
    hide Prefix, Total, Top;
    if 0.0 < v <= Total(leaf) {
      IntervalsTile(leaf, v);
      PrefixNext(leaf, p);
      assert Owns(leaf, p, v);
      forall q: nat | q < |leaf|
        ensures Slot(|leaf|, q) == d <==> Owns(leaf, q, v)
      {
      }
    }
  }
}
