/** The replay buffers of the learner: a ring of transitions, and its prioritised form. */
module Replay {
  import opened Arithmetic
  import opened SumTrees
  import Sums

  datatype Transition = Transition(obs: seq<real>, act: nat, rew: real, nextObs: seq<real>, done: bool,
                                   gamma: real, mask: seq<bool>, nextMask: seq<bool>)

  const BLANK := Transition([], 0, 0.0, [], false, 0.0, [], [])

  // ----- The ring -----

  /** The slots hold the latest additions, as many as there is room for: the k-th one ever made is
      at k modulo the capacity. */
  ghost predicate RingHolds<T>(slots: seq<T>, idx: nat, size: nat, history: seq<T>) {
    && slots != [] && idx == |history| % |slots|
    && size == (if |history| < |slots| then |history| else |slots|)
    && forall k: nat :: |history| - size <= k < |history| ==> slots[k % |slots|] == history[k]
  }

  ghost function Latest<T>(history: seq<T>, n: nat): seq<T> {
    if |history| < n then history else history[|history| - n..]
  }

  lemma ModApart(a: nat, b: nat, n: nat)
    requires a < b < a + n
    ensures a % n != b % n
  {
    var d := b / n - a / n;
    assert b - a == n * d + (b % n - a % n);
    SmallMultipleIsZero(n, d);
  }

  lemma ModNext(h: nat, n: nat)
    requires n > 0
    ensures (h % n + 1) % n == (h + 1) % n
  {
    var q, r := h / n, h % n;
    assert h + 1 == n * q + (r + 1);
    if r + 1 < n {
      ModUnique(h + 1, n, q, r + 1);
    } else {
      assert n * (q + 1) == n * q + n;
      ModUnique(h + 1, n, q + 1, 0);
      ModUnique(n, n, 1, 0);
    }
  }

  lemma RingAdd<T>(slots: seq<T>, idx: nat, size: nat, history: seq<T>, t: T)
    requires RingHolds(slots, idx, size, history) && idx < |slots|
    ensures RingHolds(slots[idx := t], (idx + 1) % |slots|,
                      if size + 1 < |slots| then size + 1 else |slots|, history + [t])
  {
    var n, h := |slots|, |history|;
    var size' := if size + 1 < n then size + 1 else n;
    ModNext(h, n);
    forall k: nat | h + 1 - size' <= k < h + 1
      ensures slots[idx := t][k % n] == (history + [t])[k]
    {
      if k < h {
        ModApart(k, h, n);
      }
    }
  }

  /** Whatever a filled slot holds is one of the latest additions. */
  lemma SlotIsRecent<T>(slots: seq<T>, idx: nat, size: nat, history: seq<T>, d: nat)
    requires RingHolds(slots, idx, size, history) && d < size
    ensures slots[d] in Latest(history, |slots|)
  {
    var n, h := |slots|, |history|;
    if h < n {
      ModUnique(d, n, 0, d);
      assert slots[d] == history[d];
    } else {
      var k := WindowIndex(h, n, d);
      assert slots[k % n] == history[k];
      assert history[k] == Latest(history, n)[k - (h - n)];
    }
  }

  lemma WindowIndex(h: nat, n: nat, d: nat) returns (k: nat)
    requires d < n <= h
    ensures h - n <= k < h && k % n == d
  {
    var q, r := h / n, h % n;
    assert h == n * q + r;
    assert q >= 1;
    assert n * (q - 1) == n * q - n;
    if d < r {
      k := n * q + d;
      ModUnique(k, n, q, d);
    } else {
      k := n * (q - 1) + d;
      ModUnique(k, n, q - 1, d);
    }
  }

  class ReplayBuffer {
    const capacity: nat
    const slots: array<Transition>
    var size: nat
    var idx: nat
    ghost var history: seq<Transition>

    ghost predicate Valid()
      reads this, slots
    {
      slots.Length == capacity && RingHolds(slots[..], idx, size, history) && idx < capacity
    }

    constructor (capacity: nat)
      requires capacity >= 1
      ensures Valid() && this.capacity == capacity && history == [] && fresh(slots)
    {
      this.capacity := capacity;
      slots := new Transition[capacity](_ => BLANK);
      size, idx, history := 0, 0, [];
      new;
      ModUnique(0, capacity, 0, 0);
    }

    method Add(t: Transition)
      requires Valid()
      modifies this, slots
      ensures Valid() && history == old(history) + [t]
    {
      RingAdd(slots[..], idx, size, history, t);
      slots[idx] := t;
      idx := (idx + 1) % capacity;
      size := if size + 1 < capacity then size + 1 else capacity;
      history := history + [t];
    }

    /** Every drawn transition is among the latest `capacity` additions. */
    method Sample(draws: seq<nat>) returns (picked: seq<Transition>)
      requires Valid() && forall i :: 0 <= i < |draws| ==> draws[i] < size
      ensures |picked| == |draws|
      ensures forall i :: 0 <= i < |picked| ==> picked[i] == slots[draws[i]] && picked[i] in Latest(history, capacity)
    {
      picked := [];
      for i := 0 to |draws|
        invariant |picked| == i
        invariant forall k :: 0 <= k < i ==> picked[k] == slots[draws[k]] && picked[k] in Latest(history, capacity)
      {
        SlotIsRecent(slots[..], idx, size, history, draws[i]);
        picked := picked + [slots[draws[i]]];
      }
    }
  }

  // ----- Stratified sampling -----

  /** Where stratum i begins. */
  function Cut(seg: real, i: nat): real {
    seg * i as real
  }

  /** A length measured in strata. */
  function Units(a: real, seg: real): real
    requires seg > 0.0
  {
    a / seg
  }

  ghost predicate Stratified(draws: seq<real>, seg: real) {
    forall i: nat :: i < |draws| ==> Cut(seg, i) <= draws[i] < Cut(seg, i + 1)
  }

  ghost function Hits(indices: seq<nat>, d: nat): set<nat> {
    set i: nat | i < |indices| && indices[i] == d
  }

  function Ceil(x: real): int {
    -(-x).Floor
  }

  ghost function Span(lo: nat, hi: int): (r: set<nat>)
    ensures forall i: nat :: i in r <==> lo <= i < hi
    ensures |r| == if lo < hi then hi - lo else 0
    decreases hi - lo
  {
    if lo < hi then Span(lo, hi - 1) + {hi - 1} else {}
  }

  lemma UnitsCompare(a: real, seg: real, i: nat)
    requires seg > 0.0
    ensures a < Cut(seg, i) <==> Units(a, seg) < i as real
    ensures Cut(seg, i) < a <==> i as real < Units(a, seg)
  {
    var q, x := a / seg, i as real;
    assert a == q * seg;
    if q < x {
      assert (x - q) * seg > 0.0;
    } else if q > x {
      assert (q - x) * seg > 0.0;
    }
  }

  /** How often a slot that owns the draws in (a, a + p] can be hit by one draw per stratum, in
      units of a stratum: it owns (q, q + y]. */
  lemma CountBetween(n: nat, q: real, y: real, hits: set<nat>)
    requires 0.0 <= q && 0.0 <= y && q + y <= n as real
    requires forall i: nat :: i < n && q < i as real && (i + 1) as real <= q + y ==> i in hits
    requires forall i: nat :: i in hits ==>
      i < n && ((q < (i + 1) as real && i as real <= q + y) || (i == 0 && q + y == n as real))
    ensures y.Floor - 1 <= |hits| <= Ceil(y) + 1
  {
    var a, b := q.Floor, (q + y).Floor;
    Sums.SubsetCard(Span(a + 1, b), hits);
    if hits <= Span(a, b + 1) {
      Sums.SubsetCard(hits, Span(a, b + 1));
    } else {
      assert hits <= Span(a, b) + {0};
      Sums.SubsetCard(hits, Span(a, b) + {0});
    }
  }

  /** With n draws, a slot holding a share s/n of the total is hit at least floor(s) - 1 and at most
      ceil(s) + 1 times. */
  ghost predicate FairShares(leaf: seq<real>, size: nat, indices: seq<nat>) {
    && size <= |leaf| && indices != [] && Total(leaf) > 0.0
    && forall d: nat :: d < size ==> FairShare(Units(leaf[d], SegmentOf(leaf, |indices|)), |Hits(indices, d)|)
  }

  /** The width of a stratum when n draws share the total. */
  function SegmentOf(leaf: seq<real>, n: nat): (seg: real)
    requires n > 0
    ensures Total(leaf) > 0.0 ==> seg > 0.0
  {
    Total(leaf) / n as real
  }

  ghost predicate FairShare(share: real, hits: nat) {
    share.Floor - 1 <= hits <= Ceil(share) + 1
  }

  // ----- Prioritised replay -----

  ghost predicate PositivePower(power: real -> real) {
    forall x :: x > 0.0 ==> power(x) > 0.0
  }

  class PrioritizedReplay {
    const capacity: nat
    const power: real -> real
    const tree: SumTree
    const slots: array<Transition>
    var size: nat
    var idx: nat
    ghost var history: seq<Transition>

    ghost predicate Valid()
      reads this, slots, tree, tree.tree
    {
      && slots.Length == capacity && RingHolds(slots[..], idx, size, history) && idx < capacity && size <= capacity
      && tree.Valid() && tree.capacity == capacity && PositivePower(power)
      && Filled(tree.Priorities(), size)
    }

    constructor (capacity: nat, power: real -> real)
      requires capacity >= 1 && PositivePower(power)
      ensures Valid() && this.capacity == capacity && this.power == power && history == []
      ensures fresh(slots) && fresh(tree) && fresh(tree.tree)
    {
      this.capacity, this.power := capacity, power;
      slots := new Transition[capacity](_ => BLANK);
      tree := new SumTree(capacity);
      size, idx, history := 0, 0, [];
      new;
      ModUnique(0, capacity, 0, 0);
    }

    /** The new transition displaces the oldest one and enters with the power of the largest
        priority in the tree. */
    method Add(t: Transition)
      requires Valid()
      modifies this, slots, tree.tree
      ensures Valid() && history == old(history) + [t]
      ensures exists m :: m > 0.0 && tree.Priorities() == old(tree.Priorities())[old(idx) := power(m)]
                && ((exists d :: 0 <= d < capacity && old(tree.Priorities())[d] > 0.0) ==> m in old(tree.Priorities()))
    {
      RingAdd(slots[..], idx, size, history, t);
      RingIndex(slots[..], idx, size, history);
      var i := idx;
      slots[i] := t;
      var m := tree.MaxPriority();
      tree.Update(i, power(m));
      idx := (i + 1) % capacity;
      size := if size + 1 < capacity then size + 1 else capacity;
      history := history + [t];
    }

    /** One draw per stratum. Every transition drawn is a recent one with a positive priority, and
        each slot is drawn about as often as its share of the total priority says. */
    method Sample(n: nat, draws: seq<real>) returns (indices: seq<nat>, priorities: seq<real>, picked: seq<Transition>)
      requires Valid() && size > 0 && n > 0 && |draws| == n
      requires Stratified(draws, SegmentOf(tree.Priorities(), n))
      ensures |indices| == |priorities| == |picked| == n
      ensures forall i :: 0 <= i < n ==>
                indices[i] < size && picked[i] == slots[indices[i]] && picked[i] in Latest(history, capacity)
      ensures forall i :: 0 <= i < n ==> priorities[i] == tree.Priorities()[indices[i]] && priorities[i] > 0.0
      ensures FairShares(tree.Priorities(), size, indices)
    {
      hide RingHolds, Chosen, Filled, Total, Slot, Owns, FairShares, Hits, Stratified, PositivePower, Latest;
      ghost var leaf := tree.Priorities();
      var total := tree.Root();
      TotalPositive(leaf, size);
      indices, priorities, picked := [], [], [];
      for i := 0 to n
        invariant |indices| == |priorities| == |picked| == i
        invariant forall k :: 0 <= k < i ==>
          indices[k] < size && picked[k] == slots[indices[k]] && picked[k] in Latest(history, capacity)
        invariant forall k :: 0 <= k < i ==> priorities[k] == leaf[indices[k]] && priorities[k] > 0.0
        invariant forall k :: 0 <= k < i ==> Chosen(leaf, size, draws[k], indices[k])
      {
        StratumInRange(leaf, draws, i);
        var d := tree.SampleOne(draws[i]);
        ghost var hit := d;
        d := if d < size - 1 then d else size - 1;
        ClampChooses(leaf, size, draws[i], hit, d);
        SlotIsRecent(slots[..], idx, size, history, d);
        assert tree.tree[d + tree.capacity] == leaf[d];
        indices, priorities, picked := indices + [d], priorities + [tree.tree[d + tree.capacity]], picked + [slots[d]];
      }
      SharesOfAll(leaf, size, draws, indices);
    }

    /** New priorities for drawn slots. */
    method UpdatePriorities(indices: seq<nat>, errors: seq<real>)
      requires Valid() && |indices| == |errors|
      requires forall i :: 0 <= i < |indices| ==> indices[i] < size && errors[i] > 0.0
      modifies tree.tree
      ensures Valid()
      ensures forall d :: 0 <= d < capacity ==>
                tree.Priorities()[d] == LastWrite(old(tree.Priorities())[d], indices, errors, power, d)
    {
      for i := 0 to |indices|
        invariant Valid()
        invariant forall d :: 0 <= d < capacity ==>
          tree.Priorities()[d] == LastWrite(old(tree.Priorities())[d], indices[..i], errors[..i], power, d)
      {
        assert indices[..i + 1][..i] == indices[..i] && errors[..i + 1][..i] == errors[..i];
        tree.Update(indices[i], power(errors[i]));
      }
      assert indices[..|indices|] == indices && errors[..|errors|] == errors;
    }
  }

  function LastWrite(before: real, indices: seq<nat>, errors: seq<real>, power: real -> real, d: int): real
    requires |indices| == |errors|
  {
    if indices == [] then before
    else if indices[|indices| - 1] == d then power(errors[|errors| - 1])
    else LastWrite(before, indices[..|indices| - 1], errors[..|errors| - 1], power, d)
  }

  /** Exactly the filled slots have a positive priority, the others have none. */
  ghost predicate Filled(leaf: seq<real>, size: nat) {
    forall d :: 0 <= d < |leaf| ==> if d < size then leaf[d] > 0.0 else leaf[d] == 0.0
  }

  lemma RingIndex<T>(slots: seq<T>, idx: nat, size: nat, history: seq<T>)
    requires RingHolds(slots, idx, size, history)
    ensures idx == size || size == |slots|
  {
    if |history| < |slots| {
      ModUnique(|history|, |slots|, 0, |history|);
    }
  }

  lemma TotalPositive(leaf: seq<real>, size: nat)
    requires Filled(leaf, size) && 0 < size <= |leaf|
    ensures Total(leaf) > 0.0
  {
    PrefixesUp(leaf, size, PositionOf(|leaf|, 0));
  }

  function PositionOf(cap: nat, d: nat): (p: nat)
    requires d < cap
    ensures p < cap && Slot(cap, p) == d
  {
    var first := 2 * Top(cap) - cap;
    if d >= first then d - first else cap - first + d
  }

  /** The draw v ends up at slot d: its owner, or for a zero draw the first slot, cut off at the
      last filled one. */
  ghost predicate Chosen(leaf: seq<real>, size: nat, v: real, d: nat) {
    && 0 < size <= |leaf| && d < size
    && if v > 0.0 then forall p: nat :: p < |leaf| ==> (Slot(|leaf|, p) == d <==> Owns(leaf, p, v))
       else v == 0.0 && d == (if Slot(|leaf|, 0) < size then Slot(|leaf|, 0) else size - 1)
  }

  lemma ClampChooses(leaf: seq<real>, size: nat, v: real, hit: nat, d: nat)
    requires Filled(leaf, size) && 0 < size <= |leaf| && hit < |leaf| && 0.0 <= v <= Total(leaf)
    requires 0.0 < v ==> forall p: nat :: p < |leaf| ==> (Slot(|leaf|, p) == hit <==> Owns(leaf, p, v))
    requires v == 0.0 ==> hit == Slot(|leaf|, 0)
    requires leaf[hit] > 0.0 <==> v > 0.0 || leaf[Slot(|leaf|, 0)] > 0.0
    requires d == if hit < size - 1 then hit else size - 1
    ensures Chosen(leaf, size, v, d) && d < size && leaf[d] > 0.0
  {
    hide Slot, Owns, Total;
  }

  lemma CutsUp(seg: real, i: nat, n: nat)
    requires seg > 0.0 && i <= n
    ensures 0.0 <= Cut(seg, i) <= Cut(seg, n)
  {
    assert seg * (n as real - i as real) >= 0.0;
  }

  lemma LastCut(leaf: seq<real>, n: nat)
    requires n > 0
    ensures Cut(SegmentOf(leaf, n), n) == Total(leaf)
  {
    hide Total;
  }

  lemma StratumInRange(leaf: seq<real>, draws: seq<real>, i: nat)
    requires Total(leaf) > 0.0 && i < |draws| && Stratified(draws, SegmentOf(leaf, |draws|))
    ensures 0.0 <= draws[i] <= Total(leaf)
  {
    hide Total, Cut;
    CutsUp(SegmentOf(leaf, |draws|), i, i + 1);
    CutsUp(SegmentOf(leaf, |draws|), i + 1, |draws|);
    LastCut(leaf, |draws|);
  }

  /** Past the last filled slot nothing is left to own, if the tree starts at an unfilled one. */
  lemma {:induction false} NothingAfter(leaf: seq<real>, size: nat, p: nat)
    requires Filled(leaf, size) && 0 < size <= |leaf| && Slot(|leaf|, 0) >= size
    requires PositionOf(|leaf|, size - 1) < p <= |leaf|
    ensures Prefix(leaf, p) == Total(leaf)
    decreases |leaf| - p
  {
    hide Prefix, Total, Top;
    if p == |leaf| {
      PrefixEnds(leaf);
    } else {
      NothingAfter(leaf, size, p + 1);
      PrefixNext(leaf, p);
    }
  }

  /** A stratum inside (a, b] can only be hit there, and only a stratum that meets (a, b] can be. */
  lemma StratumMeets(a: real, b: real, seg: real, i: nat, v: real)
    requires seg > 0.0 && Cut(seg, i) <= v < Cut(seg, i + 1)
    ensures Units(a, seg) < i as real && (i + 1) as real <= Units(b, seg) ==> a < v <= b
    ensures a < v <= b ==> Units(a, seg) < (i + 1) as real && i as real <= Units(b, seg)
  {
    hide Cut, Units;
    UnitsCompare(a, seg, i);
    UnitsCompare(a, seg, i + 1);
    UnitsCompare(b, seg, i);
    UnitsCompare(b, seg, i + 1);
  }

  lemma FirstStratum(seg: real, i: nat, v: real)
    requires seg > 0.0 && Cut(seg, i) <= v
    ensures v >= 0.0 && (v == 0.0 ==> i == 0)
  {
    if i >= 1 {
      assert seg * i as real >= seg * 1.0;
    }
  }

  lemma UnitsNonneg(b: real, seg: real)
    requires seg > 0.0 && b >= 0.0
    ensures 0.0 <= Units(b, seg) && Units(0.0, seg) == 0.0
  {
  }

  lemma HitInStratum(leaf: seq<real>, size: nat, draws: seq<real>, seg: real, indices: seq<nat>, d: nat, i: nat)
    requires Filled(leaf, size) && 0 < size <= |leaf| && d < size && seg > 0.0 && |indices| == |draws| && i < |draws|
    requires Stratified(draws, seg) && Chosen(leaf, size, draws[i], indices[i])
    ensures var p := PositionOf(|leaf|, d); var q, r := Units(Prefix(leaf, p), seg), Units(Prefix(leaf, p + 1), seg);
      && (q < i as real && (i + 1) as real <= r ==> indices[i] == d)
      && (indices[i] == d ==> (q < (i + 1) as real && i as real <= r) || (i == 0 && r == Units(Total(leaf), seg)))
  {
    hide Prefix, Total, Slot, Filled, PositionOf, Cut, Units;
    var p := PositionOf(|leaf|, d);
    var a, b, v := Prefix(leaf, p), Prefix(leaf, p + 1), draws[i];
    PrefixesUp(leaf, size, p);
    StratumMeets(a, b, seg, i, v);
    FirstStratum(seg, i, v);
    UnitsNonneg(b, seg);
    if v == 0.0 && indices[i] == d && Slot(|leaf|, 0) >= size {
      NothingAfter(leaf, size, p + 1);
    } else if v == 0.0 && indices[i] == d {
      SlotOnce(|leaf|, 0, p);
    }
  }

  lemma PrefixesUp(leaf: seq<real>, size: nat, p: nat)
    requires Filled(leaf, size) && p < |leaf|
    ensures 0.0 == Prefix(leaf, 0) <= Prefix(leaf, p) <= Prefix(leaf, p + 1) <= Total(leaf)
    ensures Prefix(leaf, p + 1) == Prefix(leaf, p) + leaf[Slot(|leaf|, p)]
  {
    hide Prefix, Total, Slot;
    PrefixEnds(leaf);
    PrefixNext(leaf, p);
    PrefixMono(leaf, 0, p);
    PrefixMono(leaf, p, p + 1);
    PrefixMono(leaf, p + 1, |leaf|);
  }

  lemma SlotOnce(cap: nat, p: nat, q: nat)
    requires p < cap && q < cap && Slot(cap, p) == Slot(cap, q)
    ensures p == q
  {
  }

  lemma SharesOfHits(leaf: seq<real>, size: nat, draws: seq<real>, indices: seq<nat>, d: nat)
    requires Filled(leaf, size) && 0 < size <= |leaf| && d < size && |indices| == |draws| > 0 && Total(leaf) > 0.0
    requires Stratified(draws, SegmentOf(leaf, |draws|))
    requires forall i :: 0 <= i < |draws| ==> Chosen(leaf, size, draws[i], indices[i])
    ensures FairShare(Units(leaf[d], SegmentOf(leaf, |draws|)), |Hits(indices, d)|)
  {
    hide Prefix, Total, Slot, Chosen, Stratified, SegmentOf, Units, Filled, PositionOf;
    var n := |draws|;
    var seg := SegmentOf(leaf, n);
    var p := PositionOf(|leaf|, d);
    var q, r := Units(Prefix(leaf, p), seg), Units(Prefix(leaf, p + 1), seg);
    PrefixesUp(leaf, size, p);
    UnitsOf(leaf, n, Prefix(leaf, p), leaf[d]);
    forall i: nat | i < n
      ensures q < i as real && (i + 1) as real <= r ==> indices[i] == d
      ensures indices[i] == d ==> (q < (i + 1) as real && i as real <= r) || (i == 0 && r == n as real)
    {
      HitInStratum(leaf, size, draws, seg, indices, d, i);
    }
    CountBetween(n, q, Units(leaf[d], seg), Hits(indices, d));
  }

  lemma SharesOfAll(leaf: seq<real>, size: nat, draws: seq<real>, indices: seq<nat>)
    requires Filled(leaf, size) && 0 < size <= |leaf| && |indices| == |draws| > 0 && Total(leaf) > 0.0
    requires Stratified(draws, SegmentOf(leaf, |draws|))
    requires forall i :: 0 <= i < |draws| ==> Chosen(leaf, size, draws[i], indices[i])
    ensures FairShares(leaf, size, indices)
  {
    hide Total, Chosen, Stratified, Ceil, Hits, Filled;
    forall d: nat | d < size
      ensures FairShare(Units(leaf[d], SegmentOf(leaf, |indices|)), |Hits(indices, d)|)
    {
      SharesOfHits(leaf, size, draws, indices, d);
    }
  }

  lemma UnitsOf(leaf: seq<real>, n: nat, a: real, p: real)
    requires Total(leaf) > 0.0 && n > 0 && 0.0 <= a && 0.0 <= p && a + p <= Total(leaf)
    ensures var seg := SegmentOf(leaf, n);
      && seg > 0.0 && 0.0 <= Units(a, seg) && 0.0 <= Units(p, seg)
      && Units(a, seg) + Units(p, seg) == Units(a + p, seg) <= n as real == Units(Total(leaf), seg)
  {
    hide Total;
    var total, seg := Total(leaf), SegmentOf(leaf, n);
    assert seg * n as real == total;
    assert (a / seg + p / seg) * seg == a + p;
    UnitsCompare(a + p, seg, n);
    UnitsCompare(total, seg, n);
  }
}
