/** The priority reorder cycle as a transaction against a queue that keeps moving: every REST call may
    fail before or after taking effect, and jobs come and go between any two calls. */
module Reorder {
  import opened Wrappers
  import opened Sums
  import Sorting
  import RankPending

  type JobId = nat

  type Queue = map<JobId, int>

  const RELEASE_PRIORITY := 0xFFFF_FFFF
  const RELEASE_BASE := 5_000_000
  const RELEASE_SPACING := 10_000
  const MAX_PENDING_JOBS := 150
  const MIN_OWNED_PRIORITY := RELEASE_BASE - (MAX_PENDING_JOBS - 1) * RELEASE_SPACING

  /** The band of priorities this daemon writes. */
  predicate Owned(priority: int) {
    MIN_OWNED_PRIORITY <= priority <= RELEASE_BASE
  }

  /** From queue p to queue q, nobody but this daemon wrote to the jobs in `ours`: every other job is as
      it was, or is new and has a priority outside the band. Ids are not used twice. */
  ghost predicate Moves(p: Queue, seen: set<JobId>, q: Queue, seen': set<JobId>, ours: set<JobId>) {
    && seen + q.Keys <= seen' && p.Keys <= seen
    && forall id :: id in q ==>
      if id in seen then id in p && (id !in ours ==> q[id] == p[id]) else !Owned(q[id]) || id in ours
  }

  lemma MovesOn(p: Queue, a: set<JobId>, q: Queue, b: set<JobId>, r: Queue, c: set<JobId>, ours: set<JobId>,
                more: set<JobId>)
    requires Moves(p, a, q, b, ours) && Moves(q, b, r, c, more)
    ensures Moves(p, a, r, c, ours + more)
  {
  }

  lemma MovesWiden(p: Queue, a: set<JobId>, q: Queue, b: set<JobId>, ours: set<JobId>, more: set<JobId>)
    requires Moves(p, a, q, b, ours) && ours <= more
    ensures Moves(p, a, q, b, more)
  {
  }

  datatype Fate = Succeeds | Raises(effect: bool)

  /** slurmrestd and the queue behind it. */
  class Slurm {
    const fate: nat -> Fate                  // what becomes of the n-th call
    const leaving: nat -> set<JobId>         // who has left by the n-th call
    const arriving: nat -> Queue             // who has arrived by the n-th call
    const recomputed: nat -> int             // the priority a released job is given
    var calls: nat
    var queue: Queue
    var seen: set<JobId>                     // ids in use so far

    ghost predicate Valid()
      reads this
    {
      queue.Keys <= seen
    }

    /** From here on every call succeeds. */
    ghost predicate Smooth()
      reads this`calls
    {
      forall k: nat :: k >= calls ==> fate(k).Succeeds?
    }

    constructor (queue: Queue, fate: nat -> Fate, leaving: nat -> set<JobId>, arriving: nat -> Queue,
                 recomputed: nat -> int)
      ensures Valid() && this.queue == queue
    {
      this.fate, this.leaving, this.arriving, this.recomputed := fate, leaving, arriving, recomputed;
      this.queue, calls, seen := queue, 0, queue.Keys;
    }

    /** Meanwhile, jobs leave and new ones arrive. */
    method Pass()
      requires Valid()
      modifies this
      ensures Valid() && Moves(old(queue), old(seen), queue, seen, {}) && calls == old(calls)
    {
      var incoming := arriving(calls);
      var stayed := queue - leaving(calls);
      queue := stayed + map id | id in incoming && id !in seen && !Owned(incoming[id]) :: incoming[id];
      seen := seen + queue.Keys;
    }

    method Read() returns (r: Option<Queue>)
      requires Valid()
      modifies this
      ensures Valid() && Moves(old(queue), old(seen), queue, seen, {})
      ensures r.Some? ==> r.value == queue
      ensures old(Smooth()) ==> Smooth() && r.Some?
    {
      Pass();
      r := if fate(calls).Succeeds? then Some(queue) else None;
      calls := calls + 1;
    }

    /** Set one priority, if the job is still there; a released job is given a new one. */
    method SetPriority(id: JobId, priority: int) returns (ok: bool)
      requires Valid() && id in seen
      modifies this
      ensures Valid() && Moves(old(queue), old(seen), queue, seen, {id})
      ensures ok && id in queue && priority != RELEASE_PRIORITY ==> queue[id] == priority
      ensures ok && id in queue && priority == RELEASE_PRIORITY ==> exists k: nat :: queue[id] == recomputed(k)
      ensures old(Smooth()) ==> Smooth() && ok
    {
      Pass();
      var f := fate(calls);
      if (f.Succeeds? || f.effect) && id in queue {
        queue := queue[id := if priority == RELEASE_PRIORITY then recomputed(calls) else priority];
      }
      ok := f.Succeeds?;
      calls := calls + 1;
    }
  }

  ghost predicate NoneOwned(q: Queue) {
    forall id :: id in q ==> !Owned(q[id])
  }

  /** Give every job in the band back to Slurm, and check that it took them. */
  method ResetOwned(slurm: Slurm) returns (ok: bool, ghost freed: set<JobId>)
    requires slurm.Valid()
    modifies slurm
    ensures slurm.Valid() && Moves(old(slurm.queue), old(slurm.seen), slurm.queue, slurm.seen, freed)
    ensures forall id :: id in freed ==> id in old(slurm.queue) && Owned(old(slurm.queue)[id])
    ensures ok ==> NoneOwned(slurm.queue)
    ensures old(slurm.Smooth()) && (forall k: nat :: !StillOurs(slurm.recomputed(k))) ==> ok
  {
    hide Slurm.Smooth;
    freed := {};
    var doc := slurm.Read();
    if doc.None? {
      return false, {};
    }
    var owned := set id | id in doc.value && Owned(doc.value[id]);
    freed := owned;
    var rest := owned;
    ghost var p, a := slurm.queue, slurm.seen;
    while rest != {}
      invariant slurm.Valid() && rest <= owned && owned <= slurm.seen
      invariant Moves(p, a, slurm.queue, slurm.seen, owned) && (old(slurm.Smooth()) ==> slurm.Smooth())
      invariant forall id :: id in owned - rest && id in slurm.queue ==>
        exists k: nat :: slurm.queue[id] == slurm.recomputed(k)
      decreases rest
    {
      var id: JobId :| id in rest;
      rest := rest - {id};
      ghost var q, b := slurm.queue, slurm.seen;
      ok := slurm.SetPriority(id, RELEASE_PRIORITY);
      MovesOn(p, a, q, b, slurm.queue, slurm.seen, owned, {id});
      assert owned + {id} == owned;
      if !ok {
        return;
      }
    }
    if owned != {} {
      ghost var q, b := slurm.queue, slurm.seen;
      doc := slurm.Read();
      MovesOn(p, a, q, b, slurm.queue, slurm.seen, owned, {});
      if doc.None? {
        return false, freed;
      }
      if exists id :: id in owned && id in doc.value && StillOurs(doc.value[id]) {
        return false, freed;
      }
    }
    return true, freed;
  }

  predicate StillOurs(priority: int) {
    priority <= 0 || priority == RELEASE_PRIORITY || Owned(priority)
  }

  ghost predicate Restored(q: Queue, original: Queue) {
    forall id :: id in original && id in q ==> q[id] == original[id]
  }

  /** Put back the priorities the ranked jobs had, and check that they stuck. */
  method RestoreCycle(slurm: Slurm, original: Queue) returns (ok: bool)
    requires slurm.Valid() && original.Keys <= slurm.seen
    modifies slurm
    ensures slurm.Valid() && Moves(old(slurm.queue), old(slurm.seen), slurm.queue, slurm.seen, original.Keys)
    ensures ok ==> Restored(slurm.queue, original)
    ensures old(slurm.Smooth()) && (forall id :: id in original ==> original[id] != RELEASE_PRIORITY) ==>
              ok && slurm.Smooth()
  {
    hide Slurm.Smooth;
    if original == map[] {
      return true;
    }
    ghost var p, a := slurm.queue, slurm.seen;
    var doc := slurm.Read();
    MovesWiden(p, a, slurm.queue, slurm.seen, {}, original.Keys);
    if doc.None? {
      return false;
    }
    var rest := original.Keys;
    while rest != {}
      invariant slurm.Valid() && rest <= original.Keys <= slurm.seen
      invariant Moves(p, a, slurm.queue, slurm.seen, original.Keys) && (old(slurm.Smooth()) ==> slurm.Smooth())
      invariant forall id :: id in rest && id in slurm.queue ==> id in doc.value && slurm.queue[id] == doc.value[id]
      invariant forall id :: id in original && id !in rest && id in slurm.queue && original[id] != RELEASE_PRIORITY ==>
        slurm.queue[id] == original[id]
      decreases rest
    {
      var id: JobId :| id in rest;
      rest := rest - {id};
      if id in doc.value && doc.value[id] != original[id] {
        ghost var q, b := slurm.queue, slurm.seen;
        ok := slurm.SetPriority(id, original[id]);
        MovesOn(p, a, q, b, slurm.queue, slurm.seen, original.Keys, {id});
        assert original.Keys + {id} == original.Keys;
        if !ok {
          return;
        }
      }
    }
    ghost var q, b := slurm.queue, slurm.seen;
    doc := slurm.Read();
    MovesOn(p, a, q, b, slurm.queue, slurm.seen, original.Keys, {});
    assert original.Keys + {} == original.Keys;
    ok := doc.Some? && !exists id :: id in original && id in doc.value && doc.value[id] != original[id];
  }

  function RankPriority(i: nat): int {
    RELEASE_BASE - i * RELEASE_SPACING
  }

  /** Every ranked job still pending has the priority of its rank. */
  ghost predicate InRankOrder(q: Queue, order: seq<JobId>) {
    forall i :: 0 <= i < |order| && order[i] in q ==> q[order[i]] == RankPriority(i)
  }

  /** The priorities of a full ranking are distinct, inside the band, and sort the jobs as ranked. */
  lemma RankOrderMeans(q: Queue, order: seq<JobId>, i: nat, j: nat)
    requires InRankOrder(q, order) && i < |order| <= MAX_PENDING_JOBS && j < |order|
    requires order[i] in q && order[j] in q
    ensures Owned(q[order[i]])
    ensures i < j <==> q[order[i]] > q[order[j]]
  {
  }

  /** Write the ranking, one call per job, and check that it stuck. */
  method WriteRanking(slurm: Slurm, order: seq<JobId>, current: Queue, late: nat -> bool) returns (ok: bool)
    requires slurm.Valid() && Elems(order) == current.Keys <= slurm.seen && Distinct(order)
    requires forall id :: id in current && id in slurm.queue ==> slurm.queue[id] == current[id]
    modifies slurm
    ensures slurm.Valid() && Moves(old(slurm.queue), old(slurm.seen), slurm.queue, slurm.seen, current.Keys)
    ensures ok ==> InRankOrder(slurm.queue, order)
    ensures old(slurm.Smooth()) && (forall i: nat :: !late(i)) ==> ok
  {
    hide Slurm.Smooth;
    ghost var p, a := slurm.queue, slurm.seen;
    for i := 0 to |order|
      invariant slurm.Valid() && current.Keys <= slurm.seen
      invariant Moves(p, a, slurm.queue, slurm.seen, current.Keys) && (old(slurm.Smooth()) ==> slurm.Smooth())
      invariant forall k :: 0 <= k < i && order[k] in slurm.queue ==> slurm.queue[order[k]] == RankPriority(k)
      invariant forall k :: i <= k < |order| && order[k] in slurm.queue ==>
        order[k] in current && slurm.queue[order[k]] == current[order[k]]
    {
      var id := order[i];
      assert id in Elems(order);
      if late(i) {
        return false;
      }
      if current[id] != RankPriority(i) {
        ghost var q, b := slurm.queue, slurm.seen;
        ok := slurm.SetPriority(id, RankPriority(i));
        MovesOn(p, a, q, b, slurm.queue, slurm.seen, current.Keys, {id});
        assert current.Keys + {id} == current.Keys;
        if !ok {
          return;
        }
      }
    }
    ghost var q, b := slurm.queue, slurm.seen;
    var doc := slurm.Read();
    MovesOn(p, a, q, b, slurm.queue, slurm.seen, current.Keys, {});
    assert current.Keys + {} == current.Keys;
    ok := doc.Some? && !exists i :: 0 <= i < |order| && order[i] in doc.value && doc.value[order[i]] != RankPriority(i);
  }

  datatype Outcome =
    | Idle                                        // nothing to rank
    | Refused                                     // given up before the first write
    | Shadowed(order: seq<JobId>)                 // ranked, not written
    | Written(order: seq<JobId>)
    | Failed(order: seq<JobId>, restored: bool, reset: bool)

  /** What is read of the queue, job by job, in whatever order: every job once. */
  type Listing = Queue -> seq<RankPending.Job>

  ghost predicate ListsAll(listing: Listing) {
    forall jobs: Queue :: ListsJobs(listing(jobs), jobs)
  }

  ghost predicate ListsJobs(pending: seq<RankPending.Job>, jobs: Queue) {
    RankPending.DistinctIds(pending) && Elems(RankPending.Ids(pending)) == jobs.Keys
  }

  /** The order is the ids of a ranking of the queue as read, in which nobody is passed by more than the window
      allows and the picks fit the nodes at the same time. */
  ghost predicate RanksQueue(order: seq<JobId>, ranked: seq<RankPending.Job>, pending: seq<RankPending.Job>,
                             nodes: seq<RankPending.Node>, post: nat -> Option<RankPending.Act>) {
    && order == RankPending.Ids(ranked) && Sorting.Permutes(pending, ranked)
    && RankPending.BoundedBypass(RankPending.OldestFirst(pending), ranked)
    && exists picks: nat, hosts ::
         && picks <= |ranked| && RankPending.Packed(nodes, FreeSlots(nodes), ranked[..picks], hosts)
         && RankPending.FollowsPolicy(post, nodes, ranked, picks, hosts)
  }

  /** Free slots by node. */
  function FreeSlots(nodes: seq<RankPending.Node>): (free: RankPending.Free)
    ensures forall n :: n in nodes ==> n.name in free
  {
    if nodes == [] then map[]
    else
      var m := |nodes| - 1;
      assert nodes == nodes[..m] + [nodes[m]];
      FreeSlots(nodes[..m])[nodes[m].name := nodes[m].freeMps]
  }

  /** Rank what was read, in strict mode. */
  method RankQueue(jobs: Queue, pending: seq<RankPending.Job>, nodes: seq<RankPending.Node>,
                   post: nat -> Option<RankPending.Act>, late: nat -> bool)
    returns (order: Option<seq<JobId>>, ghost ranked: seq<RankPending.Job>)
    requires ListsJobs(pending, jobs)
    ensures order.Some? ==> Distinct(order.value) && Elems(order.value) == jobs.Keys
    ensures order.Some? ==> RanksQueue(order.value, ranked, pending, nodes, post)
    ensures order.None? ==>
              (exists k :: late(k)) || !RankPending.WellBehaved(post, pending, FreeSlots(nodes), nodes)
  {
    hide RankPending.BoundedBypass, RankPending.Packed, RankPending.FollowsPolicy, RankPending.OldestFirst,
         RankPending.WellBehaved, RankPending.Fails, RankPending.AllChosen, Sorting.Permutes, Distinct, Elems,
         RankPending.DistinctIds, RankPending.Ids;
    var r;
    ghost var picks, hosts;
    r, ranked, picks, hosts := RankPending.Rank(pending, FreeSlots(nodes), nodes, true, post, late);
    match r
    case Err(_) =>
      order := None;
    case Ok(ids) =>
      RankedIds(jobs, pending, ranked);
      order := Some(ids);
  }

  lemma RankedIds(jobs: Queue, pending: seq<RankPending.Job>, ranked: seq<RankPending.Job>)
    requires ListsJobs(pending, jobs) && Sorting.Permutes(pending, ranked)
    ensures Distinct(RankPending.Ids(ranked)) && Elems(RankPending.Ids(ranked)) == jobs.Keys
  {
    var before, after := RankPending.Ids(pending), RankPending.Ids(ranked);
    Sorting.PermutesElems(pending, ranked);
    assert Distinct(pending);
    Sorting.PermutesDistinct(pending, ranked);
    forall i, j | 0 <= i < j < |ranked|
      ensures after[i] != after[j]
    {
      assert ranked[i] in pending && ranked[j] in pending;
      var p :| 0 <= p < |pending| && pending[p] == ranked[i];
      var q :| 0 <= q < |pending| && pending[q] == ranked[j];
      assert p != q;
    }
    forall id
      ensures id in after <==> id in before
    {
      if id in before {
        var p :| 0 <= p < |before| && before[p] == id;
        assert pending[p] in ranked;
        var q :| 0 <= q < |ranked| && ranked[q] == pending[p];
        assert after[q] == id;
      }
      if id in after {
        var q :| 0 <= q < |after| && after[q] == id;
        assert ranked[q] in pending;
        var p :| 0 <= p < |pending| && pending[p] == ranked[q];
        assert before[p] == id;
      }
    }
  }

  function Eligible(q: Queue, eligible: JobId -> bool): Queue {
    map id | id in q && eligible(id) :: q[id]
  }

  /** One cycle: read, rank, read again, write, verify; and on failure roll back and release. */
  method ReorderCycle(slurm: Slurm, maxJobs: int, eligible: JobId -> bool, listing: Listing,
                      nodes: seq<RankPending.Node>, post: nat -> Option<RankPending.Act>, rankLate: nat -> bool,
                      fit: bool, nodesMoved: bool, shadow: bool, late: nat -> bool)
    returns (r: Outcome, current: Queue, ghost ranked: seq<RankPending.Job>)
    requires slurm.Valid() && ListsAll(listing)
    modifies slurm
    ensures slurm.Valid()
    ensures r.Idle? || r.Refused? || r.Shadowed? ==>
      Moves(old(slurm.queue), old(slurm.seen), slurm.queue, slurm.seen, {})
    ensures r.Written? || r.Failed? ==>
      Distinct(r.order) && Elems(r.order) == current.Keys && 0 < |r.order| <= maxJobs <= MAX_PENDING_JOBS
    ensures forall id :: id in current && id in old(slurm.queue) ==> current[id] == old(slurm.queue)[id]
    ensures r.Written? ==> InRankOrder(slurm.queue, r.order)
    ensures r.Written? || r.Failed? || r.Shadowed? ==> RanksQueue(r.order, ranked, listing(current), nodes, post)
    ensures r.Failed? && r.reset ==> NoneOwned(slurm.queue)
    ensures r.Failed? && r.restored ==>
      forall id :: id in current && id in slurm.queue && !Owned(current[id]) ==> slurm.queue[id] == current[id]
    ensures Untouched(old(slurm.queue), slurm.queue, current.Keys)
    ensures if shadow then !r.Written? && !r.Failed? else !r.Shadowed?
    ensures old(slurm.Smooth()) && (forall i: nat :: !late(i)) ==> !r.Failed?
  {
    hide Slurm.Smooth, RanksQueue, ListsJobs, RankPending.WellBehaved;
    ghost var p, a := slurm.queue, slurm.seen;
    current, ranked := map[], [];
    if !(1 <= maxJobs <= MAX_PENDING_JOBS) {
      return Refused, current, ranked;
    }
    var doc := slurm.Read();
    if doc.None? {
      return Refused, current, ranked;
    }
    var jobs := Eligible(doc.value, eligible);
    if jobs == map[] {
      return Idle, current, ranked;
    }
    if |jobs| > maxJobs || !fit {
      return Refused, current, ranked;
    }
    var order;
    order, ranked := RankQueue(jobs, listing(jobs), nodes, post, rankLate);
    if order.None? || rankLate(|order.value|) {
      return Refused, current, ranked;
    }
    ghost var q, b := slurm.queue, slurm.seen;
    doc := slurm.Read();
    MovesOn(p, a, q, b, slurm.queue, slurm.seen, {}, {});
    if doc.None? || nodesMoved || Eligible(doc.value, eligible) != jobs {
      return Refused, current, ranked;
    }
    current := jobs;
    if shadow {
      return Shadowed(order.value), current, ranked;
    }
    DistinctCard(order.value);
    assert |order.value| == |jobs|;
    q, b := slurm.queue, slurm.seen;
    var ok := WriteRanking(slurm, order.value, current, late);
    MovesOn(p, a, q, b, slurm.queue, slurm.seen, {}, current.Keys);
    if ok {
      return Written(order.value), current, ranked;
    }
    q, b := slurm.queue, slurm.seen;
    var restored := RestoreCycle(slurm, current);
    MovesOn(p, a, q, b, slurm.queue, slurm.seen, current.Keys, current.Keys);
    q, b := slurm.queue, slurm.seen;
    var reset, freed := ResetOwned(slurm);
    OthersUntouched(p, a, q, b, slurm.queue, slurm.seen, current.Keys, freed);
    return Failed(order.value, restored, reset), current, ranked;
  }

  /** Jobs that were not ranked, and are not in the band, are left alone. */
  ghost predicate Untouched(p: Queue, q: Queue, ours: set<JobId>) {
    forall id :: id in p && id in q && id !in ours && !Owned(p[id]) ==> q[id] == p[id]
  }

  lemma OthersUntouched(p: Queue, a: set<JobId>, q: Queue, b: set<JobId>, r: Queue, c: set<JobId>,
                        ours: set<JobId>, freed: set<JobId>)
    requires Moves(p, a, q, b, ours + ours) && Moves(q, b, r, c, freed)
    requires forall id :: id in freed ==> id in q && Owned(q[id])
    ensures Untouched(p, r, ours)
  {
  }
}
