/** Rolling an untrusted policy forward against an arrival-aware drain of two nodes, to read off the order
    and the placement it would impose. */
module DrainSchedule {
  import opened Wrappers
  import opened Sums
  import opened Sorting

  const NODES := 2
  const MPS_PER_GPU := 100

  datatype Job = Job(jid: nat, mps: nat, runtime: real, arrival: real)

  /** What the policy answers, where it can be read at all. */
  datatype Act = Act(selected: Option<nat>, nodeJ: Option<int>)

  datatype Running = Running(end: real, node: nat, mps: nat)

  /** One dispatch: who, where and when. */
  datatype Dispatch = Dispatch(job: Job, node: nat, start: real)

  type Free = seq<int>

  // ----- What a node carries -----

  function Share(on: bool, mps: nat): nat {
    if on then mps else 0
  }

  function Busy(running: seq<Running>, n: nat): nat {
    if running == [] then 0
    else Busy(running[..|running| - 1], n) + Share(running[|running| - 1].node == n, running[|running| - 1].mps)
  }

  /** What of it is still running at time t. */
  function BusyAt(running: seq<Running>, n: nat, t: real): nat {
    if running == [] then 0
    else
      var r := running[|running| - 1];
      BusyAt(running[..|running| - 1], n, t) + Share(r.node == n && r.end > t, r.mps)
  }

  /** The slots a schedule uses on node n at time t. */
  function Load(plan: seq<Dispatch>, n: nat, t: real): nat {
    if plan == [] then 0
    else
      var d := plan[|plan| - 1];
      Load(plan[..|plan| - 1], n, t) + Share(d.node == n && d.start <= t < d.start + d.job.runtime, d.job.mps)
  }

  lemma {:induction false} BusyAtMost(running: seq<Running>, n: nat, t: real)
    ensures BusyAt(running, n, t) <= Busy(running, n)
  {
    if running != [] {
      BusyAtMost(running[..|running| - 1], n, t);
    }
  }

  // ----- The state of the drain -----

  /** Free and running slots make up each node, the schedule never asks more of a node than it has, and
      from now on it asks exactly for what is still running. */
  ghost predicate Balanced(free: Free, running: seq<Running>, plan: seq<Dispatch>, t: real) {
    && |free| == NODES
    && (forall n :: 0 <= n < NODES ==> 0 <= free[n] && free[n] + Busy(running, n) == MPS_PER_GPU)
    && (forall n: nat, u :: n < NODES && u >= t ==> Load(plan, n, u) == BusyAt(running, n, u))
    && (forall n: nat, u :: n < NODES ==> Load(plan, n, u) <= MPS_PER_GPU)
  }

  /** The dispatches made so far: on real nodes, one after the other, not before the job arrived, of jobs
      that can fit. */
  ghost predicate Sound(plan: seq<Dispatch>, t: real) {
    && (forall i :: 0 <= i < |plan| ==>
          plan[i].node < NODES && plan[i].job.arrival <= plan[i].start <= t && plan[i].job.mps <= MPS_PER_GPU)
    && (forall i, j :: 0 <= i < j < |plan| ==> plan[i].start <= plan[j].start)
  }

  lemma BalancedAtStart(t: real)
    ensures Balanced([MPS_PER_GPU, MPS_PER_GPU], [], [], t) && Sound([], t)
  {
  }

  lemma DispatchBalances(free: Free, running: seq<Running>, plan: seq<Dispatch>, t: real, job: Job, n: nat)
    requires Balanced(free, running, plan, t) && n < NODES && free[n] >= job.mps
    ensures Balanced(free[n := free[n] - job.mps], running + [Running(t + job.runtime, n, job.mps)],
                     plan + [Dispatch(job, n, t)], t)
  {
    var r, d := Running(t + job.runtime, n, job.mps), Dispatch(job, n, t);
    forall m: nat, u | m < NODES
      ensures u >= t ==> Load(plan + [d], m, u) == BusyAt(running + [r], m, u)
      ensures Load(plan + [d], m, u) <= MPS_PER_GPU
      ensures Busy(running + [r], m) == Busy(running, m) + Share(m == n, job.mps)
    {
      LoadNext(plan, d, m, u);
      BusyNext(running, r, m, u);
      BusyAtMost(running, m, u);
    }
  }

  lemma LoadNext(plan: seq<Dispatch>, d: Dispatch, n: nat, u: real)
    ensures Load(plan + [d], n, u) ==
              Load(plan, n, u) + Share(d.node == n && d.start <= u < d.start + d.job.runtime, d.job.mps)
  {
    assert (plan + [d])[..|plan|] == plan;
  }

  lemma TimeBalances(free: Free, running: seq<Running>, plan: seq<Dispatch>, t: real, t': real)
    requires Balanced(free, running, plan, t) && t <= t'
    ensures Balanced(free, running, plan, t')
  {
  }

  lemma BusyNext(running: seq<Running>, r: Running, n: nat, u: real)
    ensures Busy(running + [r], n) == Busy(running, n) + Share(r.node == n, r.mps)
    ensures BusyAt(running + [r], n, u) == BusyAt(running, n, u) + Share(r.node == n && r.end > u, r.mps)
  {
    assert (running + [r])[..|running|] == running;
  }

  // ----- The drain itself -----

  /** Where every job is: dispatched, waiting or yet to arrive. */
  ghost predicate Partition(arrivals: seq<Job>, ai: nat, pending: seq<Job>, plan: seq<Dispatch>) {
    && ai <= |arrivals| && multiset(arrivals[..ai]) == multiset(pending) + multiset(JobsOf(plan))
  }

  ghost function JobsOf(plan: seq<Dispatch>): (r: seq<Job>)
    ensures |r| == |plan| && forall i :: 0 <= i < |r| ==> r[i] == plan[i].job
  {
    seq(|plan|, i requires 0 <= i < |plan| => plan[i].job)
  }

  predicate ArrivalLe(a: Job, b: Job) {
    a.arrival <= b.arrival
  }

  /** Release everyone who has arrived by time t. */
  method ReleaseArrivals(arrivals: seq<Job>, ai: nat, pending: seq<Job>, t: real, ghost plan: seq<Dispatch>)
    returns (ai': nat, pending': seq<Job>)
    requires Partition(arrivals, ai, pending, plan) && forall j :: j in pending ==> j.arrival <= t
    ensures Partition(arrivals, ai', pending', plan) && forall j :: j in pending' ==> j.arrival <= t
    ensures ai' >= ai && |pending'| - |pending| == ai' - ai
    ensures ai' < |arrivals| ==> arrivals[ai'].arrival > t
  {
    ai', pending' := ai, pending;
    while ai' < |arrivals| && arrivals[ai'].arrival <= t
      invariant Partition(arrivals, ai', pending', plan) && forall j :: j in pending' ==> j.arrival <= t
      invariant ai' >= ai && |pending'| - |pending| == ai' - ai
    {
      assert arrivals[..ai' + 1] == arrivals[..ai'] + [arrivals[ai']];
      pending' := pending' + [arrivals[ai']];
      ai' := ai' + 1;
    }
  }

  predicate FitsSomewhere(free: Free, job: Job) {
    |free| == NODES && (free[0] >= job.mps || free[1] >= job.mps)
  }

  /** The policy's choice if it can be honoured, else the job waiting longest that fits, on the first node
      it fits. */
  method Pick(pending: seq<Job>, free: Free, act: Option<Act>) returns (p: Option<(Job, nat)>)
    requires |free| == NODES
    ensures p.Some? ==> p.value.0 in pending && p.value.1 < NODES && free[p.value.1] >= p.value.0.mps
    ensures p.None? ==> forall j :: j in pending ==> !FitsSomewhere(free, j)
    ensures p.Some? && Honourable(pending, free, act) ==> Chosen(act, p.value.0, p.value.1)
    ensures p.Some? && !Honourable(pending, free, act) ==> Oldest(pending, free, p.value.0, p.value.1)
  {
    hide Honourable, Chosen, Oldest;
    p := Asked(pending, free, act);
    if p.None? {
      p := LongestWaiting(pending, free);
    }
  }

  method Asked(pending: seq<Job>, free: Free, act: Option<Act>) returns (p: Option<(Job, nat)>)
    requires |free| == NODES
    ensures p.Some? <==> Honourable(pending, free, act)
    ensures p.Some? ==> p.value.0 in pending && p.value.1 < NODES && free[p.value.1] >= p.value.0.mps
    ensures p.Some? ==> Chosen(act, p.value.0, p.value.1)
  {
    if act.Some? && act.value.selected.Some? && act.value.nodeJ.Some? && 0 <= act.value.nodeJ.value < NODES {
      for i := 0 to |pending|
        invariant forall k :: 0 <= k < i ==>
          !(pending[k].jid == act.value.selected.value && free[act.value.nodeJ.value] >= pending[k].mps)
      {
        if pending[i].jid == act.value.selected.value && free[act.value.nodeJ.value] >= pending[i].mps {
          return Some((pending[i], act.value.nodeJ.value));
        }
      }
    }
    return None;
  }

  method LongestWaiting(pending: seq<Job>, free: Free) returns (p: Option<(Job, nat)>)
    requires |free| == NODES
    ensures p.Some? ==> p.value.0 in pending && p.value.1 < NODES && free[p.value.1] >= p.value.0.mps
    ensures p.Some? ==> Oldest(pending, free, p.value.0, p.value.1)
    ensures p.None? ==> forall j :: j in pending ==> !FitsSomewhere(free, j)
  {
    var sorted := Sort(ArrivalLe, pending);
    PermutesElems(pending, sorted);
    for i := 0 to |sorted|
      invariant forall k :: 0 <= k < i ==> !FitsSomewhere(free, sorted[k])
    {
      if FitsSomewhere(free, sorted[i]) {
        OldestOf(pending, sorted, free, i);
        return Some((sorted[i], if free[0] >= sorted[i].mps then 0 else 1));
      }
    }
    return None;
  }

  /** The answer names a waiting job and a node it fits. */
  ghost predicate Honourable(pending: seq<Job>, free: Free, act: Option<Act>) {
    && act.Some? && act.value.selected.Some? && act.value.nodeJ.Some? && 0 <= act.value.nodeJ.value < |free| == NODES
    && exists j :: j in pending && j.jid == act.value.selected.value && free[act.value.nodeJ.value] >= j.mps
  }

  predicate Chosen(act: Option<Act>, job: Job, n: nat) {
    act == Some(Act(Some(job.jid), Some(n)))
  }

  /** Nobody who has waited longer fits, and the job fits no earlier node. */
  ghost predicate Oldest(pending: seq<Job>, free: Free, job: Job, n: nat) {
    && (forall j :: j in pending && FitsSomewhere(free, j) ==> job.arrival <= j.arrival)
    && forall m :: 0 <= m < n && m < |free| ==> free[m] < job.mps
  }

  lemma OldestOf(pending: seq<Job>, sorted: seq<Job>, free: Free, i: nat)
    requires Permutes(pending, sorted) && SortedBy(ArrivalLe, sorted) && i < |sorted|
    requires forall k :: 0 <= k < i ==> !FitsSomewhere(free, sorted[k])
    ensures forall j :: j in pending && FitsSomewhere(free, j) ==> sorted[i].arrival <= j.arrival
  {
    PermutesElems(pending, sorted);
    forall j | j in pending && FitsSomewhere(free, j)
      ensures sorted[i].arrival <= j.arrival
    {
      var k :| 0 <= k < |sorted| && sorted[k] == j;
      assert k > i ==> ArrivalLe(sorted[i], sorted[k]);
    }
  }

  // ----- Ranks -----

  ghost predicate DistinctIds(jobs: seq<Job>) {
    forall i, j :: 0 <= i < j < |jobs| ==> jobs[i].jid != jobs[j].jid
  }

  type Ranks = map<nat, nat>

  /** The numbers below c have been given out, each once. */
  ghost predicate Numbered(rank: Ranks, c: nat) {
    && |rank| == c && (forall id :: id in rank ==> rank[id] < c)
    && (forall a, b :: a in rank && b in rank && rank[a] == rank[b] ==> a == b)
  }

  lemma NumberNext(rank: Ranks, c: nat, id: nat)
    requires Numbered(rank, c) && id !in rank
    ensures Numbered(rank[id := c], c + 1)
  {
    assert rank[id := c].Keys == rank.Keys + {id};
  }

  /** The i-th job dispatched has rank i, and its node. */
  ghost predicate Placed(rank: Ranks, nodeOf: map<nat, nat>, plan: seq<Dispatch>) {
    forall i :: 0 <= i < |plan| ==>
      var id := plan[i].job.jid;
      id in rank && rank[id] == i && id in nodeOf && nodeOf[id] == plan[i].node
  }

  /** Everyone ranked so far has been dispatched. */
  ghost predicate Ranked(rank: Ranks, nodeOf: map<nat, nat>, plan: seq<Dispatch>) {
    && Placed(rank, nodeOf, plan) && Numbered(rank, |plan|) && nodeOf.Keys == rank.Keys
    && (forall id :: id in nodeOf ==> nodeOf[id] < NODES)
    && rank.Keys == IdsOf(JobsOf(plan))
  }

  lemma RankedNext(rank: Ranks, nodeOf: map<nat, nat>, plan: seq<Dispatch>, d: Dispatch)
    requires Ranked(rank, nodeOf, plan) && d.node < NODES
    requires forall i :: 0 <= i < |plan| ==> plan[i].job.jid != d.job.jid
    ensures d.job.jid !in rank
    ensures Ranked(rank[d.job.jid := |plan|], nodeOf[d.job.jid := d.node], plan + [d])
  {
    hide JobsOf, IdsOf, Numbered, Placed;
    DispatchedIds(plan, d);
    NumberNext(rank, |plan|, d.job.jid);
    PlacedNext(rank, nodeOf, plan, d);
  }

  lemma PlacedNext(rank: Ranks, nodeOf: map<nat, nat>, plan: seq<Dispatch>, d: Dispatch)
    requires Placed(rank, nodeOf, plan) && d.job.jid !in rank
    ensures Placed(rank[d.job.jid := |plan|], nodeOf[d.job.jid := d.node], plan + [d])
  {
    var more := plan + [d];
    forall i | 0 <= i < |more|
      ensures more[i].job.jid == d.job.jid ==> i == |plan|
    {
      assert i < |plan| ==> more[i] == plan[i];
    }
  }

  lemma DispatchedIds(plan: seq<Dispatch>, d: Dispatch)
    ensures IdsOf(JobsOf(plan + [d])) == IdsOf(JobsOf(plan)) + {d.job.jid}
    ensures (forall i :: 0 <= i < |plan| ==> plan[i].job.jid != d.job.jid) ==> d.job.jid !in IdsOf(JobsOf(plan))
  {
    assert JobsOf(plan + [d]) == JobsOf(plan) + [d.job];
  }

  /** A job waiting has not been dispatched. */
  lemma PendingIsNew(arrivals: seq<Job>, ai: nat, pending: seq<Job>, plan: seq<Dispatch>, job: Job)
    requires DistinctIds(arrivals) && Partition(arrivals, ai, pending, plan) && job in pending
    ensures forall i :: 0 <= i < |plan| ==> plan[i].job.jid != job.jid
  {
    var some := arrivals[..ai];
    var done := JobsOf(plan);
    assert Distinct(some);
    DistinctCounts(some);
    assert job in multiset(pending);
    assert multiset(some)[job] == multiset(pending)[job] + multiset(done)[job];
    assert job !in multiset(done);
    forall i | 0 <= i < |plan|
      ensures plan[i].job.jid != job.jid
    {
      assert done[i] in multiset(done);
      assert plan[i].job in multiset(some) && job in multiset(some);
      SameId(arrivals, plan[i].job, job);
    }
  }

  lemma SameId(jobs: seq<Job>, a: Job, b: Job)
    requires DistinctIds(jobs) && a in jobs && b in jobs
    ensures a.jid == b.jid ==> a == b
  {
  }

  // ----- Advancing the clock -----

  /** The earliest end of a running job. */
  method NextEnd(running: seq<Running>) returns (e: Option<real>)
    ensures e.None? <==> running == []
    ensures e.Some? ==> exists i :: 0 <= i < |running| && running[i].end == e.value
    ensures e.Some? ==> forall i :: 0 <= i < |running| ==> e.value <= running[i].end
  {
    e := None;
    for i := 0 to |running|
      invariant e.None? <==> i == 0
      invariant e.Some? ==> exists k :: 0 <= k < i && running[k].end == e.value
      invariant e.Some? ==> forall k :: 0 <= k < i ==> e.value <= running[k].end
    {
      if e.None? || running[i].end < e.value {
        e := Some(running[i].end);
      }
    }
  }

  /** Give back the slots of everyone who has ended by time t. */
  method Complete(running: seq<Running>, free: Free, t: real, ghost plan: seq<Dispatch>)
    returns (still: seq<Running>, free': Free)
    requires Balanced(free, running, plan, t) && forall i :: 0 <= i < |running| ==> running[i].node < NODES
    ensures Balanced(free', still, plan, t) && |still| <= |running|
    ensures forall i :: 0 <= i < |still| ==> still[i].node < NODES && still[i] in running && still[i].end > t
    ensures (exists i :: 0 <= i < |running| && running[i].end <= t) ==> |still| < |running|
  {
    still, free' := [], free;
    for i := 0 to |running|
      invariant |still| <= i && (|still| == i ==> forall k :: 0 <= k < i ==> running[k].end > t)
      invariant forall k :: 0 <= k < |still| ==> still[k].node < NODES && still[k] in running && still[k].end > t
      invariant |free'| == NODES
      invariant forall n :: 0 <= n < NODES ==>
        free[n] <= free'[n] && free'[n] + Busy(still, n) == free[n] + Busy(running[..i], n)
      invariant forall n: nat, u :: u >= t ==> BusyAt(still, n, u) == BusyAt(running[..i], n, u)
    {
      var r := running[i];
      CompleteOne(running, still, i, t);
      if r.end <= t {
        free' := free'[r.node := free'[r.node] + r.mps];
      } else {
        still := still + [r];
      }
    }
    assert running[..|running|] == running;
  }

  lemma CompleteOne(running: seq<Running>, still: seq<Running>, i: nat, t: real)
    requires i < |running|
    ensures forall n: nat :: Busy(running[..i + 1], n) ==
              Busy(running[..i], n) + Share(running[i].node == n, running[i].mps)
    ensures forall n: nat :: Busy(still + [running[i]], n) ==
              Busy(still, n) + Share(running[i].node == n, running[i].mps)
    ensures forall n: nat, u :: BusyAt(running[..i + 1], n, u) ==
              BusyAt(running[..i], n, u) + Share(running[i].node == n && running[i].end > u, running[i].mps)
    ensures forall n: nat, u :: BusyAt(still + [running[i]], n, u) ==
              BusyAt(still, n, u) + Share(running[i].node == n && running[i].end > u, running[i].mps)
  {
    assert running[..i + 1] == running[..i] + [running[i]];
    var r := running[i];
    forall n: nat, u
      ensures Busy(running[..i] + [r], n) == Busy(running[..i], n) + Share(r.node == n, r.mps)
      ensures BusyAt(running[..i] + [r], n, u) == BusyAt(running[..i], n, u) + Share(r.node == n && r.end > u, r.mps)
      ensures Busy(still + [r], n) == Busy(still, n) + Share(r.node == n, r.mps)
      ensures BusyAt(still + [r], n, u) == BusyAt(still, n, u) + Share(r.node == n && r.end > u, r.mps)
    {
      BusyNext(running[..i], r, n, u);
      BusyNext(still, r, n, u);
    }
  }

  // ----- The whole schedule -----

  /** Between two dispatches: the books balance and everyone is accounted for. */
  ghost predicate DrainOk(arrivals: seq<Job>, ai: nat, pending: seq<Job>, free: Free, running: seq<Running>,
                          plan: seq<Dispatch>, t: real) {
    && Balanced(free, running, plan, t) && Sound(plan, t) && Partition(arrivals, ai, pending, plan)
    && (forall j :: j in pending ==> j.arrival <= t)
    && (forall i :: 0 <= i < |running| ==> running[i].node < NODES)
  }

  lemma DispatchKeeps(arrivals: seq<Job>, ai: nat, pending: seq<Job>, free: Free, running: seq<Running>,
                      plan: seq<Dispatch>, t: real, job: Job, n: nat)
    requires DrainOk(arrivals, ai, pending, free, running, plan, t) && job in pending
    requires n < NODES && |free| == NODES && free[n] >= job.mps
    ensures DrainOk(arrivals, ai, Remove(pending, job), free[n := free[n] - job.mps],
                    running + [Running(t + job.runtime, n, job.mps)], plan + [Dispatch(job, n, t)], t)
    ensures |Remove(pending, job)| == |pending| - 1 && job.mps <= MPS_PER_GPU
  {
    hide Load, Busy, BusyAt;
    DispatchBalances(free, running, plan, t, job, n);
    RemoveElems(pending, job);
    RemoveSubset(pending, job);
    assert JobsOf(plan + [Dispatch(job, n, t)]) == JobsOf(plan) + [job];
  }

  /** Dispatch until nothing more fits. */
  method DispatchAll(arrivals: seq<Job>, ai: nat, pending: seq<Job>, free: Free, running: seq<Running>,
                     rank: Ranks, nodeOf: map<nat, nat>, ghost plan: seq<Dispatch>, t: real,
                     post: nat -> Option<Act>, calls: nat)
    returns (pending': seq<Job>, free': Free, running': seq<Running>, rank': Ranks, nodeOf': map<nat, nat>,
             ghost plan': seq<Dispatch>, calls': nat)
    requires DistinctIds(arrivals)
    requires DrainOk(arrivals, ai, pending, free, running, plan, t) && Ranked(rank, nodeOf, plan)
    ensures DrainOk(arrivals, ai, pending', free', running', plan', t) && Ranked(rank', nodeOf', plan')
    ensures |pending| - |pending'| == |running'| - |running| >= 0
    ensures forall j :: j in pending' ==> !FitsSomewhere(free', j)
  {
    hide DrainOk, Ranked, DistinctIds, Partition, FitsSomewhere;
    pending', free', running', calls' := pending, free, running, calls;
    rank', nodeOf', plan' := rank, nodeOf, plan;
    FreeShape(arrivals, ai, pending, free, running, plan, t);
    RankedCount(rank, nodeOf, plan);
    while pending' != []
      invariant |free'| == NODES && DrainOk(arrivals, ai, pending', free', running', plan', t)
      invariant Ranked(rank', nodeOf', plan') && |rank'| == |plan'|
      invariant |pending| - |pending'| == |running'| - |running| >= 0
      decreases |pending'|
    {
      var pick := Pick(pending', free', post(calls'));
      calls' := calls' + 1;
      if pick.None? {
        return;
      }
      var job, n := pick.value.0, pick.value.1;
      DispatchKeeps(arrivals, ai, pending', free', running', plan', t, job, n);
      DrainParts(arrivals, ai, pending', free', running', plan', t);
      PendingIsNew(arrivals, ai, pending', plan', job);
      RankedNext(rank', nodeOf', plan', Dispatch(job, n, t));
      RankedCount(rank'[job.jid := |plan'|], nodeOf'[job.jid := n], plan' + [Dispatch(job, n, t)]);
      rank' := rank'[job.jid := |rank'|];
      nodeOf' := nodeOf'[job.jid := n];
      free' := free'[n := free'[n] - job.mps];
      running' := running' + [Running(t + job.runtime, n, job.mps)];
      plan' := plan' + [Dispatch(job, n, t)];
      pending' := Remove(pending', job);
    }
  }

  lemma RankedCount(rank: Ranks, nodeOf: map<nat, nat>, plan: seq<Dispatch>)
    requires Ranked(rank, nodeOf, plan)
    ensures |rank| == |plan|
  {
  }

  lemma DrainParts(arrivals: seq<Job>, ai: nat, pending: seq<Job>, free: Free, running: seq<Running>,
                   plan: seq<Dispatch>, t: real)
    requires DrainOk(arrivals, ai, pending, free, running, plan, t)
    ensures Partition(arrivals, ai, pending, plan)
  {
  }

  lemma FreeShape(arrivals: seq<Job>, ai: nat, pending: seq<Job>, free: Free, running: seq<Running>,
                  plan: seq<Dispatch>, t: real)
    requires DrainOk(arrivals, ai, pending, free, running, plan, t)
    ensures |free| == NODES && ai <= |arrivals|
    ensures running == [] ==> free[0] == MPS_PER_GPU && free[1] == MPS_PER_GPU
  {
  }

  /** The next event: an arrival or a completion, whichever comes first. */
  method NextEvent(arrivals: seq<Job>, ai: nat, running: seq<Running>) returns (next: Option<real>)
    requires ai <= |arrivals|
    ensures next.None? <==> ai == |arrivals| && running == []
    ensures next.Some? ==> NextBelongs(arrivals, ai, running, next.value)
  {
    var arrival := if ai < |arrivals| then Some(arrivals[ai].arrival) else None;
    var end := NextEnd(running);
    if arrival.None? || (end.Some? && end.value < arrival.value) {
      next := end;
    } else {
      next := arrival;
    }
  }

  predicate NextBelongs(arrivals: seq<Job>, ai: nat, running: seq<Running>, x: real) {
    || (ai < |arrivals| && arrivals[ai].arrival == x)
    || (exists i :: 0 <= i < |running| && running[i].end == x)
  }

  /** Move on to the next event: somebody arrives or somebody ends. */
  method Advance(arrivals: seq<Job>, ai: nat, pending: seq<Job>, free: Free, running: seq<Running>,
                 ghost plan: seq<Dispatch>, t: real)
    returns (over: bool, ai': nat, pending': seq<Job>, free': Free, running': seq<Running>, t': real)
    requires DrainOk(arrivals, ai, pending, free, running, plan, t)
    ensures DrainOk(arrivals, ai', pending', free', running', plan, t') && t' >= t
    ensures over <==> ai == |arrivals| && running == []
    ensures over ==> ai' == ai && pending' == pending && free' == free && running' == running
    ensures ai' >= ai && |pending'| - |pending| == ai' - ai && |running'| <= |running|
    ensures !over ==> ai' > ai || |running'| < |running|
  {
    hide Load, Busy, BusyAt;
    over, ai', pending', free', running', t' := true, ai, pending, free, running, t;
    var next := NextEvent(arrivals, ai, running);
    if next.Some? {
      over := false;
      t' := if next.value > t then next.value else t;
      TimeBalances(free, running, plan, t, t');
      running', free' := Complete(running, free, t', plan);
      ai', pending' := ReleaseArrivals(arrivals, ai, pending, t', plan);
    }
  }

  function IdsOf(jobs: seq<Job>): set<nat> {
    set j | j in jobs :: j.jid
  }

  /** The schedule read off: a rank and a node for every job, the ranks being the numbers from 0 to n - 1
      and those of the jobs dispatched the order of dispatch. Exactly the jobs that fit a node at all are
      dispatched, none before it has arrived, and at no time does a node carry more than it has. */
  ghost predicate ScheduleOk(jobs: seq<Job>, rank: Ranks, nodeOf: map<nat, nat>, plan: seq<Dispatch>) {
    && Numbered(rank, |jobs|) && rank.Keys == nodeOf.Keys == IdsOf(jobs)
    && (forall id :: id in nodeOf ==> nodeOf[id] < NODES)
    && Placed(rank, nodeOf, plan) && Feasible(jobs, plan)
  }

  method PrecomputeSchedule(jobs: seq<Job>, post: nat -> Option<Act>)
    returns (rank: Ranks, nodeOf: map<nat, nat>, ghost plan: seq<Dispatch>, ghost drained: Ranks)
    requires DistinctIds(jobs)
    ensures drained.Keys == IdsOf(JobsOf(plan)) && forall id :: id in drained ==> id in rank && rank[id] == drained[id]
    ensures rank == drained <==> forall j :: j in jobs ==> j.mps <= MPS_PER_GPU
    ensures Numbered(rank, |jobs|) && rank.Keys == nodeOf.Keys == IdsOf(jobs)
    ensures forall id :: id in nodeOf ==> nodeOf[id] < NODES
    ensures ScheduleOk(jobs, rank, nodeOf, plan)
  {
    hide *;
    var arrivals := Sort(ArrivalLe, jobs);
    IdsSurviveSort(jobs, arrivals);
    rank, nodeOf, plan := DrainAll(jobs, arrivals, post);
    RankedParts(rank, nodeOf, plan);
    drained := rank;
    rank, nodeOf := AppendRest(arrivals, rank, nodeOf, plan);
    TailIsDead(jobs, plan, drained, rank);
    AllRanked(jobs, arrivals, rank, nodeOf, plan);
  }

  /** The event loop of the drain. */
  method DrainAll(ghost jobs: seq<Job>, arrivals: seq<Job>, post: nat -> Option<Act>)
    returns (rank: Ranks, nodeOf: map<nat, nat>, ghost plan: seq<Dispatch>)
    requires Permutes(jobs, arrivals) && DistinctIds(arrivals)
    ensures Ranked(rank, nodeOf, plan) && Feasible(jobs, plan)
  {
    hide DrainOk, Ranked, DistinctIds, FitsSomewhere, Permutes, Partition, Feasible;
    var ai: nat, calls: nat, t := 0, 0, 0.0;
    var free: Free := [MPS_PER_GPU, MPS_PER_GPU];
    var running: seq<Running>, pending: seq<Job> := [], [];
    rank, nodeOf, plan := map[], map[], [];
    NothingYet(arrivals, t);
    ai, pending := ReleaseArrivals(arrivals, ai, pending, t, plan);
    StartOk(arrivals, ai, pending, t);
    FreeShape(arrivals, ai, pending, free, running, plan, t);
    while pending != [] || ai < |arrivals| || running != []
      invariant ai <= |arrivals| && DrainOk(arrivals, ai, pending, free, running, plan, t) && Ranked(rank, nodeOf, plan)
      decreases 3 * (|arrivals| - ai) + 2 * |pending| + |running|
    {
      pending, free, running, rank, nodeOf, plan, calls :=
        DispatchAll(arrivals, ai, pending, free, running, rank, nodeOf, plan, t, post, calls);
      FreeShape(arrivals, ai, pending, free, running, plan, t);
      var over: bool;
      over, ai, pending, free, running, t := Advance(arrivals, ai, pending, free, running, plan, t);
      FreeShape(arrivals, ai, pending, free, running, plan, t);
      if over {
        NobodyFits(pending, free);
        break;
      }
    }
    Leftovers(jobs, arrivals, ai, pending, free, running, plan, t);
  }

  /** Those that fit nowhere come last, in order of arrival. */
  method AppendRest(arrivals: seq<Job>, rank: Ranks, nodeOf: map<nat, nat>, ghost plan: seq<Dispatch>)
    returns (rank': Ranks, nodeOf': map<nat, nat>)
    requires RanksOk(rank, nodeOf, plan)
    ensures RanksOk(rank', nodeOf', plan) && rank'.Keys == rank.Keys + IdsOf(arrivals)
    ensures forall id :: id in rank ==> rank'[id] == rank[id]
    ensures RestBehind(arrivals, |arrivals|, rank, rank') && RestInOrder(arrivals, |arrivals|, rank, rank')
  {
    hide RanksOk, IdsOf;
    rank', nodeOf' := rank, nodeOf;
    IdsOfNone(arrivals);
    for i := 0 to |arrivals|
      invariant RanksOk(rank', nodeOf', plan) && rank'.Keys == rank.Keys + IdsOf(arrivals[..i])
      invariant forall id :: id in rank ==> rank'[id] == rank[id]
      invariant RestBehind(arrivals, i, rank, rank') && RestInOrder(arrivals, i, rank, rank')
    {
      IdsNext(arrivals, i);
      ghost var before := rank';
      rank', nodeOf' := RankIfNew(rank', nodeOf', plan, arrivals[i].jid);
      OneMoreBehind(arrivals, i, rank, before, rank');
      OneMoreInOrder(arrivals, i, rank, before, rank');
    }
    assert arrivals[..|arrivals|] == arrivals;
  }

  /** A job not dispatched, at its first mention. */
  ghost predicate Undispatched(arrivals: seq<Job>, rank: Ranks, j: nat) {
    j < |arrivals| && arrivals[j].jid !in rank && forall k :: 0 <= k < j ==> arrivals[k].jid != arrivals[j].jid
  }

  /** Of the first n arrivals, those not dispatched are ranked behind all that were ... */
  ghost predicate RestBehind(arrivals: seq<Job>, n: nat, rank: Ranks, rank': Ranks) {
    && n <= |arrivals| && (forall i :: 0 <= i < n ==> arrivals[i].jid in rank')
    && forall i, id :: 0 <= i < n && arrivals[i].jid !in rank && id in rank && id in rank' ==>
         rank'[id] < rank'[arrivals[i].jid]
  }

  /** ... and in the order in which they arrived. */
  ghost predicate RestInOrder(arrivals: seq<Job>, n: nat, rank: Ranks, rank': Ranks) {
    && n <= |arrivals| && (forall i :: 0 <= i < n ==> arrivals[i].jid in rank')
    && forall i, j :: 0 <= i < j < n && arrivals[i].jid !in rank && Undispatched(arrivals, rank, j) ==>
         rank'[arrivals[i].jid] < rank'[arrivals[j].jid]
  }

  ghost predicate Appends(before: Ranks, after: Ranks, id: nat) {
    && before.Keys <= after.Keys && id in after && (forall x :: x in before ==> after[x] == before[x])
    && (id !in before ==> forall x :: x in before ==> before[x] < after[id])
  }

  lemma OneMoreBehind(arrivals: seq<Job>, i: nat, rank: Ranks, before: Ranks, after: Ranks)
    requires i < |arrivals| && RestBehind(arrivals, i, rank, before) && Appends(before, after, arrivals[i].jid)
    requires rank.Keys <= before.Keys && before.Keys == rank.Keys + IdsOf(arrivals[..i])
    ensures RestBehind(arrivals, i + 1, rank, after)
  {
    hide IdsOf;
    SeenBefore(arrivals, i);
  }

  lemma SeenBefore(arrivals: seq<Job>, i: nat)
    requires i < |arrivals|
    ensures arrivals[i].jid in IdsOf(arrivals[..i]) ==> exists k :: 0 <= k < i && arrivals[k].jid == arrivals[i].jid
  {
    if arrivals[i].jid in IdsOf(arrivals[..i]) {
      var j :| j in arrivals[..i] && j.jid == arrivals[i].jid;
      var k :| 0 <= k < i && arrivals[..i][k] == j;
      assert arrivals[k].jid == arrivals[i].jid;
    }
  }

  lemma MentionedFirst(arrivals: seq<Job>, rank: Ranks, i: nat)
    requires Undispatched(arrivals, rank, i)
    ensures arrivals[i].jid !in rank && forall k :: 0 <= k < i ==> arrivals[k].jid != arrivals[i].jid
  {
  }

  lemma OneMoreInOrder(arrivals: seq<Job>, i: nat, rank: Ranks, before: Ranks, after: Ranks)
    requires i < |arrivals| && RestInOrder(arrivals, i, rank, before) && Appends(before, after, arrivals[i].jid)
    requires rank.Keys <= before.Keys && before.Keys == rank.Keys + IdsOf(arrivals[..i])
    ensures RestInOrder(arrivals, i + 1, rank, after)
  {
    hide IdsOf, Undispatched;
    SeenBefore(arrivals, i);
    if Undispatched(arrivals, rank, i) {
      MentionedFirst(arrivals, rank, i);
    }
  }

  method RankIfNew(rank: Ranks, nodeOf: map<nat, nat>, ghost plan: seq<Dispatch>, id: nat)
    returns (rank': Ranks, nodeOf': map<nat, nat>)
    requires RanksOk(rank, nodeOf, plan)
    ensures RanksOk(rank', nodeOf', plan) && rank'.Keys == rank.Keys + {id}
    ensures Appends(rank, rank', id)
  {
    hide RanksOk;
    rank', nodeOf' := rank, nodeOf;
    RanksBelow(rank, nodeOf, plan);
    if id !in rank {
      RankOneMore(rank, nodeOf, plan, id);
      rank', nodeOf' := rank[id := |rank|], nodeOf[id := 0];
    }
  }

  lemma IdsOfNone(jobs: seq<Job>)
    ensures IdsOf(jobs[..0]) == {}
  {
  }

  /** Ranks are consecutive numbers, and those of dispatched jobs say when and where. */
  ghost predicate RanksOk(rank: Ranks, nodeOf: map<nat, nat>, plan: seq<Dispatch>) {
    && Numbered(rank, |rank|) && Placed(rank, nodeOf, plan) && nodeOf.Keys == rank.Keys
    && forall id :: id in nodeOf ==> nodeOf[id] < NODES
  }

  lemma RanksBelow(rank: Ranks, nodeOf: map<nat, nat>, plan: seq<Dispatch>)
    requires RanksOk(rank, nodeOf, plan)
    ensures forall id :: id in rank ==> rank[id] < |rank|
  {
  }

  lemma RankOneMore(rank: Ranks, nodeOf: map<nat, nat>, plan: seq<Dispatch>, id: nat)
    requires RanksOk(rank, nodeOf, plan) && id !in rank
    ensures RanksOk(rank[id := |rank|], nodeOf[id := 0], plan)
  {
    hide Numbered;
    NumberNext(rank, |rank|, id);
    NumberCount(rank, id);
    assert nodeOf[id := 0].Keys == rank[id := |rank|].Keys;
  }

  /** Exactly the jobs that fit a node are dispatched, one after the other, none before it arrives, and no
      node is ever overbooked. */
  ghost predicate Feasible(jobs: seq<Job>, plan: seq<Dispatch>) {
    && (forall j :: j in jobs ==> (j.mps <= MPS_PER_GPU <==> j in JobsOf(plan)))
    && (forall j :: j in JobsOf(plan) ==> j in jobs)
    && (forall n: nat, u :: n < NODES ==> Load(plan, n, u) <= MPS_PER_GPU)
    && (forall i :: 0 <= i < |plan| ==> plan[i].job.arrival <= plan[i].start)
    && (forall i, j :: 0 <= i < j < |plan| ==> plan[i].start <= plan[j].start)
  }

  lemma IdsSurviveSort(jobs: seq<Job>, arrivals: seq<Job>)
    requires Permutes(jobs, arrivals) && DistinctIds(jobs)
    ensures DistinctIds(arrivals) && IdsOf(arrivals) == IdsOf(jobs) && |IdsOf(jobs)| == |jobs| == |arrivals|
  {
    PermutesElems(jobs, arrivals);
    assert Distinct(jobs);
    PermutesDistinct(jobs, arrivals);
    forall i, j | 0 <= i < j < |arrivals|
      ensures arrivals[i].jid != arrivals[j].jid
    {
      assert arrivals[i] in jobs && arrivals[j] in jobs;
      SameId(jobs, arrivals[i], arrivals[j]);
    }
    CountIds(jobs);
  }

  lemma {:induction false} CountIds(jobs: seq<Job>)
    requires DistinctIds(jobs)
    ensures |IdsOf(jobs)| == |jobs|
  {
    if jobs != [] {
      var m := |jobs| - 1;
      CountIds(jobs[..m]);
      IdsNext(jobs, m);
      assert jobs[..m + 1] == jobs;
      assert jobs[m].jid !in IdsOf(jobs[..m]);
    }
  }

  lemma IdsNext(jobs: seq<Job>, i: nat)
    requires i < |jobs|
    ensures IdsOf(jobs[..i + 1]) == IdsOf(jobs[..i]) + {jobs[i].jid}
  {
    assert jobs[..i + 1] == jobs[..i] + [jobs[i]];
  }

  lemma NothingYet(arrivals: seq<Job>, t: real)
    ensures Partition(arrivals, 0, [], []) && Ranked(map[], map[], [])
  {
    assert arrivals[..0] == [];
  }

  lemma StartOk(arrivals: seq<Job>, ai: nat, pending: seq<Job>, t: real)
    requires Partition(arrivals, ai, pending, []) && forall j :: j in pending ==> j.arrival <= t
    ensures DrainOk(arrivals, ai, pending, [MPS_PER_GPU, MPS_PER_GPU], [], [], t)
  {
    BalancedAtStart(t);
  }

  lemma NobodyFits(pending: seq<Job>, free: Free)
    requires |free| == NODES && free[0] == MPS_PER_GPU && free[1] == MPS_PER_GPU
    requires forall j :: j in pending ==> !FitsSomewhere(free, j)
    ensures forall j :: j in pending ==> j.mps > MPS_PER_GPU
  {
  }

  /** Once the drain is over, a job has been dispatched iff a whole node can hold it. */
  lemma Leftovers(jobs: seq<Job>, arrivals: seq<Job>, ai: nat, pending: seq<Job>, free: Free,
                  running: seq<Running>, plan: seq<Dispatch>, t: real)
    requires Permutes(jobs, arrivals) && DrainOk(arrivals, ai, pending, free, running, plan, t) && ai == |arrivals|
    requires forall j :: j in pending ==> j.mps > MPS_PER_GPU
    ensures Feasible(jobs, plan)
  {
    assert arrivals[..ai] == arrivals;
    PermutesElems(jobs, arrivals);
    var done := JobsOf(plan);
    forall j
      ensures j in jobs <==> j in pending || j in done
    {
      assert j in jobs <==> j in multiset(arrivals);
    }
    forall j | j in done
      ensures j.mps <= MPS_PER_GPU
    {
      var i :| 0 <= i < |done| && done[i] == j;
      assert plan[i].job == j;
    }
  }

  lemma RankedParts(rank: Ranks, nodeOf: map<nat, nat>, plan: seq<Dispatch>)
    requires Ranked(rank, nodeOf, plan)
    ensures RanksOk(rank, nodeOf, plan) && rank.Keys == IdsOf(JobsOf(plan))
  {
  }

  lemma NumberCount(rank: Ranks, id: nat)
    requires id !in rank
    ensures |rank[id := |rank|]| == |rank| + 1
  {
    assert rank[id := |rank|].Keys == rank.Keys + {id};
  }

  lemma AllRanked(jobs: seq<Job>, arrivals: seq<Job>, rank: Ranks, nodeOf: map<nat, nat>, plan: seq<Dispatch>)
    requires IdsOf(arrivals) == IdsOf(jobs) && |IdsOf(jobs)| == |jobs|
    requires RanksOk(rank, nodeOf, plan) && rank.Keys == IdsOf(JobsOf(plan)) + IdsOf(arrivals)
    requires Feasible(jobs, plan)
    ensures ScheduleOk(jobs, rank, nodeOf, plan)
    ensures Numbered(rank, |jobs|) && rank.Keys == nodeOf.Keys == IdsOf(jobs)
    ensures forall id :: id in nodeOf ==> nodeOf[id] < NODES
  {
    hide Numbered, Placed, JobsOf, Load;
    assert IdsOf(JobsOf(plan)) <= IdsOf(jobs);
    assert rank.Keys == IdsOf(jobs);
    assert |rank| == |rank.Keys|;
  }

  /** The rule for jobs never dispatched is dead code, that is, leaves the ranks as the drain made them, iff
      every job fits a node. */
  lemma TailIsDead(jobs: seq<Job>, plan: seq<Dispatch>, before: Ranks, after: Ranks)
    requires DistinctIds(jobs) && Feasible(jobs, plan) && before.Keys == IdsOf(JobsOf(plan))
    requires after.Keys == before.Keys + IdsOf(jobs) && forall id :: id in before ==> after[id] == before[id]
    ensures after == before <==> forall j :: j in jobs ==> j.mps <= MPS_PER_GPU
  {
    hide JobsOf, Load;
    if after == before {
      forall j | j in jobs
        ensures j in JobsOf(plan)
      {
        assert j.jid in IdsOf(jobs) && j.jid in before.Keys;
        var d :| d in JobsOf(plan) && d.jid == j.jid;
        OnlyOne(jobs, d, j);
      }
    }
    if forall j :: j in jobs ==> j.mps <= MPS_PER_GPU {
      assert IdsOf(jobs) <= IdsOf(JobsOf(plan));
      assert after.Keys == before.Keys;
    }
  }

  lemma OnlyOne(jobs: seq<Job>, a: Job, b: Job)
    requires DistinctIds(jobs) && a in jobs && b in jobs && a.jid == b.jid
    ensures a == b
  {
  }
}
