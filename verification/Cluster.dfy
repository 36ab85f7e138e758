/** The mutable cluster: both planners as the loops they are, and allocation and release in place. */
module ClusterObject {
  import opened Wrappers
  import opened Sums
  import opened Sorting
  import opened ClusterModel
  import opened ClusterPlanning

  /** Indices of the GPUs of a node with every slot free, in index order. */
  function WholeGpus(row: seq<int>, cap: nat): seq<nat> {
    if row == [] then []
    else
      var m := |row| - 1;
      if row[m] == cap then WholeGpus(row[..m], cap) + [m] else WholeGpus(row[..m], cap)
  }

  lemma {:induction false} WholeGpusExact(row: seq<int>, cap: nat)
    ensures forall g: nat :: g in WholeGpus(row, cap) <==> g < |row| && row[g] == cap
    ensures forall i, j :: 0 <= i < j < |WholeGpus(row, cap)| ==> WholeGpus(row, cap)[i] < WholeGpus(row, cap)[j]
  {
    if row != [] {
      var m := |row| - 1;
      WholeGpusExact(row[..m], cap);
      forall i | 0 <= i < |WholeGpus(row[..m], cap)|
        ensures WholeGpus(row[..m], cap)[i] < m
      {
        assert WholeGpus(row[..m], cap)[i] in WholeGpus(row[..m], cap);
      }
    }
  }

  function FreeWholeGpus(cfg: Config, st: State, n: nat): seq<nat> {
    if n < |st.free| then WholeGpus(st.free[n], cfg.cap) else []
  }

  predicate RankLe(cfg: Config, st: State, i: nat, j: nat) {
    || |FreeWholeGpus(cfg, st, i)| > |FreeWholeGpus(cfg, st, j)|
    || (|FreeWholeGpus(cfg, st, i)| == |FreeWholeGpus(cfg, st, j)| && i <= j)
  }

  /** First node with room, and on it the tightest fit, lowest index first. */
  ghost predicate BestFit(cfg: Config, st: State, job: Job, plan: Plan)
    requires ConfigOk(cfg) && Shaped(cfg, st)
  {
    && |plan| == 1 && |plan[0].gpus| == 1
    && var n, g := plan[0].node, plan[0].gpus[0];
      && SlotOk(cfg, st, job, n, g)
      && (forall n': nat, g': nat :: n' < n ==> !SlotOk(cfg, st, job, n', g'))
      && (forall g': nat :: SlotOk(cfg, st, job, n, g') ==>
            TighterFit(st, n, g, g'))
  }

  predicate TighterFit(st: State, n: nat, g: nat, g': nat)
    requires n < |st.free| && g < |st.free[n]| && g' < |st.free[n]|
  {
    st.free[n][g] < st.free[n][g'] || (st.free[n][g] == st.free[n][g'] && g <= g')
  }

  /** No placement of the job gets by on fewer nodes. */
  ghost predicate FewestNodes(cfg: Config, st: State, job: Job, plan: Plan)
    requires ConfigOk(cfg) && Shaped(cfg, st)
  {
    forall slots :: Placement(cfg, st, job, slots) ==> |plan| <= |SlotNodes(slots)|
  }

  /** Nodes with most whole GPUs first; every node but the last gives all of them, in index order. */
  ghost predicate Greedy(cfg: Config, st: State, plan: Plan) {
    && (forall i, j :: 0 <= i < j < |plan| ==> RankLe(cfg, st, plan[i].node, plan[j].node))
    && (forall i :: 0 <= i < |plan| ==> plan[i].gpus <= FreeWholeGpus(cfg, st, plan[i].node))
    && (forall i :: 0 <= i < |plan| - 1 ==> plan[i].gpus == FreeWholeGpus(cfg, st, plan[i].node))
  }

  /** What the free planner prefers: the fewest nodes, and on them the tightest fit or the richest nodes first. */
  ghost predicate Preferred(cfg: Config, st: State, job: Job, plan: Plan)
    requires ConfigOk(cfg) && Shaped(cfg, st)
  {
    && FewestNodes(cfg, st, job, plan)
    && if Fractional(cfg, job) then BestFit(cfg, st, job, plan) else Greedy(cfg, st, plan)
  }

  ghost predicate ValidParts(cfg: Config, st: State, job: Job, plan: Plan)
    requires ConfigOk(cfg) && Shaped(cfg, st)
  {
    && PlanOk(cfg, plan)
    && forall i :: 0 <= i < |plan| ==>
      && plan[i].jobId == job.id && plan[i].mps == cfg.cap
      && forall k :: 0 <= k < |plan[i].gpus| ==> SlotOk(cfg, st, job, plan[i].node, plan[i].gpus[k])
  }

  lemma WholeCount(cfg: Config, st: State, job: Job, n: nat)
    requires ConfigOk(cfg) && Shaped(cfg, st) && n < cfg.nNodes && !Fractional(cfg, job)
    ensures RamOk(cfg, st, n, job.ram) ==> OkGpus(cfg, st, job, n) == Elems(FreeWholeGpus(cfg, st, n))
    ensures OkCounts(cfg, st, job)[n] == if RamOk(cfg, st, n, job.ram) then |FreeWholeGpus(cfg, st, n)| else 0
  {
    if RamOk(cfg, st, n, job.ram) {
      WholeGpusExact(st.free[n], cfg.cap);
      DistinctCard(FreeWholeGpus(cfg, st, n));
    } else {
      assert OkGpus(cfg, st, job, n) == {};
    }
  }

  /** Appending one node's share to a partial plan. */
  lemma ExtendParts(cfg: Config, st: State, job: Job, plan: Plan, n: nat, gpus: seq<nat>)
    requires ConfigOk(cfg) && Shaped(cfg, st) && ValidParts(cfg, st, job, plan)
    requires n < cfg.nNodes && n !in NodesOf(plan) && gpus != [] && Distinct(gpus)
    requires forall k :: 0 <= k < |gpus| ==> SlotOk(cfg, st, job, n, gpus[k])
    ensures var plan' := plan + [Allocation(job.id, n, gpus, cfg.cap)];
      && ValidParts(cfg, st, job, plan') && GpuTotal(plan') == GpuTotal(plan) + |gpus|
      && NodesOf(plan') == NodesOf(plan) + {n}
  {
    var a := Allocation(job.id, n, gpus, cfg.cap);
    var plan' := plan + [a];
    assert plan'[..|plan|] == plan;
    forall i | 0 <= i < |plan'|
      ensures AllocationOk(cfg, plan'[i])
    {
      if i < |plan| { assert plan'[i] == plan[i]; }
    }
    forall i, j | 0 <= i < j < |plan'|
      ensures plan'[i].node != plan'[j].node
    {
      if j == |plan| { assert plan[i] in plan; }
    }
  }

  function Range(n: nat): (r: seq<nat>)
    ensures |r| == n && forall i :: 0 <= i < n ==> r[i] == i
    ensures Distinct(r) && forall i: nat :: i in r <==> i < n
  {
    if n == 0 then [] else Range(n - 1) + [n - 1]
  }

  predicate CountLe(counts: seq<nat>, i: nat, j: nat) {
    var ci := if i < |counts| then counts[i] else 0;
    var cj := if j < |counts| then counts[j] else 0;
    ci > cj || (ci == cj && i <= j)
  }

  /** Node indices, most whole GPUs first, ties in index order. */
  function RankByCount(counts: seq<nat>): (ranked: seq<nat>)
    ensures Distinct(ranked) && forall n: nat :: n in ranked <==> n < |counts|
    ensures forall i, j :: 0 <= i < j < |ranked| ==> CountLe(counts, ranked[i], ranked[j])
  {
    var nodes := Range(|counts|);
    var ranked := Sort((i: nat, j: nat) => CountLe(counts, i, j), nodes);
    PermutesElems(nodes, ranked);
    PermutesDistinct(nodes, ranked);
    ranked
  }

  class Cluster {
    const cfg: Config
    var free: seq<seq<int>>
    var usedRam: seq<real>
    var active: map<JobId, Plan>
    var activeRam: map<JobId, real>

    function View(): State
      reads this
    {
      State(free, usedRam, active, activeRam)
    }

    ghost predicate Valid()
      reads this
    {
      Conserved(cfg, View())
    }

    constructor (cfg: Config)
      requires ConfigOk(cfg)
      ensures this.cfg == cfg && View() == Initial(cfg) && Valid()
    {
      this.cfg := cfg;
      var st := Initial(cfg);
      free, usedRam, active, activeRam := st.free, st.usedRam, st.active, st.activeRam;
      new;
      InitialConserved(cfg);
    }

    // ----- Planners -----

    method FindPlan(job: Job) returns (r: Option<Plan>)
      requires Valid()
      ensures r.Some? <==> Feasible(cfg, View(), job)
      ensures r.Some? ==> ValidPlan(cfg, View(), job, r.value) && Preferred(cfg, View(), job, r.value)
    {
      if Fractional(cfg, job) {
        r := FindFraction(job);
      } else {
        r := FindWhole(job);
      }
      if r.Some? {
        ValidPlanIsPlacement(cfg, View(), job, r.value);
      }
    }

    method FindFraction(job: Job) returns (r: Option<Plan>)
      requires ConfigOk(cfg) && Shaped(cfg, View()) && Fractional(cfg, job)
      ensures r.None? ==> !Feasible(cfg, View(), job)
      ensures r.Some? ==> ValidPlan(cfg, View(), job, r.value) && BestFit(cfg, View(), job, r.value)
      ensures r.Some? ==> FewestNodes(cfg, View(), job, r.value)
    {
      ghost var st := View();
      for n := 0 to cfg.nNodes
        invariant forall n': nat, g': nat :: n' < n ==> !SlotOk(cfg, st, job, n', g')
      {
        if RamOk(cfg, View(), n, job.ram) {
          var best: Option<(nat, int)> := None;
          for g := 0 to cfg.gpusPerNode
            invariant best.Some? ==> best.value.0 < g && SlotOk(cfg, st, job, n, best.value.0)
            invariant best.Some? ==> best.value.1 == free[n][best.value.0] - job.mps
            invariant forall g': nat :: g' < g && SlotOk(cfg, st, job, n, g') ==>
                        (best.Some? && TighterFit(st, n, best.value.0, g'))
          {
            if free[n][g] >= job.mps {
              var residual := free[n][g] - job.mps;
              if best.None? || residual < best.value.1 {
                best := Some((g, residual));
              }
            }
          }
          if best.Some? {
            var plan := [Allocation(job.id, n, [best.value.0], job.mps)];
            assert plan[..0] == [];
            assert GpuTotal(plan) == 1;
            OneNodeIsFewest(cfg, st, job, plan);
            return Some(plan);
          }
        }
      }
      NoSlotNoPlacement(cfg, st, job);
      return None;
    }

    method RankNodes(ghost job: Job) returns (ranked: seq<nat>)
      requires ConfigOk(cfg) && Shaped(cfg, View())
      ensures Ranking(cfg, View(), job, ranked)
    {
      var st := View();
      var counts := seq(cfg.nNodes, i requires 0 <= i < cfg.nNodes => |FreeWholeGpus(cfg, st, i)|);
      ranked := RankByCount(counts);
      assert Elems(ranked) == OkCounts(cfg, st, job).Keys;
    }

    method FindWhole(job: Job) returns (r: Option<Plan>)
      requires ConfigOk(cfg) && Shaped(cfg, View()) && !Fractional(cfg, job)
      ensures r.None? ==> !Feasible(cfg, View(), job)
      ensures r.Some? ==> ValidPlan(cfg, View(), job, r.value) && Greedy(cfg, View(), r.value)
      ensures r.Some? ==> FewestNodes(cfg, View(), job, r.value)
    {
      hide Walked, Accounted, Ranking;
      var st := View();
      var ranked := RankNodes(job);
      var plan: Plan, needed := [], job.gpuCount;
      var k := 0;
      WalkStarts(cfg, st, job, ranked);
      while k < |ranked| && needed > 0
        invariant k <= |ranked| && needed >= 0 && needed + GpuTotal(plan) == job.gpuCount
        invariant Walked(cfg, st, job, plan, ranked, k) && Accounted(cfg, st, job, plan, ranked, k)
      {
        var n := ranked[k];
        assert n in Elems(ranked);
        WalkSkips(cfg, st, job, plan, ranked, k);
        if RamOk(cfg, st, n, job.ram) {
          var freeGpus := FreeWholeGpus(cfg, st, n);
          if freeGpus != [] {
            var take := freeGpus[..if needed < |freeGpus| then needed else |freeGpus|];
            WalkTakes(cfg, st, job, plan, ranked, k, take);
            plan := plan + [Allocation(job.id, n, take, cfg.cap)];
            needed := needed - |take|;
          }
        }
        k := k + 1;
      }
      if needed > 0 {
        WalkExhausted(cfg, st, job, plan, ranked);
        return None;
      }
      GreedyIsFewest(cfg, st, job, plan, ranked, k);
      WalkedIsValid(cfg, st, job, plan, ranked, k);
      return Some(plan);
    }

    method FindPlanOn(job: Job, nodeI: nat, gpuI: nat) returns (r: Option<Plan>)
      requires Valid()
      ensures r.Some? <==> CanOn(cfg, View(), job, nodeI, gpuI)
      ensures r.Some? ==> ValidPlan(cfg, View(), job, r.value)
      ensures r.Some? && job.gpuCount > 0 && SlotOk(cfg, View(), job, nodeI, gpuI) ==> StartsAt(r.value, nodeI, gpuI)
      ensures r.Some? && !Fractional(cfg, job) ==> HomeFirst(cfg, View(), job, nodeI, r.value)
    {
      if nodeI >= cfg.nNodes || gpuI >= cfg.gpusPerNode {
        return None;
      }
      if Fractional(cfg, job) {
        if free[nodeI][gpuI] >= job.mps && RamOk(cfg, View(), nodeI, job.ram) {
          var plan := [Allocation(job.id, nodeI, [gpuI], job.mps)];
          assert plan[..0] == [];
          assert GpuTotal(plan) == 1;
          return Some(plan);
        }
        return None;
      }
      r := FindWholeOn(job, nodeI, gpuI);
      if r.Some? {
        ValidPlanIsPlacement(cfg, View(), job, r.value);
      }
    }

    method FindWholeOn(job: Job, nodeI: nat, gpuI: nat) returns (r: Option<Plan>)
      requires ConfigOk(cfg) && Shaped(cfg, View()) && !Fractional(cfg, job)
      requires nodeI < cfg.nNodes && gpuI < cfg.gpusPerNode
      ensures r.None? ==> !Feasible(cfg, View(), job)
      ensures r.Some? ==> ValidPlan(cfg, View(), job, r.value)
      ensures r.Some? && job.gpuCount > 0 && SlotOk(cfg, View(), job, nodeI, gpuI) ==> StartsAt(r.value, nodeI, gpuI)
      ensures r.Some? ==> HomeFirst(cfg, View(), job, nodeI, r.value)
    {
      hide PinWalked, StartsAt, SlotOk, PinShare, FreeWholeGpus, Without, Range, HomeUsed;
      var st := View();
      var order := [nodeI] + Without(Range(cfg.nNodes), nodeI);
      PinStarts(cfg, st, job, nodeI, gpuI);
      HomeStarts(cfg, st, job, nodeI);
      var plan: Plan, needed := [], job.gpuCount;
      var k := 0;
      while k < |order| && needed > 0
        invariant k <= |order| && needed >= 0 && needed + GpuTotal(plan) == job.gpuCount
        invariant PinWalked(cfg, st, job, nodeI, gpuI, plan, order, k) && HomeUsed(cfg, st, job, nodeI, plan, k, needed)
      {
        var n := order[k];
        PinNode(cfg, st, job, nodeI, gpuI, plan, order, k);
        PinFirstNode(cfg, st, job, nodeI, gpuI, plan, order, k);
        if !RamOk(cfg, st, n, job.ram) || FreeWholeGpus(cfg, st, n) == [] {
          PinPasses(cfg, st, job, nodeI, gpuI, plan, order, k);
          HomePasses(cfg, st, job, nodeI, plan, k, needed);
        } else {
          var take := PinShare(cfg, st, job, n, gpuI, n == nodeI, needed);
          PinShareNonempty(cfg, st, job, n, gpuI, n == nodeI, needed);
          if take != [] {
            PinTakesShare(cfg, st, job, nodeI, gpuI, plan, order, k, take);
            HomeTakes(cfg, st, job, nodeI, gpuI, plan, k, needed, n, take);
            plan := plan + [Allocation(job.id, n, take, cfg.cap)];
            needed := needed - |take|;
          }
        }
        k := k + 1;
      }
      if needed > 0 {
        PinExhausted(cfg, st, job, nodeI, gpuI, plan, order);
        return None;
      }
      PinWalkedIsValid(cfg, st, job, nodeI, gpuI, plan, order, k);
      HomeEnds(cfg, st, job, nodeI, plan, k);
      return Some(plan);
    }

    method CanAllocate(job: Job) returns (ok: bool)
      requires Valid()
      ensures ok <==> Feasible(cfg, View(), job)
    {
      var plan := FindPlan(job);
      ok := plan.Some?;
    }

    method CanAllocateOn(job: Job, nodeI: nat, gpuI: nat) returns (ok: bool)
      requires Valid()
      ensures ok <==> CanOn(cfg, View(), job, nodeI, gpuI)
    {
      var plan := FindPlanOn(job, nodeI, gpuI);
      ok := plan.Some?;
    }

    // ----- Allocation and release in place -----

    method ShiftSlots(plan: Plan, give: bool)
      requires GridOk(cfg, free) && PlanOk(cfg, plan)
      modifies this`free
      ensures free == AddPlan(cfg, old(free), plan, give)
    {
      for i := 0 to |plan|
        invariant GridOk(cfg, free) && free == AddPlan(cfg, old(free), plan[..i], give)
      {
        var a := plan[i];
        assert AllocationOk(cfg, a);
        ghost var before := free;
        for j := 0 to |a.gpus|
          invariant GridOk(cfg, free) && free == AddGpus(before, a.node, a.gpus[..j], Signed(a.mps, give))
        {
          var row := free[a.node];
          assert a.gpus[..j + 1][..j] == a.gpus[..j];
          free := free[a.node := row[a.gpus[j] := row[a.gpus[j]] + Signed(a.mps, give)]];
        }
        assert a.gpus[..|a.gpus|] == a.gpus;
        assert plan[..i + 1][..i] == plan[..i];
      }
      assert plan[..|plan|] == plan;
    }

    /** Charge each distinct host once. */
    method ReserveRam(id: JobId, plan: Plan, ram: real)
      requires forall n :: n in NodesOf(plan) ==> n < |usedRam|
      modifies this`usedRam, this`activeRam
      ensures usedRam == Charge(old(usedRam), NodesOf(plan), ram)
      ensures activeRam == old(activeRam)[id := ram]
    {
      var hosts := NodesOf(plan);
      while hosts != {}
        invariant hosts <= NodesOf(plan) && |usedRam| == |old(usedRam)| && activeRam == old(activeRam)
        invariant usedRam == Charge(old(usedRam), NodesOf(plan) - hosts, ram)
        decreases hosts
      {
        var n :| n in hosts;
        usedRam := usedRam[n := usedRam[n] + ram];
        hosts := hosts - {n};
      }
      activeRam := activeRam[id := ram];
    }

    method RefundRam(plan: Plan, ram: real)
      requires forall n :: n in NodesOf(plan) ==> n < |usedRam|
      modifies this`usedRam
      ensures usedRam == Refund(old(usedRam), NodesOf(plan), ram)
    {
      var hosts := NodesOf(plan);
      while hosts != {}
        invariant hosts <= NodesOf(plan) && |usedRam| == |old(usedRam)|
        invariant usedRam == Refund(old(usedRam), NodesOf(plan) - hosts, ram)
        decreases hosts
      {
        var n :| n in hosts;
        usedRam := usedRam[n := if usedRam[n] - ram > 0.0 then usedRam[n] - ram else 0.0];
        hosts := hosts - {n};
      }
    }

    method TryAllocate(job: Job) returns (r: Option<Plan>)
      requires Valid() && job.id !in active && job.ram >= 0.0
      modifies this
      ensures Valid()
      ensures r.Some? <==> Feasible(cfg, old(View()), job)
      ensures r.Some? ==> ValidPlan(cfg, old(View()), job, r.value) && Preferred(cfg, old(View()), job, r.value)
      ensures View() == if r.Some? then Reserve(cfg, old(View()), job, r.value) else old(View())
    {
      r := FindPlan(job);
      if r.Some? {
        Commit(job, r.value);
      }
    }

    method TryAllocateOn(job: Job, nodeI: nat, gpuI: nat) returns (r: Option<Plan>)
      requires Valid() && job.id !in active && job.ram >= 0.0
      modifies this
      ensures Valid()
      ensures r.Some? <==> CanOn(cfg, old(View()), job, nodeI, gpuI)
      ensures r.Some? ==> ValidPlan(cfg, old(View()), job, r.value)
      ensures r.Some? && job.gpuCount > 0 && SlotOk(cfg, old(View()), job, nodeI, gpuI) ==>
                StartsAt(r.value, nodeI, gpuI)
      ensures r.Some? && !Fractional(cfg, job) ==> HomeFirst(cfg, old(View()), job, nodeI, r.value)
      ensures View() == if r.Some? then Reserve(cfg, old(View()), job, r.value) else old(View())
    {
      r := FindPlanOn(job, nodeI, gpuI);
      if r.Some? {
        Commit(job, r.value);
      }
    }

    method Commit(job: Job, plan: Plan)
      requires Valid() && job.id !in active && job.ram >= 0.0 && ValidPlan(cfg, View(), job, plan)
      modifies this
      ensures Valid() && View() == Reserve(cfg, old(View()), job, plan)
    {
      ReserveKeeps(cfg, View(), job, plan);
      PlanHosts(cfg, plan);
      assert GridOk(cfg, free) && PlanOk(cfg, plan) && |usedRam| == cfg.nNodes;
      hide Conserved, ValidPlan;
      ShiftSlots(plan, false);
      ReserveRam(job.id, plan, job.ram);
      active := active[job.id := plan];
    }

    method Release(id: JobId)
      requires Valid()
      modifies this
      ensures Valid() && View() == Free(cfg, old(View()), id)
    {
      FreeKeeps(cfg, View(), id);
      assert GridOk(cfg, free) && |usedRam| == cfg.nNodes && (id in active ==> PlanOk(cfg, active[id]));
      hide Conserved;
      if id in active {
        var plan := active[id];
        PlanHosts(cfg, plan);
        active := active - {id};
        ShiftSlots(plan, true);
        var ram := if id in activeRam then activeRam[id] else 0.0;
        activeRam := activeRam - {id};
        RefundRam(plan, ram);
      }
    }
  }

  // ----- The greedy walk over the ranking -----

  ghost predicate NodeOrder(cfg: Config, st: State, job: Job, order: seq<nat>)
    requires ConfigOk(cfg) && Shaped(cfg, st)
  {
    Elems(order) == OkCounts(cfg, st, job).Keys && Distinct(order)
  }

  ghost predicate Ranking(cfg: Config, st: State, job: Job, ranked: seq<nat>)
    requires ConfigOk(cfg) && Shaped(cfg, st)
  {
    && NodeOrder(cfg, st, job, ranked)
    && forall i, j :: 0 <= i < j < |ranked| ==> RankLe(cfg, st, ranked[i], ranked[j])
  }

  /** The nodes passed so far either gave to the plan or had nothing to give. */
  ghost predicate Covered(cfg: Config, st: State, job: Job, nodes: set<nat>, passed: set<nat>)
    requires ConfigOk(cfg) && Shaped(cfg, st)
  {
    var counts := OkCounts(cfg, st, job);
    && nodes <= passed <= counts.Keys
    && (forall y :: y in nodes ==> counts[y] == |FreeWholeGpus(cfg, st, y)|)
    && (forall x :: x in passed && x !in nodes ==> counts[x] == 0)
  }

  /** What the greedy walk leaves behind once it stops at position k of the ranking. */
  ghost predicate Walked(cfg: Config, st: State, job: Job, plan: Plan, ranked: seq<nat>, k: nat)
    requires ConfigOk(cfg) && Shaped(cfg, st)
  {
    && k <= |ranked| && Ranking(cfg, st, job, ranked)
    && ValidParts(cfg, st, job, plan) && Greedy(cfg, st, plan)
    && Covered(cfg, st, job, NodesOf(plan), Elems(ranked[..k]))
  }

  /** While GPUs are still needed the walk has taken all there was to take. */
  ghost predicate Accounted(cfg: Config, st: State, job: Job, plan: Plan, ranked: seq<nat>, k: nat)
    requires ConfigOk(cfg) && Shaped(cfg, st) && k <= |ranked|
  {
    var counts := OkCounts(cfg, st, job);
    && (GpuTotal(plan) < job.gpuCount ==>
          && GpuTotal(plan) == Sum(Restrict(counts, Elems(ranked[..k])))
          && (plan != [] ==> plan[|plan| - 1].gpus == FreeWholeGpus(cfg, st, plan[|plan| - 1].node)))
    && (plan != [] ==> Sum(Restrict(counts, NodesOf(plan[..|plan| - 1]))) < job.gpuCount)
  }

  lemma WalkStarts(cfg: Config, st: State, job: Job, ranked: seq<nat>)
    requires ConfigOk(cfg) && Shaped(cfg, st) && Ranking(cfg, st, job, ranked)
    ensures Walked(cfg, st, job, [], ranked, 0) && Accounted(cfg, st, job, [], ranked, 0)
    ensures GpuTotal([]) == 0
  {
    assert Restrict(OkCounts(cfg, st, job), Elems(ranked[..0])) == map[];
  }

  lemma PrefixGrows(cfg: Config, st: State, job: Job, ranked: seq<nat>, k: nat)
    requires ConfigOk(cfg) && Shaped(cfg, st) && NodeOrder(cfg, st, job, ranked) && k < |ranked|
    ensures Elems(ranked[..k + 1]) == Elems(ranked[..k]) + {ranked[k]} && ranked[k] !in Elems(ranked[..k])
    ensures ranked[k] in OkCounts(cfg, st, job) && ranked[k] < cfg.nNodes
    ensures Sum(Restrict(OkCounts(cfg, st, job), Elems(ranked[..k + 1])))
         == Sum(Restrict(OkCounts(cfg, st, job), Elems(ranked[..k]))) + OkCounts(cfg, st, job)[ranked[k]]
  {
    hide Sum, Restrict;
    assert ranked[..k + 1] == ranked[..k] + [ranked[k]];
    assert ranked[k] in Elems(ranked);
    SumRestrictAdd(OkCounts(cfg, st, job), Elems(ranked[..k]), ranked[k]);
  }

  /** A node with nothing to offer is passed over. */
  lemma WalkSkips(cfg: Config, st: State, job: Job, plan: Plan, ranked: seq<nat>, k: nat)
    requires ConfigOk(cfg) && Shaped(cfg, st) && !Fractional(cfg, job) && k < |ranked|
    requires Walked(cfg, st, job, plan, ranked, k) && Accounted(cfg, st, job, plan, ranked, k)
    ensures ranked[k] < cfg.nNodes
    ensures !RamOk(cfg, st, ranked[k], job.ram) || FreeWholeGpus(cfg, st, ranked[k]) == [] ==>
      Walked(cfg, st, job, plan, ranked, k + 1) && Accounted(cfg, st, job, plan, ranked, k + 1)
  {
    hide OkCounts, ValidParts, Greedy, Sum, Restrict, NodesOf, GpuTotal, RankLe, FreeWholeGpus, Fractional;
    PrefixGrows(cfg, st, job, ranked, k);
    WholeCount(cfg, st, job, ranked[k]);
  }

  lemma TakeCovers(cfg: Config, st: State, job: Job, plan: Plan, ranked: seq<nat>, k: nat)
    requires ConfigOk(cfg) && Shaped(cfg, st) && !Fractional(cfg, job) && k < |ranked|
    requires Ranking(cfg, st, job, ranked) && ranked[k] < cfg.nNodes && RamOk(cfg, st, ranked[k], job.ram)
    requires Covered(cfg, st, job, NodesOf(plan), Elems(ranked[..k]))
    ensures Covered(cfg, st, job, NodesOf(plan) + {ranked[k]}, Elems(ranked[..k + 1]))
  {
    PrefixGrows(cfg, st, job, ranked, k);
    WholeCount(cfg, st, job, ranked[k]);
  }

  lemma TakeAccounts(cfg: Config, st: State, job: Job, plan: Plan, ranked: seq<nat>, k: nat, take: seq<nat>)
    requires ConfigOk(cfg) && Shaped(cfg, st) && !Fractional(cfg, job) && k < |ranked|
    requires Ranking(cfg, st, job, ranked) && ranked[k] < cfg.nNodes && RamOk(cfg, st, ranked[k], job.ram)
    requires Covered(cfg, st, job, NodesOf(plan), Elems(ranked[..k])) && Accounted(cfg, st, job, plan, ranked, k)
    requires GpuTotal(plan) + |take| <= job.gpuCount && GpuTotal(plan) < job.gpuCount
    requires take == FreeWholeGpus(cfg, st, ranked[k]) || GpuTotal(plan) + |take| == job.gpuCount
    requires GpuTotal(plan + [Allocation(job.id, ranked[k], take, cfg.cap)]) == GpuTotal(plan) + |take|
    ensures Accounted(cfg, st, job, plan + [Allocation(job.id, ranked[k], take, cfg.cap)], ranked, k + 1)
  {
    var plan' := plan + [Allocation(job.id, ranked[k], take, cfg.cap)];
    var counts := OkCounts(cfg, st, job);
    PrefixGrows(cfg, st, job, ranked, k);
    WholeCount(cfg, st, job, ranked[k]);
    assert plan'[..|plan'| - 1] == plan;
    SumSubset(counts, NodesOf(plan), Elems(ranked[..k]));
  }

  lemma WalkTakes(cfg: Config, st: State, job: Job, plan: Plan, ranked: seq<nat>, k: nat, take: seq<nat>)
    requires ConfigOk(cfg) && Shaped(cfg, st) && !Fractional(cfg, job) && k < |ranked| && ranked[k] < cfg.nNodes
    requires Walked(cfg, st, job, plan, ranked, k) && Accounted(cfg, st, job, plan, ranked, k)
    requires RamOk(cfg, st, ranked[k], job.ram) && GpuTotal(plan) < job.gpuCount
    requires take <= FreeWholeGpus(cfg, st, ranked[k]) && take != []
    requires GpuTotal(plan) + |take| <= job.gpuCount
    requires take == FreeWholeGpus(cfg, st, ranked[k]) || GpuTotal(plan) + |take| == job.gpuCount
    ensures var plan' := plan + [Allocation(job.id, ranked[k], take, cfg.cap)];
      && Walked(cfg, st, job, plan', ranked, k + 1) && Accounted(cfg, st, job, plan', ranked, k + 1)
      && GpuTotal(plan') == GpuTotal(plan) + |take|
  {
    PrefixGrows(cfg, st, job, ranked, k);
    TakeIsOk(cfg, st, job, ranked[k], take);
    ExtendParts(cfg, st, job, plan, ranked[k], take);
    GreedyExtends(cfg, st, job, plan, ranked, k, take);
    TakeCovers(cfg, st, job, plan, ranked, k);
    TakeAccounts(cfg, st, job, plan, ranked, k, take);
  }

  lemma TakeIsOk(cfg: Config, st: State, job: Job, n: nat, take: seq<nat>)
    requires ConfigOk(cfg) && Shaped(cfg, st) && !Fractional(cfg, job) && n < cfg.nNodes
    requires RamOk(cfg, st, n, job.ram) && take <= FreeWholeGpus(cfg, st, n)
    ensures Distinct(take) && forall i :: 0 <= i < |take| ==> SlotOk(cfg, st, job, n, take[i])
  {
    WholeGpusExact(st.free[n], cfg.cap);
    forall i | 0 <= i < |take|
      ensures SlotOk(cfg, st, job, n, take[i])
    {
      var whole := FreeWholeGpus(cfg, st, n);
      assert take[i] == whole[i] && whole[i] in whole;
      assert whole == WholeGpus(st.free[n], cfg.cap);
    }
    forall i, j | 0 <= i < j < |take|
      ensures take[i] != take[j]
    {
      assert take[i] == FreeWholeGpus(cfg, st, n)[i] && take[j] == FreeWholeGpus(cfg, st, n)[j];
    }
  }

  lemma WalkedIsValid(cfg: Config, st: State, job: Job, plan: Plan, ranked: seq<nat>, k: nat)
    requires ConfigOk(cfg) && Shaped(cfg, st) && !Fractional(cfg, job)
    requires Walked(cfg, st, job, plan, ranked, k) && GpuTotal(plan) == job.gpuCount
    ensures ValidPlan(cfg, st, job, plan) && Greedy(cfg, st, plan)
  {
  }

  lemma WalkExhausted(cfg: Config, st: State, job: Job, plan: Plan, ranked: seq<nat>)
    requires ConfigOk(cfg) && Shaped(cfg, st)
    requires Walked(cfg, st, job, plan, ranked, |ranked|) && Accounted(cfg, st, job, plan, ranked, |ranked|)
    requires GpuTotal(plan) < job.gpuCount
    ensures !Feasible(cfg, st, job)
  {
    var counts := OkCounts(cfg, st, job);
    assert ranked[..|ranked|] == ranked;
    assert Restrict(counts, Elems(ranked)) == counts;
    NotEnough(cfg, st, job);
  }

  lemma GreedyExtends(cfg: Config, st: State, job: Job, plan: Plan, ranked: seq<nat>, k: nat, take: seq<nat>)
    requires ConfigOk(cfg) && Shaped(cfg, st) && k < |ranked| && Ranking(cfg, st, job, ranked)
    requires Greedy(cfg, st, plan) && NodesOf(plan) <= Elems(ranked[..k])
    requires plan != [] ==> plan[|plan| - 1].gpus == FreeWholeGpus(cfg, st, plan[|plan| - 1].node)
    requires take <= FreeWholeGpus(cfg, st, ranked[k])
    ensures Greedy(cfg, st, plan + [Allocation(job.id, ranked[k], take, cfg.cap)])
  {
    forall i | 0 <= i < |plan|
      ensures RankLe(cfg, st, plan[i].node, ranked[k])
    {
      assert plan[i].node in NodesOf(plan);
      var m :| 0 <= m < k && ranked[..k][m] == plan[i].node;
      assert RankLe(cfg, st, ranked[m], ranked[k]);
    }
    hide FreeWholeGpus, RankLe, Ranking, NodesOf;
    var plan' := plan + [Allocation(job.id, ranked[k], take, cfg.cap)];
    assert forall i :: 0 <= i < |plan| ==> plan'[i] == plan[i];
  }

  lemma InPrefix<T>(s: seq<T>, k: nat, q: nat)
    requires k <= |s| && q < |s|
    ensures q < k ==> s[q] in Elems(s[..k])
  {
    if q < k { assert s[..k][q] == s[q]; }
  }

  lemma NodesOfLast(plan: Plan)
    requires plan != []
    ensures NodesOf(plan) == NodesOf(plan[..|plan| - 1]) + {plan[|plan| - 1].node}
  {
    assert plan == plan[..|plan| - 1] + [plan[|plan| - 1]];
  }

  lemma PlanHosts(cfg: Config, plan: Plan)
    requires PlanOk(cfg, plan)
    ensures forall n :: n in NodesOf(plan) ==> n < cfg.nNodes
  {
    forall n | n in NodesOf(plan) ensures n < cfg.nNodes {
      var i := PlanNodeAt(plan, n);
      assert AllocationOk(cfg, plan[i]);
    }
  }

  lemma PlanNodeAt(plan: Plan, n: nat) returns (i: nat)
    requires n in NodesOf(plan)
    ensures i < |plan| && plan[i].node == n
  {
    var a :| a in plan && a.node == n;
    i :| 0 <= i < |plan| && plan[i] == a;
  }

  // ----- The pinned walk: the named node first, the others in index order -----

  /** The requested GPU first, if it is among the free ones. */
  function PinFirst(gpus: seq<nat>, g: nat): seq<nat> {
    if g in gpus then [g] + Without(gpus, g) else gpus
  }

  function Without(s: seq<nat>, x: nat): (r: seq<nat>)
    ensures forall y :: y in r <==> y in s && y != x
    ensures Distinct(s) ==> Distinct(r) && |r| == if x in s then |s| - 1 else |s|
  {
    if s == [] then []
    else
      var m := |s| - 1;
      assert s == s[..m] + [s[m]];
      assert Distinct(s) ==> Distinct(s[..m]) && s[m] !in s[..m];
      if s[m] == x then Without(s[..m], x) else Without(s[..m], x) + [s[m]]
  }

  ghost predicate StartsAt(plan: Plan, n: nat, g: nat) {
    plan != [] && plan[0].node == n && plan[0].gpus != [] && plan[0].gpus[0] == g
  }

  ghost predicate PinWalked(cfg: Config, st: State, job: Job, nodeI: nat, gpuI: nat, plan: Plan,
                            order: seq<nat>, k: nat) {
    && ConfigOk(cfg) && Shaped(cfg, st) && !Fractional(cfg, job)
    && k <= |order| && order != [] && order[0] == nodeI && NodeOrder(cfg, st, job, order)
    && ValidParts(cfg, st, job, plan) && NodesOf(plan) <= Elems(order[..k])
    && (GpuTotal(plan) < job.gpuCount ==>
          GpuTotal(plan) == Sum(Restrict(OkCounts(cfg, st, job), Elems(order[..k]))))
    && (k == 0 ==> plan == [])
    && (k > 0 && SlotOk(cfg, st, job, nodeI, gpuI) ==> StartsAt(plan, nodeI, gpuI))
  }

  lemma PinStarts(cfg: Config, st: State, job: Job, nodeI: nat, gpuI: nat)
    requires ConfigOk(cfg) && Shaped(cfg, st) && !Fractional(cfg, job) && nodeI < cfg.nNodes
    ensures PinWalked(cfg, st, job, nodeI, gpuI, [], [nodeI] + Without(Range(cfg.nNodes), nodeI), 0)
    ensures GpuTotal([]) == 0
  {
    var order := [nodeI] + Without(Range(cfg.nNodes), nodeI);
    assert NodeOrder(cfg, st, job, order);
    assert Restrict(OkCounts(cfg, st, job), Elems(order[..0])) == map[];
  }

  /** What the walk takes from the node at hand: its whole GPUs, as many as are still needed. */
  function PinShare(cfg: Config, st: State, job: Job, n: nat, gpuI: nat, pin: bool, needed: nat): seq<nat> {
    var freeGpus := FreeWholeGpus(cfg, st, n);
    var ordered := if pin then PinFirst(freeGpus, gpuI) else freeGpus;
    ordered[..if needed < |ordered| then needed else |ordered|]
  }

  lemma PinShareNonempty(cfg: Config, st: State, job: Job, n: nat, gpuI: nat, pin: bool, needed: nat)
    requires FreeWholeGpus(cfg, st, n) != [] && needed > 0
    ensures PinShare(cfg, st, job, n, gpuI, pin, needed) != []
        && |PinShare(cfg, st, job, n, gpuI, pin, needed)| <= needed
  {
    hide FreeWholeGpus, Without;
  }

  lemma PinShareOk(cfg: Config, st: State, job: Job, n: nat, gpuI: nat, pin: bool, needed: nat)
    requires ConfigOk(cfg) && Shaped(cfg, st) && n < cfg.nNodes && RamOk(cfg, st, n, job.ram) && needed > 0
    requires !Fractional(cfg, job)
    ensures var take := PinShare(cfg, st, job, n, gpuI, pin, needed);
      && Distinct(take) && (forall i :: 0 <= i < |take| ==> SlotOk(cfg, st, job, n, take[i]))
      && |take| <= needed && (|take| == OkCounts(cfg, st, job)[n] || |take| == needed)
      && (pin && SlotOk(cfg, st, job, n, gpuI) ==> take != [] && take[0] == gpuI)
  {
    FreeWholeFacts(cfg, st, job, n, gpuI);
    WholeCount(cfg, st, job, n);
    var freeGpus := FreeWholeGpus(cfg, st, n);
    PinFirstKeeps(freeGpus, gpuI);
    var ordered := if pin then PinFirst(freeGpus, gpuI) else freeGpus;
    PrefixElems(ordered, if needed < |ordered| then needed else |ordered|);
    WholeIsOk(cfg, st, job, n, PinShare(cfg, st, job, n, gpuI, pin, needed));
  }

  lemma PinFresh(cfg: Config, st: State, job: Job, nodeI: nat, gpuI: nat, plan: Plan, order: seq<nat>, k: nat)
    requires PinWalked(cfg, st, job, nodeI, gpuI, plan, order, k) && k < |order|
    ensures order[k] !in NodesOf(plan) && order[0] == nodeI && (k > 0 ==> order[k] != nodeI)
  {
    hide OkCounts, SlotOk, ValidParts, GpuTotal, Restrict, Sum, Fractional;
    PrefixGrows(cfg, st, job, order, k);
  }

  lemma PinTakes(cfg: Config, st: State, job: Job, nodeI: nat, gpuI: nat, plan: Plan, order: seq<nat>, k: nat,
                 take: seq<nat>)
    requires PinWalked(cfg, st, job, nodeI, gpuI, plan, order, k) && k < |order| && order[k] < cfg.nNodes
    requires take != [] && Distinct(take) && forall i :: 0 <= i < |take| ==> SlotOk(cfg, st, job, order[k], take[i])
    requires GpuTotal(plan) + |take| <= job.gpuCount && GpuTotal(plan) < job.gpuCount
    requires |take| == OkCounts(cfg, st, job)[order[k]] || GpuTotal(plan) + |take| == job.gpuCount
    requires order[k] == nodeI && SlotOk(cfg, st, job, nodeI, gpuI) ==> take[0] == gpuI
    ensures var plan' := plan + [Allocation(job.id, order[k], take, cfg.cap)];
      PinWalked(cfg, st, job, nodeI, gpuI, plan', order, k + 1) && GpuTotal(plan') == GpuTotal(plan) + |take|
  {
    hide OkCounts, NodeOrder, SlotOk, ValidParts, NodesOf, GpuTotal, Distinct, Restrict, Sum, Elems, Fractional;
    PrefixGrows(cfg, st, job, order, k);
    PinFresh(cfg, st, job, nodeI, gpuI, plan, order, k);
    ExtendParts(cfg, st, job, plan, order[k], take);
    var plan' := plan + [Allocation(job.id, order[k], take, cfg.cap)];
    assert plan != [] ==> plan'[0] == plan[0];
  }

  lemma PinNode(cfg: Config, st: State, job: Job, nodeI: nat, gpuI: nat, plan: Plan, order: seq<nat>, k: nat)
    requires PinWalked(cfg, st, job, nodeI, gpuI, plan, order, k) && k < |order|
    ensures ConfigOk(cfg) && Shaped(cfg, st) && !Fractional(cfg, job)
    ensures order[k] < cfg.nNodes && order[k] in OkCounts(cfg, st, job)
    ensures OkCounts(cfg, st, job)[order[k]] ==
      if RamOk(cfg, st, order[k], job.ram) then |FreeWholeGpus(cfg, st, order[k])| else 0
  {
    PrefixGrows(cfg, st, job, order, k);
    WholeCount(cfg, st, job, order[k]);
  }

  /** The walk takes a node's share ... */
  lemma PinTakesShare(cfg: Config, st: State, job: Job, nodeI: nat, gpuI: nat, plan: Plan, order: seq<nat>, k: nat,
                      take: seq<nat>)
    requires PinWalked(cfg, st, job, nodeI, gpuI, plan, order, k) && k < |order| && GpuTotal(plan) < job.gpuCount
    requires ConfigOk(cfg) && Shaped(cfg, st) && order[k] < cfg.nNodes && RamOk(cfg, st, order[k], job.ram)
    requires take == PinShare(cfg, st, job, order[k], gpuI, order[k] == nodeI, job.gpuCount - GpuTotal(plan))
    requires take != []
    ensures PinWalked(cfg, st, job, nodeI, gpuI, plan + [Allocation(job.id, order[k], take, cfg.cap)], order, k + 1)
    ensures GpuTotal(plan + [Allocation(job.id, order[k], take, cfg.cap)]) == GpuTotal(plan) + |take|
  {
    hide *;
    PinNode(cfg, st, job, nodeI, gpuI, plan, order, k);
    PinShareOk(cfg, st, job, order[k], gpuI, order[k] == nodeI, job.gpuCount - GpuTotal(plan));
    PinTakes(cfg, st, job, nodeI, gpuI, plan, order, k, take);
  }

  /** ... or passes over a node that has none. */
  lemma PinPasses(cfg: Config, st: State, job: Job, nodeI: nat, gpuI: nat, plan: Plan, order: seq<nat>, k: nat)
    requires PinWalked(cfg, st, job, nodeI, gpuI, plan, order, k) && k < |order|
    requires ConfigOk(cfg) && Shaped(cfg, st) && order[k] < cfg.nNodes
    requires !RamOk(cfg, st, order[k], job.ram) || FreeWholeGpus(cfg, st, order[k]) == []
    ensures PinWalked(cfg, st, job, nodeI, gpuI, plan, order, k + 1)
  {
    hide *;
    PinNode(cfg, st, job, nodeI, gpuI, plan, order, k);
    FreeWholeFacts(cfg, st, job, order[k], gpuI);
    PinSkips(cfg, st, job, nodeI, gpuI, plan, order, k);
  }

  lemma PinSkips(cfg: Config, st: State, job: Job, nodeI: nat, gpuI: nat, plan: Plan, order: seq<nat>, k: nat)
    requires PinWalked(cfg, st, job, nodeI, gpuI, plan, order, k) && k < |order| && order[k] in OkCounts(cfg, st, job)
    requires OkCounts(cfg, st, job)[order[k]] == 0
    requires order[k] == nodeI ==> !SlotOk(cfg, st, job, nodeI, gpuI)
    ensures PinWalked(cfg, st, job, nodeI, gpuI, plan, order, k + 1)
  {
    PrefixGrows(cfg, st, job, order, k);
    hide OkCounts, NodeOrder, SlotOk, ValidParts, NodesOf, GpuTotal, Distinct, Restrict, Sum, Elems, Fractional;
  }

  /** A plan that needs more than one node has used up the whole GPUs of the named node first, if that node has
      any to offer. */
  ghost predicate HomeFirst(cfg: Config, st: State, job: Job, nodeI: nat, plan: Plan) {
    && ConfigOk(cfg) && Shaped(cfg, st) && nodeI < cfg.nNodes
    && (RamOk(cfg, st, nodeI, job.ram) && FreeWholeGpus(cfg, st, nodeI) != [] && |plan| > 1 ==>
          plan[0].node == nodeI && |plan[0].gpus| == |FreeWholeGpus(cfg, st, nodeI)|)
  }

  ghost predicate HomeUsed(cfg: Config, st: State, job: Job, nodeI: nat, plan: Plan, k: nat, needed: int) {
    && ConfigOk(cfg) && Shaped(cfg, st) && nodeI < cfg.nNodes && (k == 0 ==> plan == [])
    && (RamOk(cfg, st, nodeI, job.ram) && FreeWholeGpus(cfg, st, nodeI) != [] && k > 0 ==>
          && plan != [] && plan[0].node == nodeI
          && (|plan| > 1 || needed > 0 ==> |plan[0].gpus| == |FreeWholeGpus(cfg, st, nodeI)|))
  }

  lemma HomeStarts(cfg: Config, st: State, job: Job, nodeI: nat)
    requires ConfigOk(cfg) && Shaped(cfg, st) && nodeI < cfg.nNodes
    ensures forall needed :: HomeUsed(cfg, st, job, nodeI, [], 0, needed)
  {
  }

  lemma PinFirstNode(cfg: Config, st: State, job: Job, nodeI: nat, gpuI: nat, plan: Plan, order: seq<nat>, k: nat)
    requires PinWalked(cfg, st, job, nodeI, gpuI, plan, order, k) && k < |order|
    ensures order[k] == nodeI <==> k == 0
  {
    hide OkCounts, SlotOk, ValidParts, NodesOf, GpuTotal, Restrict, Sum;
  }

  lemma HomePasses(cfg: Config, st: State, job: Job, nodeI: nat, plan: Plan, k: nat, needed: int)
    requires HomeUsed(cfg, st, job, nodeI, plan, k, needed) && ConfigOk(cfg) && Shaped(cfg, st) && nodeI < cfg.nNodes
    requires k == 0 ==> !RamOk(cfg, st, nodeI, job.ram) || FreeWholeGpus(cfg, st, nodeI) == []
    ensures HomeUsed(cfg, st, job, nodeI, plan, k + 1, needed)
  {
    hide FreeWholeGpus;
  }

  lemma ShareSize(cfg: Config, st: State, job: Job, n: nat, gpuI: nat, pin: bool, needed: nat)
    requires n < |st.free|
    ensures var free := |FreeWholeGpus(cfg, st, n)|;
      |PinShare(cfg, st, job, n, gpuI, pin, needed)| == if needed < free then needed else free
  {
    WholeGpusExact(st.free[n], cfg.cap);
    PinFirstKeeps(FreeWholeGpus(cfg, st, n), gpuI);
  }

  lemma HomeTakes(cfg: Config, st: State, job: Job, nodeI: nat, gpuI: nat, plan: Plan, k: nat, needed: nat, n: nat,
                  take: seq<nat>)
    requires HomeUsed(cfg, st, job, nodeI, plan, k, needed) && needed > 0 && (n == nodeI <==> k == 0) && n < |st.free|
    requires take == PinShare(cfg, st, job, n, gpuI, n == nodeI, needed)
    ensures HomeUsed(cfg, st, job, nodeI, plan + [Allocation(job.id, n, take, cfg.cap)], k + 1, needed - |take|)
  {
    ShareSize(cfg, st, job, n, gpuI, n == nodeI, needed);
    hide FreeWholeGpus, PinShare;
    var plan' := plan + [Allocation(job.id, n, take, cfg.cap)];
    assert plan != [] ==> plan'[0] == plan[0];
  }

  lemma HomeEnds(cfg: Config, st: State, job: Job, nodeI: nat, plan: Plan, k: nat)
    requires HomeUsed(cfg, st, job, nodeI, plan, k, 0)
    ensures HomeFirst(cfg, st, job, nodeI, plan)
  {
    hide FreeWholeGpus;
  }

  lemma PinExhausted(cfg: Config, st: State, job: Job, nodeI: nat, gpuI: nat, plan: Plan, order: seq<nat>)
    requires PinWalked(cfg, st, job, nodeI, gpuI, plan, order, |order|) && GpuTotal(plan) < job.gpuCount
    ensures ConfigOk(cfg) && Shaped(cfg, st) && !Feasible(cfg, st, job)
  {
    assert order[..|order|] == order;
    assert Restrict(OkCounts(cfg, st, job), Elems(order)) == OkCounts(cfg, st, job);
    NotEnough(cfg, st, job);
  }

  lemma PinWalkedIsValid(cfg: Config, st: State, job: Job, nodeI: nat, gpuI: nat, plan: Plan, order: seq<nat>, k: nat)
    requires PinWalked(cfg, st, job, nodeI, gpuI, plan, order, k) && GpuTotal(plan) == job.gpuCount
    ensures ConfigOk(cfg) && Shaped(cfg, st) && ValidPlan(cfg, st, job, plan)
    ensures job.gpuCount > 0 && SlotOk(cfg, st, job, nodeI, gpuI) ==> StartsAt(plan, nodeI, gpuI)
  {
  }

  lemma WholeIsOk(cfg: Config, st: State, job: Job, n: nat, take: seq<nat>)
    requires ConfigOk(cfg) && Shaped(cfg, st) && !Fractional(cfg, job) && n < cfg.nNodes
    requires RamOk(cfg, st, n, job.ram) && forall g :: g in take ==> g in FreeWholeGpus(cfg, st, n)
    ensures forall i :: 0 <= i < |take| ==> SlotOk(cfg, st, job, n, take[i])
  {
    WholeGpusExact(st.free[n], cfg.cap);
    forall i | 0 <= i < |take|
      ensures SlotOk(cfg, st, job, n, take[i])
    {
      assert take[i] in take;
    }
  }

  lemma PinFirstKeeps(gpus: seq<nat>, g: nat)
    requires Distinct(gpus)
    ensures var r := PinFirst(gpus, g);
      && Distinct(r) && |r| == |gpus| && (forall x :: x in r <==> x in gpus)
      && (g in gpus ==> r != [] && r[0] == g)
  {
  }

  lemma FreeWholeFacts(cfg: Config, st: State, job: Job, n: nat, g: nat)
    requires ConfigOk(cfg) && Shaped(cfg, st) && !Fractional(cfg, job) && n < cfg.nNodes
    ensures Distinct(FreeWholeGpus(cfg, st, n))
    ensures SlotOk(cfg, st, job, n, g) ==> RamOk(cfg, st, n, job.ram) && g in FreeWholeGpus(cfg, st, n)
  {
    WholeGpusExact(st.free[n], cfg.cap);
  }

  lemma PrefixElems<T>(s: seq<T>, k: nat)
    requires Distinct(s) && k <= |s|
    ensures Distinct(s[..k]) && forall x :: x in s[..k] ==> x in s
  {
  }

  lemma EarlierNodeIsRicher(cfg: Config, st: State, job: Job, plan: Plan, ranked: seq<nat>, k: nat, x: nat, i: nat)
    requires ConfigOk(cfg) && Shaped(cfg, st) && !Fractional(cfg, job) && k <= |ranked| && Ranking(cfg, st, job, ranked)
    requires Greedy(cfg, st, plan) && Covered(cfg, st, job, NodesOf(plan), Elems(ranked[..k]))
    requires x < cfg.nNodes && i < |plan| - 1 && x !in NodesOf(plan[..|plan| - 1])
    ensures plan[i].node < cfg.nNodes
    ensures OkCounts(cfg, st, job)[x] <= OkCounts(cfg, st, job)[plan[i].node]
  {
    var m := |plan| - 1;
    var y := plan[i].node;
    assert y in NodesOf(plan) && plan[m].node in NodesOf(plan);
    var p :| 0 <= p < k && ranked[..k][p] == y;
    WholeCount(cfg, st, job, x);
    NodesOfLast(plan);
    if x == plan[m].node {
      assert RankLe(cfg, st, y, x);
    } else if x !in Elems(ranked[..k]) {
      assert x in Elems(ranked);
      var q :| 0 <= q < |ranked| && ranked[q] == x;
      InPrefix(ranked, k, q);
      assert RankLe(cfg, st, ranked[p], ranked[q]);
    }
  }

  lemma TopOutranks(cfg: Config, st: State, job: Job, plan: Plan, ranked: seq<nat>, k: nat)
    requires ConfigOk(cfg) && Shaped(cfg, st) && !Fractional(cfg, job) && k <= |ranked| && Ranking(cfg, st, job, ranked)
    requires Greedy(cfg, st, plan) && Covered(cfg, st, job, NodesOf(plan), Elems(ranked[..k]))
    requires plan != []
    ensures NodesOf(plan[..|plan| - 1]) <= OkCounts(cfg, st, job).Keys
    ensures Outranks(OkCounts(cfg, st, job), NodesOf(plan[..|plan| - 1]))
  {
    var counts := OkCounts(cfg, st, job);
    var top := NodesOf(plan[..|plan| - 1]);
    NodesOfLast(plan);
    forall x, y | x in counts && x !in top && y in counts && y in top
      ensures counts[x] <= counts[y]
    {
      var i := PlanNodeAt(plan[..|plan| - 1], y);
      EarlierNodeIsRicher(cfg, st, job, plan, ranked, k, x, i);
    }
  }

  lemma ShortTopIsFewest(cfg: Config, st: State, job: Job, plan: Plan, top: set<nat>)
    requires ConfigOk(cfg) && Shaped(cfg, st)
    requires top <= OkCounts(cfg, st, job).Keys && Outranks(OkCounts(cfg, st, job), top)
    requires Sum(Restrict(OkCounts(cfg, st, job), top)) < job.gpuCount
    requires |plan| == |top| + 1
    ensures FewestNodes(cfg, st, job, plan)
  {
    forall slots: set<(nat, nat)> | Placement(cfg, st, job, slots)
      ensures |plan| <= |SlotNodes(slots)|
    {
      FewerNodesNotEnough(cfg, st, job, top, slots);
    }
  }

  lemma NodeCount(cfg: Config, plan: Plan)
    requires PlanOk(cfg, plan) && plan != []
    ensures |NodesOf(plan[..|plan| - 1])| == |plan| - 1
  {
    assert PlanOk(cfg, plan[..|plan| - 1]);
    PlanSlotCount(cfg, plan[..|plan| - 1]);
  }

  lemma GreedyIsFewest(cfg: Config, st: State, job: Job, plan: Plan, ranked: seq<nat>, k: nat)
    requires ConfigOk(cfg) && Shaped(cfg, st) && !Fractional(cfg, job)
    requires Walked(cfg, st, job, plan, ranked, k) && Accounted(cfg, st, job, plan, ranked, k)
    ensures FewestNodes(cfg, st, job, plan)
  {
    if plan != [] {
      TopOutranks(cfg, st, job, plan, ranked, k);
      NodeCount(cfg, plan);
      ShortTopIsFewest(cfg, st, job, plan, NodesOf(plan[..|plan| - 1]));
    }
  }

  lemma OneNodeIsFewest(cfg: Config, st: State, job: Job, plan: Plan)
    requires ConfigOk(cfg) && Shaped(cfg, st) && |plan| == 1 && job.gpuCount > 0
    ensures FewestNodes(cfg, st, job, plan)
  {
    forall slots: set<(nat, nat)> | Placement(cfg, st, job, slots)
      ensures 1 <= |SlotNodes(slots)|
    {
      var s :| s in slots;
      assert s.0 in SlotNodes(slots);
    }
  }

  lemma NoSlotNoPlacement(cfg: Config, st: State, job: Job)
    requires ConfigOk(cfg) && Shaped(cfg, st) && job.gpuCount > 0
    requires forall n: nat, g: nat :: !SlotOk(cfg, st, job, n, g)
    ensures !Feasible(cfg, st, job)
  {
    forall slots: set<(nat, nat)>
      ensures !Placement(cfg, st, job, slots)
    {
      if slots != {} {
        var s :| s in slots;
        assert !SlotOk(cfg, st, job, s.0, s.1);
      }
    }
  }
}
