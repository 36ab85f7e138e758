/** What the two planners owe their callers: when a placement exists, how few nodes it can use,
    how the two planners agree, and how refusal behaves as the cluster fills up. */
module ClusterPlanning {
  import opened Sums
  import opened ClusterModel

  // ----- Counting usable GPUs -----

  ghost function OkGpus(cfg: Config, st: State, job: Job, n: nat): set<nat>
    requires ConfigOk(cfg) && Shaped(cfg, st)
  {
    set g: nat | g < cfg.gpusPerNode && SlotOk(cfg, st, job, n, g)
  }

  ghost function OkCounts(cfg: Config, st: State, job: Job): map<nat, int>
    requires ConfigOk(cfg) && Shaped(cfg, st)
  {
    map n: nat | n < cfg.nNodes :: |OkGpus(cfg, st, job, n)|
  }

  lemma {:induction false} ColumnCard(slots: set<(nat, nat)>, n: nat, gpus: set<nat>)
    requires forall s :: s in slots ==> s.0 == n && s.1 in gpus
    ensures |slots| <= |gpus|
    decreases slots
  {
    if slots != {} {
      var s :| s in slots;
      ColumnCard(slots - {s}, n, gpus - {s.1});
    }
  }

  /** A placement never exceeds what its nodes can offer. */
  lemma {:induction false} PlacementBound(cfg: Config, st: State, job: Job, slots: set<(nat, nat)>)
    requires ConfigOk(cfg) && Shaped(cfg, st)
    requires forall s :: s in slots ==> SlotOk(cfg, st, job, s.0, s.1)
    ensures SlotNodes(slots) <= OkCounts(cfg, st, job).Keys
    ensures |slots| <= Sum(Restrict(OkCounts(cfg, st, job), SlotNodes(slots)))
    decreases slots
  {
    var counts := OkCounts(cfg, st, job);
    if slots != {} {
      var x := (var s :| s in slots; s.0);
      var column := set s | s in slots && s.0 == x;
      var rest := slots - column;
      PlacementBound(cfg, st, job, rest);
      ColumnCard(column, x, OkGpus(cfg, st, job, x));
      assert |slots| == |column| + |rest| by { assert slots == column + rest && column !! rest; }
      assert SlotNodes(slots) == SlotNodes(rest) + {x} by {
        forall n | n in SlotNodes(slots) ensures n in SlotNodes(rest) + {x} {
          var s :| s in slots && s.0 == n;
          if n != x { assert s in rest; }
        }
        var s :| s in slots && s.0 == x;
      }
      assert x !in SlotNodes(rest);
      SumRestrictAdd(counts, SlotNodes(rest), x);
    }
  }

  lemma NotEnough(cfg: Config, st: State, job: Job)
    requires ConfigOk(cfg) && Shaped(cfg, st)
    requires Sum(OkCounts(cfg, st, job)) < job.gpuCount
    ensures !Feasible(cfg, st, job)
  {
    var counts := OkCounts(cfg, st, job);
    forall slots ensures !Placement(cfg, st, job, slots) {
      if Placement(cfg, st, job, slots) {
        PlacementBound(cfg, st, job, slots);
        assert Restrict(counts, counts.Keys) == counts;
        SumSubset(counts, SlotNodes(slots), counts.Keys);
      }
    }
  }

  /** The nodes of any placement outnumber a set of top nodes that is still short of GPUs. */
  lemma FewerNodesNotEnough(cfg: Config, st: State, job: Job, top: set<nat>, slots: set<(nat, nat)>)
    requires ConfigOk(cfg) && Shaped(cfg, st) && Placement(cfg, st, job, slots)
    requires top <= OkCounts(cfg, st, job).Keys && Outranks(OkCounts(cfg, st, job), top)
    requires Sum(Restrict(OkCounts(cfg, st, job), top)) < job.gpuCount
    ensures |SlotNodes(slots)| > |top|
  {
    PlacementBound(cfg, st, job, slots);
    if |SlotNodes(slots)| <= |top| {
      TopSetIsBest(OkCounts(cfg, st, job), top, SlotNodes(slots));
    }
  }

  // ----- Plans and placements -----

  lemma SlotsOfLast(cfg: Config, plan: Plan)
    requires PlanOk(cfg, plan) && plan != []
    ensures var m := |plan| - 1; var a := plan[m];
      && SlotsOf(plan) == SlotsOf(plan[..m]) + Column(a.node, a.gpus)
      && SlotsOf(plan[..m]) !! Column(a.node, a.gpus)
      && NodesOf(plan) == NodesOf(plan[..m]) + {a.node} && a.node !in NodesOf(plan[..m])
  {
    assert plan == plan[..|plan| - 1] + [plan[|plan| - 1]];
  }

  lemma {:induction false} PlanSlotCount(cfg: Config, plan: Plan)
    requires PlanOk(cfg, plan)
    ensures |SlotsOf(plan)| == GpuTotal(plan) && |NodesOf(plan)| == |plan|
  {
    if plan == [] {
      assert SlotsOf(plan) == {} && NodesOf(plan) == {};
    } else {
      var m := |plan| - 1;
      hide SlotsOf, NodesOf, Column;
      PlanSlotCount(cfg, plan[..m]);
      SlotsOfLast(cfg, plan);
      ColumnCount(plan[m].node, plan[m].gpus);
    }
  }

  ghost function Column(n: nat, gpus: seq<nat>): set<(nat, nat)> {
    set g | g in gpus :: (n, g)
  }

  lemma {:induction false} ColumnCount(n: nat, gpus: seq<nat>)
    requires Distinct(gpus)
    ensures |Column(n, gpus)| == |gpus|
  {
    if gpus != [] {
      var m := |gpus| - 1;
      ColumnCount(n, gpus[..m]);
      assert gpus == gpus[..m] + [gpus[m]];
      assert Column(n, gpus) == Column(n, gpus[..m]) + {(n, gpus[m])};
    }
  }

  /** Every valid plan is a placement, on as many nodes as it has allocations. */
  lemma ValidPlanIsPlacement(cfg: Config, st: State, job: Job, plan: Plan)
    requires ConfigOk(cfg) && Shaped(cfg, st) && ValidPlan(cfg, st, job, plan)
    ensures Placement(cfg, st, job, SlotsOf(plan)) && Feasible(cfg, st, job)
    ensures SlotNodes(SlotsOf(plan)) == NodesOf(plan) && |NodesOf(plan)| == |plan|
  {
    PlanSlotCount(cfg, plan);
    forall s | s in SlotsOf(plan)
      ensures SlotOk(cfg, st, job, s.0, s.1)
    {
      var a :| a in plan && s.0 == a.node && s.1 in a.gpus;
      var i :| 0 <= i < |plan| && plan[i] == a;
      var k :| 0 <= k < |a.gpus| && a.gpus[k] == s.1;
      assert SlotOk(cfg, st, job, plan[i].node, plan[i].gpus[k]);
    }
    forall a | a in plan
      ensures a.node in SlotNodes(SlotsOf(plan))
    {
      var i :| 0 <= i < |plan| && plan[i] == a;
      assert AllocationOk(cfg, plan[i]);
      assert (a.node, a.gpus[0]) in SlotsOf(plan);
    }
    assert Placement(cfg, st, job, SlotsOf(plan));
  }

  /** What `can_allocate_on` answers: the named GPU decides for a fractional job; for whole-GPU
      jobs the answer is the same at every valid GPU. */
  ghost predicate CanOn(cfg: Config, st: State, job: Job, n: nat, g: nat)
    requires ConfigOk(cfg) && Shaped(cfg, st)
  {
    && n < cfg.nNodes && g < cfg.gpusPerNode
    && if Fractional(cfg, job) then SlotOk(cfg, st, job, n, g) else Feasible(cfg, st, job)
  }

  /** The planners agree: the free planner succeeds iff some GPU is acceptable to the pinned one -
      except that a job asking for no GPU at all can be placed on a cluster with no GPUs. */
  lemma PlannersAgree(cfg: Config, st: State, job: Job)
    requires ConfigOk(cfg) && Shaped(cfg, st)
    ensures (Feasible(cfg, st, job) <==> exists n: nat, g: nat :: CanOn(cfg, st, job, n, g))
       <==> (job.gpuCount > 0 || (cfg.nNodes > 0 && cfg.gpusPerNode > 0))
  {
    var some := exists n: nat, g: nat :: CanOn(cfg, st, job, n, g);
    if some {
      var n: nat, g: nat :| CanOn(cfg, st, job, n, g);
      if Fractional(cfg, job) {
        assert Placement(cfg, st, job, {(n, g)});
      }
    }
    if Feasible(cfg, st, job) {
      var slots :| Placement(cfg, st, job, slots);
      if slots != {} {
        var s :| s in slots;
        assert CanOn(cfg, st, job, s.0, s.1);
      } else if cfg.nNodes > 0 && cfg.gpusPerNode > 0 {
        assert CanOn(cfg, st, job, 0, 0);
      }
    }
    if job.gpuCount == 0 {
      assert Placement(cfg, st, job, {});
    }
  }

  // ----- Refusal is monotone -----

  ghost predicate Tighter(cfg: Config, st: State, st': State)
    requires Shaped(cfg, st) && Shaped(cfg, st')
  {
    && (forall n, g :: 0 <= n < cfg.nNodes && 0 <= g < cfg.gpusPerNode ==> st'.free[n][g] <= st.free[n][g] <= cfg.cap)
    && (forall n :: 0 <= n < cfg.nNodes ==> st.usedRam[n] <= st'.usedRam[n])
  }

  lemma RefusalMonotone(cfg: Config, st: State, st': State, job: Job)
    requires ConfigOk(cfg) && Shaped(cfg, st) && Shaped(cfg, st') && Tighter(cfg, st, st')
    requires !Feasible(cfg, st, job)
    ensures !Feasible(cfg, st', job)
  {
    forall slots: set<(nat, nat)> | Placement(cfg, st', job, slots)
      ensures false
    {
      forall s | s in slots ensures SlotOk(cfg, st, job, s.0, s.1) {
        assert SlotOk(cfg, st', job, s.0, s.1);
      }
      assert Placement(cfg, st, job, slots);
    }
  }

  lemma FreeAtMostCap(cfg: Config, st: State, n: nat, g: nat)
    requires Conserved(cfg, st) && n < cfg.nNodes && g < cfg.gpusPerNode
    ensures 0 <= st.free[n][g] <= cfg.cap
  {
    SumNonneg(HeldBy(st, n, g));
  }

  lemma ReserveTightens(cfg: Config, st: State, job: Job, plan: Plan)
    requires Conserved(cfg, st) && job.ram >= 0.0 && PlanOk(cfg, plan)
    ensures Tighter(cfg, st, Reserve(cfg, st, job, plan))
  {
    forall n, g | 0 <= n < cfg.nNodes && 0 <= g < cfg.gpusPerNode
      ensures Reserve(cfg, st, job, plan).free[n][g] <= st.free[n][g] <= cfg.cap
    {
      AddPlanAt(cfg, st.free, plan, false, n, g);
      FreeAtMostCap(cfg, st, n, g);
    }
  }

  /** What was refused stays refused when something else is granted. */
  lemma GrantKeepsRefusals(cfg: Config, st: State, job: Job, plan: Plan)
    requires Conserved(cfg, st) && job.ram >= 0.0 && PlanOk(cfg, plan) && ConfigOk(cfg) && Shaped(cfg, st)
    ensures Shaped(cfg, Reserve(cfg, st, job, plan))
    ensures forall j :: !Feasible(cfg, st, j) ==> !Feasible(cfg, Reserve(cfg, st, job, plan), j)
  {
    var st' := Reserve(cfg, st, job, plan);
    ReserveTightens(cfg, st, job, plan);
    forall j | !Feasible(cfg, st, j)
      ensures !Feasible(cfg, st', j)
    {
      RefusalMonotone(cfg, st, st', j);
    }
  }

  // ----- Cluster totals -----

  function RowSum(row: seq<int>): int {
    if row == [] then 0 else RowSum(row[..|row| - 1]) + row[|row| - 1]
  }

  function GridSum(free: seq<seq<int>>): int {
    if free == [] then 0 else GridSum(free[..|free| - 1]) + RowSum(free[|free| - 1])
  }

  function TotalMps(cfg: Config): nat {
    cfg.nNodes * cfg.gpusPerNode * cfg.cap
  }

  function UsedMps(cfg: Config, st: State): int {
    TotalMps(cfg) - GridSum(st.free)
  }

  lemma {:induction false} RowSumUpdate(row: seq<int>, g: nat, v: int)
    requires g < |row|
    ensures RowSum(row[g := v]) == RowSum(row) - row[g] + v
  {
    var m := |row| - 1;
    if g == m {
      assert row[g := v][..m] == row[..m];
    } else {
      assert row[g := v][..m] == row[..m][g := v];
      RowSumUpdate(row[..m], g, v);
    }
  }

  lemma {:induction false} GridSumUpdate(free: seq<seq<int>>, n: nat, row: seq<int>)
    requires n < |free|
    ensures GridSum(free[n := row]) == GridSum(free) - RowSum(free[n]) + RowSum(row)
  {
    var m := |free| - 1;
    if n == m {
      assert free[n := row][..m] == free[..m];
    } else {
      assert free[n := row][..m] == free[..m][n := row];
      GridSumUpdate(free[..m], n, row);
    }
  }

  lemma CellUpdate(free: seq<seq<int>>, n: nat, g: nat, d: int)
    requires n < |free| && g < |free[n]|
    ensures GridSum(free[n := free[n][g := free[n][g] + d]]) == GridSum(free) + d
  {
    hide RowSum, GridSum;
    var row := free[n];
    var v := row[g] + d;
    RowSumUpdate(row, g, v);
    GridSumUpdate(free, n, row[g := v]);
  }

  lemma TimesNext(m: int, d: int)
    ensures (m + 1) * d == m * d + d
  {
  }

  lemma {:induction false} AddGpusTotal(free: seq<seq<int>>, n: nat, gpus: seq<nat>, d: int)
    requires n < |free| && forall i :: 0 <= i < |gpus| ==> gpus[i] < |free[n]|
    ensures GridSum(AddGpus(free, n, gpus, d)) == GridSum(free) + |gpus| * d
  {
    if gpus != [] {
      var m := |gpus| - 1;
      AddGpusTotal(free, n, gpus[..m], d);
      CellUpdate(AddGpus(free, n, gpus[..m], d), n, gpus[m], d);
      TimesNext(m, d);
    }
  }

  lemma TimesSigned(k: int, d: nat, give: bool)
    ensures k * Signed(d, give) == Signed(k * d, give)
  {
  }

  lemma {:induction false} AddPlanTotal(cfg: Config, free: seq<seq<int>>, plan: Plan, give: bool)
    requires GridOk(cfg, free) && PlanOk(cfg, plan)
    ensures GridSum(AddPlan(cfg, free, plan, give)) == GridSum(free) + Signed(MpsTotal(plan), give)
  {
    if plan != [] {
      var m := |plan| - 1;
      AddPlanTotal(cfg, free, plan[..m], give);
      var a := plan[m];
      AddGpusTotal(AddPlan(cfg, free, plan[..m], give), a.node, a.gpus, Signed(a.mps, give));
      TimesSigned(|a.gpus|, a.mps, give);
    }
  }

  lemma {:induction false} UniformMpsTotal(plan: Plan, mps: nat)
    requires forall i :: 0 <= i < |plan| ==> plan[i].mps == mps
    ensures MpsTotal(plan) == GpuTotal(plan) * mps
  {
    if plan != [] {
      var m := |plan| - 1;
      UniformMpsTotal(plan[..m], mps);
      assert GpuTotal(plan) * mps == GpuTotal(plan[..m]) * mps + |plan[m].gpus| * mps;
    }
  }

  /** A job in service takes `JobSlots` slots of the cluster, however it was placed. */
  lemma ReserveUses(cfg: Config, st: State, job: Job, plan: Plan)
    requires ConfigOk(cfg) && Shaped(cfg, st) && ValidPlan(cfg, st, job, plan)
    ensures MpsTotal(plan) == JobSlots(cfg, job)
    ensures UsedMps(cfg, Reserve(cfg, st, job, plan)) == UsedMps(cfg, st) + JobSlots(cfg, job)
  {
    AddPlanTotal(cfg, st.free, plan, false);
    UniformMpsTotal(plan, if Fractional(cfg, job) then job.mps else cfg.cap);
  }

  lemma FreeReturns(cfg: Config, st: State, id: JobId)
    requires Conserved(cfg, st) && id in st.active
    ensures UsedMps(cfg, Free(cfg, st, id)) == UsedMps(cfg, st) - MpsTotal(st.active[id])
  {
    AddPlanTotal(cfg, st.free, st.active[id], true);
  }

  lemma {:induction false} RowSumConst(n: nat, c: int)
    ensures RowSum(seq(n, _ => c)) == n * c
  {
    if n > 0 {
      RowSumConst(n - 1, c);
      assert seq(n, _ => c)[..n - 1] == seq(n - 1, _ => c);
    }
  }

  lemma {:induction false} GridSumConst(n: nat, row: seq<int>)
    ensures GridSum(seq(n, _ => row)) == n * RowSum(row)
  {
    if n > 0 {
      GridSumConst(n - 1, row);
      assert seq(n, _ => row)[..n - 1] == seq(n - 1, _ => row);
    }
  }

  lemma InitialUsesNothing(cfg: Config)
    ensures UsedMps(cfg, Initial(cfg)) == 0
  {
    var row := seq(cfg.gpusPerNode, _ => cfg.cap as int);
    RowSumConst(cfg.gpusPerNode, cfg.cap);
    GridSumConst(cfg.nNodes, row);
    assert Initial(cfg).free == seq(cfg.nNodes, _ => row);
    assert cfg.nNodes * (cfg.gpusPerNode * cfg.cap) == TotalMps(cfg);
  }
}
