/** The MPS + host-RAM cluster as a value: its state, what a placement is, what allocation and
    release do to the state, and the conservation law that relates them. */
module ClusterModel {
  import opened Sums

  /** Job ids are compared for equality only, so numbers stand for the strings. */
  type JobId = nat

  datatype Job = Job(id: JobId, gpuCount: nat, mps: nat, ram: real, submit: real, runtime: real)

  datatype Allocation = Allocation(jobId: JobId, node: nat, gpus: seq<nat>, mps: nat)

  type Plan = seq<Allocation>

  datatype Config = Config(nNodes: nat, gpusPerNode: nat, cap: nat, ramGb: seq<real>, overcommit: real)

  /** free[n][g] is the number of free slots of GPU g on node n. */
  datatype State = State(free: seq<seq<int>>, usedRam: seq<real>,
                         active: map<JobId, Plan>, activeRam: map<JobId, real>)

  predicate ConfigOk(cfg: Config) {
    && |cfg.ramGb| == cfg.nNodes
    && cfg.overcommit >= 0.0
    && forall n :: 0 <= n < cfg.nNodes ==> cfg.ramGb[n] >= 0.0
  }

  function Budget(cfg: Config, n: nat): real
    requires ConfigOk(cfg) && n < cfg.nNodes
  {
    cfg.ramGb[n] * cfg.overcommit
  }

  function Initial(cfg: Config): State {
    State(seq(cfg.nNodes, n => seq(cfg.gpusPerNode, g => cfg.cap)), seq(cfg.nNodes, n => 0.0), map[], map[])
  }

  predicate GridOk(cfg: Config, free: seq<seq<int>>) {
    && |free| == cfg.nNodes
    && forall n :: 0 <= n < |free| ==> |free[n]| == cfg.gpusPerNode
  }

  predicate Shaped(cfg: Config, st: State) {
    GridOk(cfg, st.free) && |st.usedRam| == cfg.nNodes
  }

  // ----- Plans -----

  predicate AllocationOk(cfg: Config, a: Allocation) {
    && a.node < cfg.nNodes && a.gpus != []
    && (forall i :: 0 <= i < |a.gpus| ==> a.gpus[i] < cfg.gpusPerNode)
    && (forall i, j :: 0 <= i < j < |a.gpus| ==> a.gpus[i] != a.gpus[j])
  }

  predicate PlanOk(cfg: Config, plan: Plan) {
    && (forall i :: 0 <= i < |plan| ==> AllocationOk(cfg, plan[i]))
    && (forall i, j :: 0 <= i < j < |plan| ==> plan[i].node != plan[j].node)
  }

  function NodesOf(plan: Plan): set<nat> {
    set a | a in plan :: a.node
  }

  function SlotsOf(plan: Plan): set<(nat, nat)> {
    set a, g | a in plan && g in a.gpus :: (a.node, g)
  }

  function GpuTotal(plan: Plan): nat {
    if plan == [] then 0 else GpuTotal(plan[..|plan| - 1]) + |plan[|plan| - 1].gpus|
  }

  /** MPS slots a plan takes from the cluster. */
  function MpsTotal(plan: Plan): nat {
    if plan == [] then 0
    else MpsTotal(plan[..|plan| - 1]) + |plan[|plan| - 1].gpus| * plan[|plan| - 1].mps
  }

  /** Slots a plan holds on one GPU. */
  function Held(plan: Plan, n: nat, g: nat): nat {
    if plan == [] then 0
    else
      var a := plan[|plan| - 1];
      Held(plan[..|plan| - 1], n, g) + if a.node == n && g in a.gpus then a.mps else 0
  }

  // ----- What allocation and release do -----

  function Signed(d: int, give: bool): int {
    if give then d else -d
  }

  function AddGpus(free: seq<seq<int>>, n: nat, gpus: seq<nat>, d: int): (r: seq<seq<int>>)
    requires n < |free| && forall i :: 0 <= i < |gpus| ==> gpus[i] < |free[n]|
    ensures |r| == |free| && forall k :: 0 <= k < |free| ==> |r[k]| == |free[k]|
  {
    if gpus == [] then free
    else
      var g := gpus[|gpus| - 1];
      var f := AddGpus(free, n, gpus[..|gpus| - 1], d);
      f[n := f[n][g := f[n][g] + d]]
  }

  function AddPlan(cfg: Config, free: seq<seq<int>>, plan: Plan, give: bool): (r: seq<seq<int>>)
    requires GridOk(cfg, free) && PlanOk(cfg, plan)
    ensures GridOk(cfg, r)
  {
    if plan == [] then free
    else
      var a := plan[|plan| - 1];
      AddGpus(AddPlan(cfg, free, plan[..|plan| - 1], give), a.node, a.gpus, Signed(a.mps, give))
  }

  function Charge(used: seq<real>, nodes: set<nat>, ram: real): seq<real> {
    seq(|used|, n requires 0 <= n < |used| => if n in nodes then used[n] + ram else used[n])
  }

  function Refund(used: seq<real>, nodes: set<nat>, ram: real): seq<real> {
    seq(|used|, n requires 0 <= n < |used| =>
      if n in nodes then (if used[n] - ram > 0.0 then used[n] - ram else 0.0) else used[n])
  }

  function Reserve(cfg: Config, st: State, job: Job, plan: Plan): State
    requires Shaped(cfg, st) && PlanOk(cfg, plan)
  {
    State(AddPlan(cfg, st.free, plan, false), Charge(st.usedRam, NodesOf(plan), job.ram),
          st.active[job.id := plan], st.activeRam[job.id := job.ram])
  }

  function Free(cfg: Config, st: State, id: JobId): State
    requires Shaped(cfg, st) && (id in st.active ==> PlanOk(cfg, st.active[id]))
  {
    if id !in st.active then st
    else
      var plan := st.active[id];
      var ram := if id in st.activeRam then st.activeRam[id] else 0.0;
      State(AddPlan(cfg, st.free, plan, true), Refund(st.usedRam, NodesOf(plan), ram),
            st.active - {id}, st.activeRam - {id})
  }

  // ----- Placements -----

  /** One GPU, a part of its slots; every other job takes whole GPUs. */
  predicate Fractional(cfg: Config, job: Job) {
    job.gpuCount == 1 && job.mps < cfg.cap
  }

  predicate RamOk(cfg: Config, st: State, n: nat, ram: real)
    requires ConfigOk(cfg) && Shaped(cfg, st) && n < cfg.nNodes
  {
    st.usedRam[n] + ram <= Budget(cfg, n)
  }

  predicate SlotOk(cfg: Config, st: State, job: Job, n: nat, g: nat)
    requires ConfigOk(cfg) && Shaped(cfg, st)
  {
    && n < cfg.nNodes && g < cfg.gpusPerNode
    && RamOk(cfg, st, n, job.ram)
    && if Fractional(cfg, job) then st.free[n][g] >= job.mps else st.free[n][g] == cfg.cap
  }

  /** A set of GPUs that can host the job: the planners are judged against this alone. */
  ghost predicate Placement(cfg: Config, st: State, job: Job, slots: set<(nat, nat)>)
    requires ConfigOk(cfg) && Shaped(cfg, st)
  {
    |slots| == job.gpuCount && forall s :: s in slots ==> SlotOk(cfg, st, job, s.0, s.1)
  }

  ghost predicate Feasible(cfg: Config, st: State, job: Job)
    requires ConfigOk(cfg) && Shaped(cfg, st)
  {
    exists slots :: Placement(cfg, st, job, slots)
  }

  ghost function SlotNodes(slots: set<(nat, nat)>): set<nat> {
    set s | s in slots :: s.0
  }

  predicate ValidPlan(cfg: Config, st: State, job: Job, plan: Plan)
    requires ConfigOk(cfg) && Shaped(cfg, st)
  {
    && PlanOk(cfg, plan)
    && GpuTotal(plan) == job.gpuCount
    && forall i :: 0 <= i < |plan| ==>
      && plan[i].jobId == job.id
      && plan[i].mps == (if Fractional(cfg, job) then job.mps else cfg.cap)
      && forall k :: 0 <= k < |plan[i].gpus| ==> SlotOk(cfg, st, job, plan[i].node, plan[i].gpus[k])
  }

  /** Slots a started job holds until it ends. */
  function JobSlots(cfg: Config, job: Job): nat {
    if Fractional(cfg, job) then job.mps else job.gpuCount * cfg.cap
  }

  // ----- Conservation -----

  ghost function HeldBy(st: State, n: nat, g: nat): map<JobId, int> {
    map id | id in st.active :: Held(st.active[id], n, g)
  }

  ghost function RamOn(st: State, n: nat): map<JobId, real> {
    map id | id in st.active && id in st.activeRam && n in NodesOf(st.active[id]) :: st.activeRam[id]
  }

  /** Nothing is lost, nothing is lent twice. */
  ghost predicate Conserved(cfg: Config, st: State) {
    && ConfigOk(cfg) && Shaped(cfg, st)
    && st.active.Keys == st.activeRam.Keys
    && (forall id :: id in st.active ==> PlanOk(cfg, st.active[id]))
    && (forall id :: id in st.activeRam ==> st.activeRam[id] >= 0.0)
    && (forall n, g :: 0 <= n < cfg.nNodes && 0 <= g < cfg.gpusPerNode ==>
          0 <= st.free[n][g] && st.free[n][g] + Sum(HeldBy(st, n, g)) == cfg.cap)
    && (forall n :: 0 <= n < cfg.nNodes ==>
          st.usedRam[n] == SumR(RamOn(st, n)) && st.usedRam[n] <= Budget(cfg, n))
  }

  lemma BudgetNonneg(cfg: Config, n: nat)
    requires ConfigOk(cfg) && n < cfg.nNodes
    ensures Budget(cfg, n) >= 0.0
  {
  }

  lemma InitialConserved(cfg: Config)
    requires ConfigOk(cfg)
    ensures Conserved(cfg, Initial(cfg))
  {
    var st := Initial(cfg);
    forall n, g | 0 <= n < cfg.nNodes && 0 <= g < cfg.gpusPerNode
      ensures st.free[n][g] + Sum(HeldBy(st, n, g)) == cfg.cap
    {
      assert HeldBy(st, n, g) == map[];
    }
    forall n | 0 <= n < cfg.nNodes
      ensures st.usedRam[n] == SumR(RamOn(st, n)) && st.usedRam[n] <= Budget(cfg, n)
    {
      assert RamOn(st, n) == map[];
      BudgetNonneg(cfg, n);
    }
  }

  lemma {:induction false} AddGpusAt(free: seq<seq<int>>, n: nat, gpus: seq<nat>, d: int, k: nat, g: nat)
    requires n < |free| && forall i :: 0 <= i < |gpus| ==> gpus[i] < |free[n]|
    requires forall i, j :: 0 <= i < j < |gpus| ==> gpus[i] != gpus[j]
    requires k < |free| && g < |free[k]|
    ensures AddGpus(free, n, gpus, d)[k][g] == free[k][g] + if k == n && g in gpus then d else 0
  {
    if gpus != [] {
      var m := |gpus| - 1;
      AddGpusAt(free, n, gpus[..m], d, k, g);
      assert gpus == gpus[..m] + [gpus[m]];
    }
  }

  /** Taking or giving back a plan changes each GPU by exactly what the plan holds there. */
  lemma {:induction false} AddPlanAt(cfg: Config, free: seq<seq<int>>, plan: Plan, give: bool, n: nat, g: nat)
    requires GridOk(cfg, free) && PlanOk(cfg, plan)
    requires n < cfg.nNodes && g < cfg.gpusPerNode
    ensures AddPlan(cfg, free, plan, give)[n][g] == free[n][g] + Signed(Held(plan, n, g), give)
  {
    if plan != [] {
      var m := |plan| - 1;
      AddPlanAt(cfg, free, plan[..m], give, n, g);
      var a := plan[m];
      AddGpusAt(AddPlan(cfg, free, plan[..m], give), a.node, a.gpus, Signed(a.mps, give), n, g);
    }
  }

  lemma {:induction false} HeldElsewhere(plan: Plan, n: nat, g: nat)
    requires n !in NodesOf(plan)
    ensures Held(plan, n, g) == 0
  {
    if plan != [] {
      var m := |plan| - 1;
      assert plan[m].node in NodesOf(plan);
      assert NodesOf(plan[..m]) <= NodesOf(plan);
      HeldElsewhere(plan[..m], n, g);
    }
  }

  lemma {:induction false} HeldExact(cfg: Config, plan: Plan, n: nat, g: nat)
    requires PlanOk(cfg, plan)
    ensures Held(plan, n, g) > 0 ==> (n, g) in SlotsOf(plan)
    ensures forall i :: 0 <= i < |plan| && plan[i].node == n ==>
              Held(plan, n, g) == if g in plan[i].gpus then plan[i].mps else 0
  {
    if plan != [] {
      var m := |plan| - 1;
      HeldExact(cfg, plan[..m], n, g);
      assert SlotsOf(plan[..m]) <= SlotsOf(plan);
      if plan[m].node == n {
        assert n !in NodesOf(plan[..m]) by {
          forall a | a in plan[..m] ensures a.node != n {
            var i :| 0 <= i < m && plan[i] == a;
          }
        }
        HeldElsewhere(plan[..m], n, g);
      }
      forall i | 0 <= i < |plan| && plan[i].node == n
        ensures Held(plan, n, g) == if g in plan[i].gpus then plan[i].mps else 0
      {
        if i < m { assert plan[..m][i] == plan[i]; }
      }
    }
  }

  lemma ReserveSlots(cfg: Config, st: State, job: Job, plan: Plan, n: nat, g: nat)
    requires Conserved(cfg, st) && job.id !in st.active
    requires ValidPlan(cfg, st, job, plan)
    requires n < cfg.nNodes && g < cfg.gpusPerNode
    ensures var st' := Reserve(cfg, st, job, plan);
      0 <= st'.free[n][g] && st'.free[n][g] + Sum(HeldBy(st', n, g)) == cfg.cap
  {
    hide Sum, Held, AddPlan, Charge, ValidPlan, ConfigOk;
    HeldAffordable(cfg, st, job, plan, n, g);
    var st' := Reserve(cfg, st, job, plan);
    AddPlanAt(cfg, st.free, plan, false, n, g);
    assert HeldBy(st', n, g) == HeldBy(st, n, g)[job.id := Held(plan, n, g)];
    SumPut(HeldBy(st, n, g), job.id, Held(plan, n, g));
  }

  /** A valid plan holds on a GPU no more than is free there. */
  lemma HeldAffordable(cfg: Config, st: State, job: Job, plan: Plan, n: nat, g: nat)
    requires Conserved(cfg, st) && ValidPlan(cfg, st, job, plan)
    requires n < cfg.nNodes && g < cfg.gpusPerNode
    ensures PlanOk(cfg, plan) && Held(plan, n, g) <= st.free[n][g]
  {
    HeldExact(cfg, plan, n, g);
    if Held(plan, n, g) > 0 {
      var a :| a in plan && g in a.gpus && a.node == n;
      var i :| 0 <= i < |plan| && plan[i] == a;
      var k :| 0 <= k < |a.gpus| && a.gpus[k] == g;
      assert SlotOk(cfg, st, job, plan[i].node, plan[i].gpus[k]);
    }
  }

  lemma ReserveKeeps(cfg: Config, st: State, job: Job, plan: Plan)
    requires Conserved(cfg, st) && job.id !in st.active && job.ram >= 0.0
    requires ValidPlan(cfg, st, job, plan)
    ensures Conserved(cfg, Reserve(cfg, st, job, plan))
  {
    forall n, g | 0 <= n < cfg.nNodes && 0 <= g < cfg.gpusPerNode {
      ReserveSlots(cfg, st, job, plan, n, g);
    }
    forall n | 0 <= n < cfg.nNodes {
      ChargeKeeps(cfg, st, job, plan, n);
    }
  }

  lemma PlanRamOk(cfg: Config, st: State, job: Job, plan: Plan, n: nat)
    requires ConfigOk(cfg) && Shaped(cfg, st) && ValidPlan(cfg, st, job, plan)
    requires n < cfg.nNodes && n in NodesOf(plan)
    ensures RamOk(cfg, st, n, job.ram)
  {
    var a :| a in plan && a.node == n;
    var i :| 0 <= i < |plan| && plan[i] == a;
    assert AllocationOk(cfg, plan[i]);
    assert SlotOk(cfg, st, job, plan[i].node, plan[i].gpus[0]);
  }

  lemma ChargeSum(cfg: Config, st: State, job: Job, plan: Plan, n: nat)
    requires Shaped(cfg, st) && job.id !in st.active && n < cfg.nNodes && PlanOk(cfg, plan)
    ensures var st' := Reserve(cfg, st, job, plan);
      SumR(RamOn(st', n)) == SumR(RamOn(st, n)) + if n in NodesOf(plan) then job.ram else 0.0
  {
    var st' := Reserve(cfg, st, job, plan);
    if n in NodesOf(plan) {
      assert RamOn(st', n) == RamOn(st, n)[job.id := job.ram];
      SumPutR(RamOn(st, n), job.id, job.ram);
    } else {
      assert RamOn(st', n) == RamOn(st, n);
    }
  }

  lemma ChargeKeeps(cfg: Config, st: State, job: Job, plan: Plan, n: nat)
    requires Conserved(cfg, st) && job.id !in st.active && job.ram >= 0.0
    requires ValidPlan(cfg, st, job, plan) && n < cfg.nNodes
    ensures var st' := Reserve(cfg, st, job, plan);
      st'.usedRam[n] == SumR(RamOn(st', n)) && st'.usedRam[n] <= Budget(cfg, n)
  {
    ChargeSum(cfg, st, job, plan, n);
    if n in NodesOf(plan) {
      PlanRamOk(cfg, st, job, plan, n);
    }
  }

  lemma FreeSlots(cfg: Config, st: State, id: JobId, n: nat, g: nat)
    requires Conserved(cfg, st) && id in st.active
    requires n < cfg.nNodes && g < cfg.gpusPerNode
    ensures var st' := Free(cfg, st, id);
      0 <= st'.free[n][g] && st'.free[n][g] + Sum(HeldBy(st', n, g)) == cfg.cap
  {
    hide Sum, Held, AddPlan, Refund, ConfigOk;
    var st' := Free(cfg, st, id);
    var plan := st.active[id];
    AddPlanAt(cfg, st.free, plan, true, n, g);
    SumTake(HeldBy(st, n, g), id);
    assert HeldBy(st', n, g) == HeldBy(st, n, g) - {id};
  }

  /** The refund is exact: the clamp at zero never fires. */
  lemma RefundExact(cfg: Config, st: State, id: JobId, n: nat)
    requires Conserved(cfg, st) && id in st.active && n in NodesOf(st.active[id]) && n < cfg.nNodes
    ensures st.usedRam[n] - st.activeRam[id] >= 0.0
    ensures Free(cfg, st, id).usedRam[n] == st.usedRam[n] - st.activeRam[id]
    ensures Free(cfg, st, id).usedRam[n] == SumR(RamOn(Free(cfg, st, id), n))
  {
    SumTakeR(RamOn(st, n), id);
    SumNonnegR(RamOn(st, n) - {id});
    assert RamOn(Free(cfg, st, id), n) == RamOn(st, n) - {id};
  }

  lemma FreeKeeps(cfg: Config, st: State, id: JobId)
    requires Conserved(cfg, st)
    ensures Conserved(cfg, Free(cfg, st, id))
  {
    if id in st.active {
      var st' := Free(cfg, st, id);
      forall n, g | 0 <= n < cfg.nNodes && 0 <= g < cfg.gpusPerNode {
        FreeSlots(cfg, st, id, n, g);
      }
      forall n | 0 <= n < cfg.nNodes
        ensures st'.usedRam[n] == SumR(RamOn(st', n)) && st'.usedRam[n] <= Budget(cfg, n)
      {
        if n in NodesOf(st.active[id]) {
          RefundExact(cfg, st, id, n);
        } else {
          assert RamOn(st', n) == RamOn(st, n);
        }
      }
    }
  }

  /** An idle conserved cluster is the initial one. */
  lemma IdleIsInitial(cfg: Config, st: State)
    requires Conserved(cfg, st) && st.active == map[]
    ensures st == Initial(cfg)
  {
    forall n, g | 0 <= n < cfg.nNodes && 0 <= g < cfg.gpusPerNode
      ensures st.free[n][g] == cfg.cap
    {
      assert HeldBy(st, n, g) == map[];
    }
    forall n | 0 <= n < cfg.nNodes
      ensures st.usedRam[n] == 0.0
    {
      assert RamOn(st, n) == map[];
    }
    assert st.free == Initial(cfg).free by {
      forall n | 0 <= n < cfg.nNodes ensures st.free[n] == Initial(cfg).free[n] {}
    }
    assert st.activeRam == map[];
  }

  // ----- Runs of the allocator -----

  datatype Op = Allocate(job: Job, plan: Plan) | Release(id: JobId)

  /** One allocator call: a granted allocation of a fresh job, or a release of any id. */
  ghost predicate OpStep(cfg: Config, st: State, op: Op, st': State) {
    && ConfigOk(cfg) && Shaped(cfg, st)
    && match op
       case Allocate(job, plan) =>
         && job.id !in st.active && job.ram >= 0.0
         && ValidPlan(cfg, st, job, plan) && st' == Reserve(cfg, st, job, plan)
       case Release(id) =>
         (id in st.active ==> PlanOk(cfg, st.active[id])) && st' == Free(cfg, st, id)
  }

  ghost predicate Run(cfg: Config, states: seq<State>, ops: seq<Op>) {
    && |states| == |ops| + 1
    && forall i :: 0 <= i < |ops| ==> OpStep(cfg, states[i], ops[i], states[i + 1])
  }

  /** Conservation over every interleaving of allocations and releases; and whenever the last
      active job has gone, in whatever order they went, the cluster is the initial one again. */
  lemma {:induction false} RunConserves(cfg: Config, states: seq<State>, ops: seq<Op>)
    requires ConfigOk(cfg) && Run(cfg, states, ops) && states[0] == Initial(cfg)
    ensures Conserved(cfg, states[|ops|])
    ensures states[|ops|].active == map[] ==> states[|ops|] == Initial(cfg)
  {
    if ops == [] {
      InitialConserved(cfg);
    } else {
      var n := |ops| - 1;
      assert Run(cfg, states[..n + 1], ops[..n]) by {
        forall i | 0 <= i < n ensures OpStep(cfg, states[..n + 1][i], ops[..n][i], states[..n + 1][i + 1]) {
          assert OpStep(cfg, states[i], ops[i], states[i + 1]);
        }
      }
      RunConserves(cfg, states[..n + 1], ops[..n]);
      assert OpStep(cfg, states[n], ops[n], states[n + 1]);
      match ops[n]
      case Allocate(job, plan) => ReserveKeeps(cfg, states[n], job, plan);
      case Release(id) => FreeKeeps(cfg, states[n], id);
    }
    if states[|ops|].active == map[] {
      IdleIsInitial(cfg, states[|ops|]);
    }
  }
}
