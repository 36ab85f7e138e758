/** The scheduling environment: the simulator's cluster and event queue, driven by a policy that picks one
    job of the window and one placement at a time. */
module GymEnv {
  import opened Wrappers
  import opened Sums
  import opened Sorting
  import opened ClusterModel
  import opened ClusterPlanning
  import ClusterObject
  import opened SimModel
  import opened SimRun
  import Runner
  import opened GymActions

  /** The realised runtime of a job, whatever noise, interference or node speed do to it. */
  type Realized = (nat, Job, Plan, State) -> real

  ghost predicate Positive(realized: Realized) {
    forall k: nat, job: Job, plan: Plan, st: State :: realized(k, job, plan, st) > 0.0
  }

  function Window(pending: seq<Job>, topK: nat): seq<Job> {
    var sorted := Sort(Runner.SubmitLe, pending);
    sorted[..if |sorted| < topK then |sorted| else topK]
  }

  /** What a job asks for is at least one slot, and so is a GPU. */
  ghost predicate AskForSlots(cfg: Config, jobs: Trace) {
    cfg.cap >= 1 && forall id :: id in jobs ==> jobs[id].mps >= 1
  }

  // ----- Sharing -----

  /** Other active jobs that hold a GPU of the plan. */
  ghost function CoResidents(st: State, plan: Plan, id: JobId): set<JobId> {
    set other | other in st.active && other != id && SlotsOf(st.active[other]) * SlotsOf(plan) != {}
  }

  /** Every active allocation holds slots. */
  ghost predicate HoldsSlots(st: State) {
    forall id, i :: id in st.active && 0 <= i < |st.active[id]| ==> st.active[id][i].mps >= 1
  }

  /** Nobody is on an idle GPU. */
  lemma IdleMeansAlone(cfg: Config, st: State, id: JobId, n: nat, g: nat)
    requires Conserved(cfg, st) && HoldsSlots(st) && id in st.active
    requires n < cfg.nNodes && g < cfg.gpusPerNode && st.free[n][g] == cfg.cap
    ensures (n, g) !in SlotsOf(st.active[id])
  {
    var plan := st.active[id];
    assert PlanOk(cfg, plan);
    if (n, g) in SlotsOf(plan) {
      var a :| a in plan && a.node == n && g in a.gpus;
      var i :| 0 <= i < |plan| && plan[i] == a;
      HeldExact(cfg, plan, n, g);
      SumTake(HeldBy(st, n, g), id);
      SumNonneg(HeldBy(st, n, g) - {id});
      assert false;
    }
  }

  lemma ReserveHoldsSlots(cfg: Config, st: State, job: Job, plan: Plan)
    requires ConfigOk(cfg) && Shaped(cfg, st) && ValidPlan(cfg, st, job, plan) && HoldsSlots(st)
    requires cfg.cap >= 1 && job.mps >= 1
    ensures HoldsSlots(Reserve(cfg, st, job, plan))
  {
  }

  lemma FreeHoldsSlots(cfg: Config, st: State, id: JobId)
    requires Shaped(cfg, st) && (id in st.active ==> PlanOk(cfg, st.active[id])) && HoldsSlots(st)
    ensures HoldsSlots(Free(cfg, st, id))
  {
  }

  /** A plan made of idle GPUs shares none of them. */
  lemma IdlePlanIsAlone(cfg: Config, st: State, job: Job, plan: Plan)
    requires Conserved(cfg, st) && HoldsSlots(st) && PlanOk(cfg, plan) && job.id !in st.active
    requires forall n: nat, g: nat :: (n, g) in SlotsOf(plan) ==>
      n < cfg.nNodes && g < cfg.gpusPerNode && st.free[n][g] == cfg.cap
    ensures CoResidents(Reserve(cfg, st, job, plan), plan, job.id) == {}
  {
    var after := Reserve(cfg, st, job, plan);
    forall other | other in after.active && other != job.id
      ensures SlotsOf(after.active[other]) * SlotsOf(plan) == {}
    {
      forall s | s in SlotsOf(after.active[other]) && s in SlotsOf(plan)
        ensures false
      {
        IdleMeansAlone(cfg, st, other, s.0, s.1);
      }
    }
  }

  /** A choice that asks for isolation and is legal lands alone: a part of an idle GPU, or whole GPUs, which
      are idle by definition. */
  lemma IsolatedLandsAlone(cfg: Config, st: State, job: Job, plan: Plan, n: nat, g: nat)
    requires Conserved(cfg, st) && HoldsSlots(st) && job.id !in st.active
    requires CanOn(cfg, st, job, n, g) && ValidPlan(cfg, st, job, plan) && st.free[n][g] == cfg.cap
    requires SlotOk(cfg, st, job, n, g) && job.gpuCount > 0 ==> ClusterObject.StartsAt(plan, n, g)
    ensures CoResidents(Reserve(cfg, st, job, plan), plan, job.id) == {}
  {
    forall m: nat, h: nat | (m, h) in SlotsOf(plan)
      ensures m < cfg.nNodes && h < cfg.gpusPerNode && st.free[m][h] == cfg.cap
    {
      var a :| a in plan && a.node == m && h in a.gpus;
      var i :| 0 <= i < |plan| && plan[i] == a;
      var k :| 0 <= k < |a.gpus| && a.gpus[k] == h;
      assert SlotOk(cfg, st, job, plan[i].node, plan[i].gpus[k]);
      if Fractional(cfg, job) {
        OneSlot(cfg, st, job, plan, n, g, m, h);
      }
    }
    IdlePlanIsAlone(cfg, st, job, plan);
  }

  /** The plan of a fractional job starting at a GPU is that GPU. */
  lemma OneSlot(cfg: Config, st: State, job: Job, plan: Plan, n: nat, g: nat, m: nat, h: nat)
    requires ConfigOk(cfg) && Shaped(cfg, st) && ValidPlan(cfg, st, job, plan) && Fractional(cfg, job)
    requires ClusterObject.StartsAt(plan, n, g) && (m, h) in SlotsOf(plan)
    ensures m == n && h == g
  {
    PlanSlotCount(cfg, plan);
    assert (n, g) in SlotsOf(plan) by {
      assert plan[0] in plan && g in plan[0].gpus;
    }
    OneOnly(SlotsOf(plan), (n, g), (m, h));
  }

  lemma OneOnly(s: set<(nat, nat)>, a: (nat, nat), b: (nat, nat))
    requires |s| == 1 && a in s && b in s
    ensures a == b
  {
    assert |s - {a}| == 0;
    assert a != b ==> b in s - {a};
  }

  // ----- What every step keeps -----

  ghost predicate EnvOk(cfg: Config, jobs: Trace, s: Sim) {
    && TraceOk(jobs) && AskForSlots(cfg, jobs) && Staged(cfg, jobs, s) && HoldsSlots(s.cl)
    && forall e :: e in s.events ==> e.t >= s.now
  }

  lemma EnvShape(cfg: Config, jobs: Trace, s: Sim)
    requires EnvOk(cfg, jobs, s)
    ensures Staged(cfg, jobs, s) && Booked(jobs, s) && Conserved(cfg, s.cl) && ConfigOk(cfg) && Shaped(cfg, s.cl)
    ensures QueueOk(s.events) && HoldsSlots(s.cl) && cfg.cap >= 1 && s.records.Keys == jobs.Keys
    ensures forall id :: id in s.cl.active ==> PlanOk(cfg, s.cl.active[id])
    ensures forall j :: j in s.pending ==> j.id in jobs && jobs[j.id] == j && j.id in s.records
    ensures forall j :: j in s.pending ==> j.ram >= 0.0 && j.mps >= 1 && j.id !in s.cl.active
    ensures s.events != [] ==> s.events[0].id in jobs && s.events[0].id in s.records && s.events[0].t >= s.now
  {
    StagedShape(cfg, jobs, s);
    forall j | j in s.pending ensures j.id !in s.cl.active {
      assert j.id in JobIds(s.pending);
    }
    if s.events != [] {
      EventIdKnown(cfg, jobs, s);
      assert s.events[0] in s.events;
    }
  }

  ghost function DoneCount(s: Sim): nat {
    |DoneIds(s.records)|
  }

  lemma TailLater(events: seq<Event>)
    requires QueueOk(events) && events != []
    ensures forall x :: x in events[1..] ==> x.t >= events[0].t
  {
    forall x | x in events[1..] ensures x.t >= events[0].t {
      var i :| 0 <= i < |events| - 1 && events[1..][i] == x;
      assert EventLe(events[0], events[i + 1]);
    }
  }

  lemma OneMoreDone(cfg: Config, jobs: Trace, s: Sim)
    requires Staged(cfg, jobs, s) && s.events != [] && s.events[0].kind == End
    requires Shaped(cfg, s.cl) && s.events[0].id in jobs && s.events[0].id in s.records
    requires s.events[0].id in s.cl.active ==> PlanOk(cfg, s.cl.active[s.events[0].id])
    ensures DoneCount(HandleEvent(cfg, jobs, s)) == DoneCount(s) + 1
  {
    hide Conserved, SlotsKnown, QueueOk, DistinctJobs, JobsKnown, StartsKnown, Free, Shaped, PlanOk;
    var id, t := s.events[0].id, s.events[0].t;
    EventIdKnown(cfg, jobs, s);
    assert id !in DoneIds(s.records);
    DoneAfter(s.records, id, s.records[id].(end := Some(t)));
  }

  lemma HandleKeepsEnv(cfg: Config, jobs: Trace, s: Sim)
    requires EnvOk(cfg, jobs, s) && s.events != [] && Shaped(cfg, s.cl)
    requires s.events[0].id in jobs && s.events[0].id in s.records
    requires s.events[0].id in s.cl.active ==> PlanOk(cfg, s.cl.active[s.events[0].id])
    ensures EnvOk(cfg, jobs, HandleEvent(cfg, jobs, s)) && HandleEvent(cfg, jobs, s).now >= s.now
    ensures Load(HandleEvent(cfg, jobs, s)) == Load(s) - 1
    ensures DoneCount(HandleEvent(cfg, jobs, s)) == DoneCount(s) + if s.events[0].kind == End then 1 else 0
  {
    hide TraceOk, AskForSlots, Staged, HoldsSlots, Free, PlanOk, Shaped, Load, DoneIds;
    EnvShape(cfg, jobs, s);
    HandleKeepsStages(cfg, jobs, s);
    HandleLightens(cfg, jobs, s);
    TailLater(s.events);
    FreeHoldsSlots(cfg, s.cl, s.events[0].id);
    if s.events[0].kind == End {
      OneMoreDone(cfg, jobs, s);
    }
  }

  lemma NoneDone(s: Sim, id: JobId, start: real)
    requires id in s.records && s.records[id].end.None?
    ensures DoneIds(s.records[id := s.records[id].(start := Some(start))]) == DoneIds(s.records)
  {
    DoneAfter(s.records, id, s.records[id].(start := Some(start)));
  }

  lemma DispatchKeepsEnv(cfg: Config, jobs: Trace, s: Sim, job: Job, plan: Plan, latency: real)
    requires EnvOk(cfg, jobs, s) && job in s.pending && job.id in s.records && latency + job.runtime >= 0.0
    requires Shaped(cfg, s.cl) && ConfigOk(cfg) && PlanOk(cfg, plan) && ValidPlan(cfg, s.cl, job, plan)
    ensures EnvOk(cfg, jobs, Dispatch(cfg, s, job, plan, latency))
    ensures Load(Dispatch(cfg, s, job, plan, latency)) == Load(s) - 1
    ensures DoneCount(Dispatch(cfg, s, job, plan, latency)) == DoneCount(s)
  {
    hide TraceOk, AskForSlots, Staged, HoldsSlots, Reserve, PlanOk, Shaped, Load, ValidPlan, Remove, Push, DoneIds,
         ConfigOk;
    EnvShape(cfg, jobs, s);
    DispatchKeepsStages(cfg, jobs, s, job, plan, latency);
    DispatchLightens(cfg, jobs, s, job, plan, latency);
    PushElems(s.events, Event(s.now + latency + job.runtime, s.nextSeq, End, job.id));
    ReserveHoldsSlots(cfg, s.cl, job, plan);
    PendingOpen(jobs, s, job);
    NoneDone(s, job.id, s.now + latency);
  }

  lemma PendingOpen(jobs: Trace, s: Sim, job: Job)
    requires Booked(jobs, s) && job in s.pending && job.id in s.records
    ensures s.records[job.id].end.None?
  {
    assert job.id in JobIds(s.pending);
    assert job.id !in DoneIds(s.records);
  }

  // ----- Legal choices -----

  ghost predicate LegalChoice(cfg: Config, st: State, top: seq<Job>, c: Choice)
    requires ConfigOk(cfg) && Shaped(cfg, st)
  {
    && c.job < |top| && CanOn(cfg, st, top[c.job], c.node, c.gpu)
    && (c.mode == MODE_ISOLATE ==> st.free[c.node][c.gpu] == cfg.cap)
  }

  ghost predicate HasShape(sh: Shape) {
    sh.nNodes > 0 && sh.gpusPerNode > 0 && sh.nModes > 0
  }

  /** What the mask allows. */
  ghost predicate Legal(cfg: Config, st: State, sh: Shape, top: seq<Job>, a: nat)
    requires ConfigOk(cfg) && Shaped(cfg, st)
  {
    a == NoOp(sh) || (a < NoOp(sh) && HasShape(sh) && LegalChoice(cfg, st, top, Decode(sh, a)))
  }

  /** What a step can schedule. */
  ghost predicate Schedules(cfg: Config, st: State, sh: Shape, top: seq<Job>, a: nat)
    requires ConfigOk(cfg) && Shaped(cfg, st)
  {
    && a < NoOp(sh) && HasShape(sh)
    && var c := Decode(sh, a); c.job < |top| && CanOn(cfg, st, top[c.job], c.node, c.gpu)
  }

  /** The mask allows no more than can be scheduled, and all of it in packing mode - which, with one mode per
      placement, is the only one; in isolating mode only what goes to an idle GPU. */
  lemma MaskMeansSchedulable(cfg: Config, st: State, sh: Shape, top: seq<Job>, a: nat)
    requires ConfigOk(cfg) && Shaped(cfg, st) && a < NoOp(sh)
    ensures Legal(cfg, st, sh, top, a) ==> Schedules(cfg, st, sh, top, a)
    ensures Schedules(cfg, st, sh, top, a) ==>
              var c := Decode(sh, a);
              Legal(cfg, st, sh, top, a) <==> c.mode != MODE_ISOLATE || st.free[c.node][c.gpu] == cfg.cap
    ensures sh.nModes == 1 ==> (Legal(cfg, st, sh, top, a) <==> Schedules(cfg, st, sh, top, a))
  {
    EncodeDecode(sh, a);
  }

  lemma SomethingLegal(cfg: Config, st: State, sh: Shape, top: seq<Job>, job: Job) returns (a: nat)
    requires ConfigOk(cfg) && Shaped(cfg, st) && Feasible(cfg, st, job) && top != [] && top[0] == job
    requires job.gpuCount > 0 || (cfg.nNodes > 0 && cfg.gpusPerNode > 0)
    requires sh.nNodes == cfg.nNodes && sh.gpusPerNode == cfg.gpusPerNode && sh.nModes > 0 && sh.topK > 0
    ensures a < NoOp(sh) && Legal(cfg, st, sh, top, a)
  {
    PlannersAgree(cfg, st, job);
    var n: nat, g: nat :| CanOn(cfg, st, job, n, g);
    var c := Choice(0, n, g, MODE_PACK);
    DecodeEncode(sh, c);
    a := Code(sh, c);
  }

  // ----- The environment -----

  /** Either a pending job fits, or nothing is left to happen. */
  ghost predicate AtDecision(cfg: Config, s: Sim) {
    && ConfigOk(cfg) && Shaped(cfg, s.cl)
    && (s.events == [] || exists j :: j in s.pending && Feasible(cfg, s.cl, j))
  }

  /** From s to s' events happened one by one, each while no pending job fitted. */
  ghost predicate Drifts(cfg: Config, jobs: Trace, states: seq<Sim>, s: Sim, s': Sim) {
    && states != [] && states[0] == s && states[|states| - 1] == s'
    && forall k :: 0 <= k < |states| - 1 ==>
         NobodyFits(cfg, states[k]) && Runner.EventHandled(cfg, jobs, states[k], states[k + 1])
  }

  ghost predicate NobodyFits(cfg: Config, s: Sim) {
    ConfigOk(cfg) && Shaped(cfg, s.cl) && forall j :: j in s.pending ==> !Feasible(cfg, s.cl, j)
  }

  lemma NoDrift(cfg: Config, jobs: Trace, s: Sim)
    ensures Drifts(cfg, jobs, [s], s, s)
  {
  }

  lemma DriftOn(cfg: Config, jobs: Trace, states: seq<Sim>, first: Sim, s: Sim, s': Sim)
    requires Drifts(cfg, jobs, states, first, s) && Runner.EventHandled(cfg, jobs, s, s')
    requires ConfigOk(cfg) && Shaped(cfg, s.cl) && forall j :: j in s.pending ==> !Feasible(cfg, s.cl, j)
    ensures Drifts(cfg, jobs, states + [s'], first, s')
  {
    hide Runner.EventHandled, Feasible;
  }

  lemma DriftStarts(cfg: Config, jobs: Trace, states: seq<Sim>)
    ensures forall s, s' :: Drifts(cfg, jobs, states, s, s') ==> states != [] && states[0] == s
  {
  }

  /** Every job fits the empty cluster, on a GPU if it can name one. */
  ghost predicate FitsAll(cfg: Config, jobs: Trace) {
    ConfigOk(cfg) && forall id :: id in jobs ==>
      Feasible(cfg, Initial(cfg), jobs[id]) && (jobs[id].gpuCount > 0 || (cfg.nNodes > 0 && cfg.gpusPerNode > 0))
  }

  lemma WindowFacts(pending: seq<Job>, topK: nat)
    ensures forall j :: j in Window(pending, topK) ==> j in pending
    ensures pending != [] && topK > 0 ==> Window(pending, topK) != []
    ensures |Window(pending, topK)| <= topK
  {
    PermutesElems(pending, Sort(Runner.SubmitLe, pending));
  }

  /** Distinct jobs that ask for something and are submitted after time zero. */
  ghost predicate Sensible(trace: seq<Job>) {
    DistinctJobs(trace) && forall j :: j in trace ==> j.ram >= 0.0 && j.mps >= 1 && j.submit >= 0.0
  }

  /** One submit event per job and nothing else. */
  ghost predicate QueueOf(trace: seq<Job>, events: seq<Event>) {
    && QueueOk(events) && Ids(events, Submit) == JobIds(trace) && Ids(events, End) == {}
    && forall e :: e in events ==> exists j :: j in trace && e.id == j.id && e.t == j.submit && e.kind == Submit
  }

  method SubmitAll(trace: seq<Job>) returns (events: seq<Event>, n: nat)
    requires Sensible(trace)
    ensures QueueOf(trace, events)
  {
    hide QueueOk, Ids, JobIds, DistinctJobs, Permutes, Sort;
    var sorted := Sort(Runner.SubmitLe, trace);
    events, n := Runner.SubmitEvents(trace, sorted);
    PermutesElems(trace, sorted);
    forall e | e in events
      ensures exists j :: j in trace && e.id == j.id && e.t == j.submit && e.kind == Submit
    {
      assert Runner.Numbers(sorted, e) && sorted[e.seqNo] in sorted;
    }
  }

  class KubefluxSchedEnv {
    const cfg: Config
    const jobs: Trace
    const sh: Shape
    const realized: Realized
    const maxSteps: nat
    const cluster: ClusterObject.Cluster
    var pending: seq<Job>
    var events: seq<Event>
    var nextSeq: nat
    var now: real
    var completed: nat
    var stepCount: nat
    ghost var records: map<JobId, Record>
    ghost var dispatched: map<JobId, real>

    ghost function View(): Sim
      reads this, cluster
    {
      Sim(cluster.View(), pending, events, nextSeq, now, records, dispatched)
    }

    ghost predicate Valid()
      reads this, cluster
    {
      && cluster.cfg == cfg && Positive(realized)
      && sh.nNodes == cfg.nNodes && sh.gpusPerNode == cfg.gpusPerNode && sh.nModes > 0 && sh.topK > 0
      && EnvOk(cfg, jobs, View()) && completed == DoneCount(View())
    }

    /** `reset`: a fresh cluster, one submit event per job, and on to the first decision. */
    constructor (cfg: Config, trace: seq<Job>, topK: nat, colocation: bool, realized: Realized, maxSteps: nat)
      requires ConfigOk(cfg) && Positive(realized) && topK > 0 && cfg.cap >= 1 && Sensible(trace)
      ensures Valid() && AtDecision(cfg, View()) && Load(View()) <= 3 * |trace|
      ensures this.cfg == cfg && jobs == Runner.ById(trace) && |jobs| == |trace| && stepCount == 0 && fresh(cluster)
      ensures this.sh == Shape(cfg.nNodes, cfg.gpusPerNode, topK, if colocation then 2 else 1)
    {
      hide EnvOk, QueueOf, Conserved, Positive, Load, DoneCount, Sensible, AtDecision, Initial, ConfigOk, Drifts,
           Runner.ById, Shaped, Feasible;
      this.cfg, this.realized, this.maxSteps := cfg, realized, maxSteps;
      sh := Shape(cfg.nNodes, cfg.gpusPerNode, topK, if colocation then 2 else 1);
      jobs := Runner.ById(trace);
      records := map id | id in Runner.ById(trace) :: Record(None, None);
      pending, now, completed, stepCount, dispatched := [], 0.0, 0, 0, map[];
      var queue, n := SubmitAll(trace);
      events, nextSeq := queue, n;
      cluster := new ClusterObject.Cluster(cfg);
      new;
      FreshEnv(cfg, trace, jobs, View());
      var _ := AdvanceToDecision();
    }

    // ----- Events -----

    /** Pop the least event and apply it. */
    method PopEvent()
      requires Valid() && events != []
      modifies this`events, this`now, this`pending, this`completed, this`records, cluster
      ensures Valid() && Load(View()) == old(Load(View())) - 1 && now >= old(now)
      ensures Runner.EventHandled(cfg, jobs, old(View()), View())
    {
      hide EnvOk, Load, DoneCount, Positive, Shaped, HandleEvent, PlanOk, Booked, Staged, Conserved, ConfigOk;
      ghost var s := View();
      EnvShape(cfg, jobs, s);
      HandleKeepsEnv(cfg, jobs, s);
      TakeEvent(s);
    }

    /** The event as the environment applies it. */
    method TakeEvent(ghost s: Sim)
      requires cluster.cfg == cfg && cluster.Valid() && s == View() && events != []
      requires Shaped(cfg, s.cl) && events[0].id in jobs && events[0].id in records
      requires events[0].id in s.cl.active ==> PlanOk(cfg, s.cl.active[events[0].id])
      modifies this`events, this`now, this`pending, this`completed, this`records, cluster
      ensures View() == HandleEvent(cfg, jobs, s) && cluster.Valid()
      ensures completed == old(completed) + if s.events[0].kind == End then 1 else 0
    {
      hide Shaped, PlanOk, Conserved, Free;
      var e := events[0];
      events := events[1..];
      now := e.t;
      match e.kind
      case Submit =>
        pending := pending + [jobs[e.id]];
      case End =>
        cluster.Release(e.id);
        completed := completed + 1;
        records := records[e.id := records[e.id].(end := Some(now))];
    }

    /** Does any pending job fit right now? */
    method AnyFits() returns (any: bool)
      requires Valid()
      ensures ConfigOk(cfg) && Shaped(cfg, cluster.View())
      ensures any <==> exists j :: j in pending && Feasible(cfg, cluster.View(), j)
    {
      hide EnvOk, DoneCount, Positive, Feasible;
      EnvShape(cfg, jobs, View());
      for i := 0 to |pending|
        invariant forall k :: 0 <= k < i ==> !Feasible(cfg, cluster.View(), pending[k])
      {
        var ok := cluster.CanAllocate(pending[i]);
        if ok {
          return true;
        }
      }
      return false;
    }

    /** Let events happen until a pending job fits or there are none left. */
    method AdvanceToDecision() returns (ghost states: seq<Sim>)
      requires Valid()
      modifies this`events, this`now, this`pending, this`completed, this`records, cluster
      ensures Valid() && AtDecision(cfg, View())
      ensures Load(View()) <= old(Load(View())) && now >= old(now)
      ensures Drifts(cfg, jobs, states, old(View()), View())
    {
      hide EnvOk, Load, DoneCount, Positive, Feasible, ConfigOk, Shaped, Drifts, Runner.EventHandled;
      EnvShape(cfg, jobs, View());
      states := [View()];
      NoDrift(cfg, jobs, View());
      while events != []
        invariant Valid() && Load(View()) <= old(Load(View())) && now >= old(now)
        invariant ConfigOk(cfg) && Shaped(cfg, cluster.View()) && Drifts(cfg, jobs, states, old(View()), View())
        decreases Load(View())
      {
        var any := AnyFits();
        if any {
          return;
        }
        ghost var s := View();
        PopEvent();
        DriftOn(cfg, jobs, states, old(View()), s, View());
        states := states + [View()];
        EnvShape(cfg, jobs, View());
      }
    }

    // ----- The mask -----

    /** The mask: exactly the legal actions, doing nothing always among them. */
    method ActionMask() returns (mask: array<bool>)
      requires Valid()
      ensures fresh(mask) && mask.Length == NoOp(sh) + 1
      ensures ConfigOk(cfg) && Shaped(cfg, cluster.View())
      ensures forall a: nat :: a < mask.Length ==>
                (mask[a] <==> Legal(cfg, cluster.View(), sh, Window(pending, sh.topK), a))
    {
      hide EnvOk, DoneCount, Positive, Filled, CanOn, Conserved, ConfigOk, Shaped, Legal, NoOp, Window;
      ghost var st := cluster.View();
      EnvShape(cfg, jobs, View());
      var top := Window(pending, sh.topK);
      WindowFacts(pending, sh.topK);
      mask := new bool[NoOp(sh) + 1](_ => false);
      NothingAllowed(cfg, st, sh, top, mask[..]);
      for i := 0 to |top|
        invariant Filled(cfg, st, sh, top, mask[..], i, 0, 0)
      {
        for n := 0 to sh.nNodes
          invariant Filled(cfg, st, sh, top, mask[..], i, n, 0)
        {
          for g := 0 to sh.gpusPerNode
            invariant Filled(cfg, st, sh, top, mask[..], i, n, g)
          {
            AllowPlacement(mask, top, i, n, g);
          }
          NextNode(cfg, st, sh, top, mask[..], i, n);
        }
        NextJob(cfg, st, sh, top, mask[..], i);
      }
      MaskComplete(cfg, st, sh, top, mask[..]);
      mask[NoOp(sh)] := true;
    }

    /** Allow what is legal for one job on one GPU. */
    method AllowPlacement(mask: array<bool>, top: seq<Job>, i: nat, n: nat, g: nat)
      requires Valid() && i < |top| <= sh.topK && n < sh.nNodes && g < sh.gpusPerNode
      requires mask.Length == NoOp(sh) + 1 && Filled(cfg, cluster.View(), sh, top, mask[..], i, n, g)
      modifies mask
      ensures Filled(cfg, cluster.View(), sh, top, mask[..], i, n, g + 1)
    {
      hide EnvOk, DoneCount, Positive, Filled, CanOn, Conserved, ConfigOk, Shaped, Legal, NoOp, Code, LegalChoice,
           InRange;
      ghost var st := cluster.View();
      EnvShape(cfg, jobs, View());
      var fits := cluster.CanAllocateOn(top[i], n, g);
      if fits {
        var idle := GpuIdle(n, g);
        for m := 0 to sh.nModes
          invariant Filled(cfg, st, sh, top, mask[..], i, n, g)
          invariant forall k: nat :: k < m ==> Covers(cfg, st, sh, top, mask[..], Choice(i, n, g, k))
        {
          var c := Choice(i, n, g, m);
          if m != MODE_ISOLATE || idle {
            AllowOne(cfg, st, sh, top, mask[..], c);
            ghost var before := mask[..];
            mask[Code(sh, c)] := true;
            assert mask[..] == before[Code(sh, c) := true];
          } else {
            NotAllowed(cfg, st, sh, top, mask[..], c);
          }
        }
      } else {
        NeverAllowed(cfg, st, sh, top, mask[..], i, n, g);
      }
      NextGpu(cfg, st, sh, top, mask[..], i, n, g);
    }

    method GpuIdle(n: nat, g: nat) returns (idle: bool)
      requires Valid() && n < sh.nNodes && g < sh.gpusPerNode
      ensures ConfigOk(cfg) && Shaped(cfg, cluster.View())
      ensures n < |cluster.View().free| && g < |cluster.View().free[n]|
      ensures idle <==> cluster.View().free[n][g] == cfg.cap
    {
      hide EnvOk, DoneCount, Positive, Conserved;
      EnvShape(cfg, jobs, View());
      idle := cluster.free[n][g] == cfg.cap;
    }

    // ----- Steps -----

    /** Start a job where the policy wants it, if it goes there. */
    method Place(chosen: Job, node: nat, gpu: nat) returns (placed: bool, ghost plan: Plan)
      requires Valid() && chosen in pending
      modifies this`pending, this`events, this`nextSeq, this`records, this`dispatched, cluster
      ensures Valid() && Load(View()) == old(Load(View())) - (if placed then 1 else 0)
      ensures !placed ==> View() == old(View())
      ensures Landed(cfg, old(cluster.View()), chosen, node, gpu, placed, plan, cluster.View())
    {
      hide EnvOk, Load, DoneCount, Positive, Reserve, PlanOk, ValidPlan, Shaped, Conserved, ConfigOk, Remove, Push,
           CanOn, SlotOk, ClusterObject.StartsAt, ClusterObject.HomeFirst;
      ghost var s := View();
      EnvShape(cfg, jobs, s);
      var found := cluster.TryAllocateOn(chosen, node, gpu);
      placed := found.Some?;
      plan := [];
      if placed {
        plan := found.value;
        Runner.ValidPlanOk(cfg, s.cl, chosen, plan);
        var runtime := RecordStart(chosen, found.value, s);
        DispatchKeepsEnv(cfg, jobs, s, chosen, plan, runtime - chosen.runtime);
      }
    }

    /** The bookkeeping of a start: out of the queue, and its end among the events. */
    method RecordStart(chosen: Job, plan: Plan, ghost s: Sim) returns (runtime: real)
      requires cluster.cfg == cfg && Positive(realized)
      requires Shaped(cfg, s.cl) && PlanOk(cfg, plan) && chosen.id in s.records
      requires View() == s.(cl := Reserve(cfg, s.cl, chosen, plan))
      modifies this`pending, this`events, this`nextSeq, this`records, this`dispatched
      ensures runtime > 0.0 && View() == Dispatch(cfg, s, chosen, plan, runtime - chosen.runtime)
    {
      hide Shaped, PlanOk, Reserve, Push, Remove, Positive;
      runtime := realized(nextSeq, chosen, plan, cluster.View());
      RuntimePositive(realized, nextSeq, chosen, plan, cluster.View());
      pending := Remove(pending, chosen);
      events := Push(events, Event(now + runtime, nextSeq, End, chosen.id));
      nextSeq := nextSeq + 1;
      ghost var start := now + (runtime - chosen.runtime);
      records := records[chosen.id := records[chosen.id].(start := Some(start))];
      dispatched := dispatched[chosen.id := now];
      assert now + runtime == start + chosen.runtime;
    }

    /** One step: start the job chosen, or else let one event happen; then on to the next decision. */
    method Step(a: nat)
      returns (scheduled: bool, terminated: bool, truncated: bool, ghost plan: Plan, ghost landed: State,
               ghost states: seq<Sim>)
      requires Valid() && a <= NoOp(sh)
      modifies this, cluster
      ensures Valid() && AtDecision(cfg, View()) && now >= old(now) && stepCount == old(stepCount) + 1
      ensures ConfigOk(cfg) && Shaped(cfg, old(cluster.View()))
      ensures scheduled <==> Schedules(cfg, old(cluster.View()), sh, old(Window(pending, sh.topK)), a)
      ensures scheduled ==> LandsAlone(cfg, old(cluster.View()), sh, old(Window(pending, sh.topK)), a, plan, landed)
      ensures states != [] && Drifts(cfg, jobs, states, states[0], View())
      ensures scheduled ==> states[0].cl == landed && states[0].now == old(now)
      ensures !scheduled && old(events) != [] ==> Runner.EventHandled(cfg, jobs, old(View()), states[0])
      ensures !scheduled && old(events) == [] ==> states[0] == old(View())
      ensures Load(View()) <= old(Load(View())) - (if scheduled || old(events) != [] then 1 else 0)
      ensures terminated <==> completed >= |jobs| && events == []
      ensures truncated <==> stepCount >= maxSteps
    {
      hide EnvOk, Load, DoneCount, Positive, Landed, LandsAlone, Shaped, ConfigOk, AtDecision, CanOn, Window, NoOp,
           Decode, Drifts, Runner.EventHandled;
      ghost var st := cluster.View();
      EnvShape(cfg, jobs, View());
      stepCount := stepCount + 1;
      var top := Window(pending, sh.topK);
      WindowFacts(pending, sh.topK);
      scheduled, plan, landed := false, [], st;
      if a != NoOp(sh) {
        EncodeDecode(sh, a);
        var c := Decode(sh, a);
        if c.job < |top| {
          scheduled, plan := Place(top[c.job], c.node, c.gpu);
          landed := cluster.View();
          LandedMeans(cfg, st, sh, top, a, scheduled, plan, landed);
        }
      }
      if !scheduled && events != [] {
        PopEvent();
      }
      states := AdvanceToDecision();
      DriftStarts(cfg, jobs, states);
      terminated := completed >= |jobs| && events == [];
      truncated := stepCount >= maxSteps;
    }

    /** A whole episode under any policy that does nothing only when nothing is legal: every job is done
        within three steps per job, and the cluster is pristine again. */
    method Episode(policy: (nat, seq<bool>) -> nat) returns (steps: nat)
      requires Valid() && AtDecision(cfg, View()) && Load(View()) <= 3 * |jobs|
      requires FitsAll(cfg, jobs) && NonIdling(policy, NoOp(sh))
      modifies this, cluster
      ensures completed == |jobs| && events == [] && pending == [] && cluster.View() == Initial(cfg)
      ensures steps <= 3 * |jobs| && now >= old(now)
    {
      hide EnvOk, Load, DoneCount, Positive, Shaped, ConfigOk, AtDecision, NoOp, FitsAll, NonIdling, Legal, Schedules,
           Drifts, Runner.EventHandled, LandsAlone, Initial, Window;
      steps := 0;
      var over := completed >= |jobs| && events == [];
      while !over
        invariant Valid() && AtDecision(cfg, View()) && now >= old(now)
        invariant steps + Load(View()) <= 3 * |jobs|
        invariant over <==> completed >= |jobs| && events == []
        decreases Load(View())
      {
        ghost var s := View();
        var mask := ActionMask();
        var a := policy(steps, mask[..]);
        MovesOn(cfg, jobs, s, sh, policy, steps, mask[..], a);
        var scheduled, terminated, truncated;
        ghost var plan, landed, states;
        scheduled, terminated, truncated, plan, landed, states := Step(a);
        over := terminated;
        steps := steps + 1;
      }
      Finished(cfg, jobs, View());
    }
  }

  /** No action is allowed that is not legal. */
  ghost predicate Sound(cfg: Config, st: State, sh: Shape, top: seq<Job>, mask: seq<bool>)
    requires ConfigOk(cfg) && Shaped(cfg, st)
  {
    forall a: nat :: a < |mask| && mask[a] ==> Legal(cfg, st, sh, top, a)
  }

  /** If the choice is legal, its action is allowed. */
  ghost predicate Covers(cfg: Config, st: State, sh: Shape, top: seq<Job>, mask: seq<bool>, c: Choice)
    requires ConfigOk(cfg) && Shaped(cfg, st)
  {
    InRange(sh, c) && LegalChoice(cfg, st, top, c) ==> Code(sh, c) < |mask| && mask[Code(sh, c)]
  }

  /** The choices a mask under construction has dealt with. */
  predicate Before(c: Choice, i: nat, n: nat, g: nat) {
    c.job < i || (c.job == i && (c.node < n || (c.node == n && c.gpu < g)))
  }

  ghost predicate Filled(cfg: Config, st: State, sh: Shape, top: seq<Job>, mask: seq<bool>, i: nat, n: nat, g: nat) {
    && ConfigOk(cfg) && Shaped(cfg, st) && |mask| == NoOp(sh) + 1 && |top| <= sh.topK
    && Sound(cfg, st, sh, top, mask)
    && forall c: Choice :: Before(c, i, n, g) ==> Covers(cfg, st, sh, top, mask, c)
  }

  lemma NothingAllowed(cfg: Config, st: State, sh: Shape, top: seq<Job>, mask: seq<bool>)
    requires ConfigOk(cfg) && Shaped(cfg, st) && |mask| == NoOp(sh) + 1 && |top| <= sh.topK
    requires forall a :: 0 <= a < |mask| ==> !mask[a]
    ensures Filled(cfg, st, sh, top, mask, 0, 0, 0)
  {
  }

  lemma NextGpu(cfg: Config, st: State, sh: Shape, top: seq<Job>, mask: seq<bool>, i: nat, n: nat, g: nat)
    requires Filled(cfg, st, sh, top, mask, i, n, g)
    requires ConfigOk(cfg) && Shaped(cfg, st)
    requires forall m: nat :: m < sh.nModes ==> Covers(cfg, st, sh, top, mask, Choice(i, n, g, m))
    ensures Filled(cfg, st, sh, top, mask, i, n, g + 1)
  {
    hide LegalChoice, Code, Sound, NoOp;
    forall c: Choice | Before(c, i, n, g + 1)
      ensures Covers(cfg, st, sh, top, mask, c)
    {
      if !Before(c, i, n, g) && c.mode < sh.nModes {
        assert c == Choice(i, n, g, c.mode);
      }
    }
  }

  lemma NextNode(cfg: Config, st: State, sh: Shape, top: seq<Job>, mask: seq<bool>, i: nat, n: nat)
    requires Filled(cfg, st, sh, top, mask, i, n, sh.gpusPerNode)
    ensures Filled(cfg, st, sh, top, mask, i, n + 1, 0)
  {
    hide LegalChoice, Code, Sound, NoOp;
    forall c: Choice | Before(c, i, n + 1, 0)
      ensures Covers(cfg, st, sh, top, mask, c)
    {
      assert InRange(sh, c) ==> Before(c, i, n, sh.gpusPerNode);
    }
  }

  lemma NextJob(cfg: Config, st: State, sh: Shape, top: seq<Job>, mask: seq<bool>, i: nat)
    requires Filled(cfg, st, sh, top, mask, i, sh.nNodes, 0)
    ensures Filled(cfg, st, sh, top, mask, i + 1, 0, 0)
  {
    hide LegalChoice, Code, Sound, NoOp;
    forall c: Choice | Before(c, i + 1, 0, 0)
      ensures Covers(cfg, st, sh, top, mask, c)
    {
      assert InRange(sh, c) ==> Before(c, i, sh.nNodes, 0);
    }
  }

  /** Setting the bit of a legal choice. */
  lemma AllowOne(cfg: Config, st: State, sh: Shape, top: seq<Job>, mask: seq<bool>, c: Choice)
    requires Filled(cfg, st, sh, top, mask, c.job, c.node, c.gpu) && ConfigOk(cfg) && Shaped(cfg, st)
    requires c.job < |top| && c.node < sh.nNodes && c.gpu < sh.gpusPerNode && c.mode < sh.nModes
    requires CanOn(cfg, st, top[c.job], c.node, c.gpu)
    requires c.node < |st.free| && c.gpu < |st.free[c.node]|
    requires c.mode == MODE_ISOLATE ==> st.free[c.node][c.gpu] == cfg.cap
    ensures Code(sh, c) < |mask|
    ensures Filled(cfg, st, sh, top, mask[Code(sh, c) := true], c.job, c.node, c.gpu)
    ensures forall k: nat :: Covers(cfg, st, sh, top, mask, Choice(c.job, c.node, c.gpu, k)) ==>
              Covers(cfg, st, sh, top, mask[Code(sh, c) := true], Choice(c.job, c.node, c.gpu, k))
    ensures Covers(cfg, st, sh, top, mask[Code(sh, c) := true], c)
  {
    hide CanOn, Code, NoOp, Decode;
    DecodeEncode(sh, c);
  }

  lemma NotAllowed(cfg: Config, st: State, sh: Shape, top: seq<Job>, mask: seq<bool>, c: Choice)
    requires ConfigOk(cfg) && Shaped(cfg, st)
    requires c.mode == MODE_ISOLATE && c.node < cfg.nNodes && c.gpu < cfg.gpusPerNode
        && st.free[c.node][c.gpu] != cfg.cap
    ensures Covers(cfg, st, sh, top, mask, c)
  {
    hide CanOn, Code;
  }

  lemma NeverAllowed(cfg: Config, st: State, sh: Shape, top: seq<Job>, mask: seq<bool>, i: nat, n: nat, g: nat)
    requires ConfigOk(cfg) && Shaped(cfg, st) && i < |top| && !CanOn(cfg, st, top[i], n, g)
    ensures forall m: nat :: Covers(cfg, st, sh, top, mask, Choice(i, n, g, m))
  {
    hide CanOn, Code;
  }

  lemma MaskComplete(cfg: Config, st: State, sh: Shape, top: seq<Job>, mask: seq<bool>)
    requires Filled(cfg, st, sh, top, mask, |top|, 0, 0)
    ensures ConfigOk(cfg) && Shaped(cfg, st) && |mask| == NoOp(sh) + 1
    ensures forall a: nat :: a < |mask| - 1 ==> (mask[a] <==> Legal(cfg, st, sh, top, a))
    ensures Legal(cfg, st, sh, top, |mask| - 1)
  {
    hide CanOn;
    forall a: nat | a < |mask| - 1 && Legal(cfg, st, sh, top, a)
      ensures mask[a]
    {
      EncodeDecode(sh, a);
      assert Before(Decode(sh, a), |top|, 0, 0);
      assert Covers(cfg, st, sh, top, mask, Decode(sh, a));
    }
  }

  lemma {:induction false} CountJobs(trace: seq<Job>)
    requires DistinctJobs(trace)
    ensures |JobIds(trace)| == |trace|
  {
    if trace != [] {
      var m := |trace| - 1;
      CountJobs(trace[..m]);
      assert trace == trace[..m] + [trace[m]];
      AppendIds(trace[..m], trace[m]);
      assert trace[m].id !in JobIds(trace[..m]);
    }
  }

  lemma JobsOfTrace(trace: seq<Job>, jobs: Trace)
    requires Sensible(trace) && jobs == Runner.ById(trace)
    ensures TraceOk(jobs) && jobs.Keys == JobIds(trace) && |jobs| == |trace|
    ensures forall id :: id in jobs ==> jobs[id].mps >= 1 && jobs[id].submit >= 0.0
  {
    hide DistinctJobs, JobIds;
    CountJobs(trace);
    assert |jobs| == |jobs.Keys|;
  }

  lemma SubmitsKnown(trace: seq<Job>, jobs: Trace, events: seq<Event>)
    requires DistinctJobs(trace) && jobs == Runner.ById(trace)
    requires forall e :: e in events ==> exists j :: j in trace && e.id == j.id && e.t == j.submit && e.kind == Submit
    ensures forall e :: e in events ==> e.kind == Submit && e.id in jobs && e.t == jobs[e.id].submit
  {
    hide DistinctJobs;
    forall e | e in events
      ensures e.kind == Submit && e.id in jobs && e.t == jobs[e.id].submit
    {
      var j :| j in trace && e.id == j.id && e.t == j.submit && e.kind == Submit;
      assert j.id in JobIds(trace);
    }
  }

  lemma FreshEnv(cfg: Config, trace: seq<Job>, jobs: Trace, s: Sim)
    requires ConfigOk(cfg) && s.cl == Initial(cfg) && Sensible(trace) && jobs == Runner.ById(trace) && cfg.cap >= 1
    requires s.pending == [] && s.now == 0.0 && s.dispatched == map[]
    requires s.records == map id | id in jobs :: Record(None, None)
    requires QueueOf(trace, s.events)
    ensures EnvOk(cfg, jobs, s) && DoneCount(s) == 0 && Load(s) == 3 * |trace| && |jobs| == |trace|
  {
    hide QueueOf, Conserved, Staged, Initial, Shaped, Sensible, Load, Runner.ById;
    StagedFresh(cfg, trace, jobs, s);
    LoadFresh(cfg, trace, jobs, s);
    JobsOfTrace(trace, jobs);
    EventsFresh(trace, jobs, s.events);
    assert DoneIds(s.records) == {};
  }

  lemma EventsFresh(trace: seq<Job>, jobs: Trace, events: seq<Event>)
    requires Sensible(trace) && jobs == Runner.ById(trace) && QueueOf(trace, events)
    ensures forall e :: e in events ==> e.t >= 0.0
  {
    hide QueueOk, Ids, JobIds, DistinctJobs, Runner.ById;
  }

  lemma LoadFresh(cfg: Config, trace: seq<Job>, jobs: Trace, s: Sim)
    requires Sensible(trace) && s.pending == [] && s.cl.active == map[] && QueueOf(trace, s.events)
    ensures Load(s) == 3 * |trace|
  {
    hide QueueOk, Ids, JobIds, DistinctJobs;
    CountJobs(trace);
  }

  lemma StagedFresh(cfg: Config, trace: seq<Job>, jobs: Trace, s: Sim)
    requires ConfigOk(cfg) && s.cl == Initial(cfg) && Sensible(trace) && jobs == Runner.ById(trace)
    requires s.pending == [] && s.now == 0.0 && s.dispatched == map[]
    requires s.records == map id | id in jobs :: Record(None, None)
    requires QueueOf(trace, s.events)
    ensures Staged(cfg, jobs, s) && s.cl.active == map[]
  {
    hide QueueOk, Ids, JobIds, DistinctJobs, RunOk, Conserved, Staged, Shaped;
    JobsOfTrace(trace, jobs);
    SubmitsKnown(trace, jobs, s.events);
    Runner.StartOk(cfg, jobs, s);
    RunOkShape(cfg, jobs, s, [(0.0, 0.0)]);
  }

  /** What an attempt to place a job on a named GPU does. */
  ghost predicate Landed(cfg: Config, st: State, job: Job, node: nat, gpu: nat, placed: bool, plan: Plan, st': State) {
    && ConfigOk(cfg) && Shaped(cfg, st)
    && (placed <==> CanOn(cfg, st, job, node, gpu))
    && (placed ==> ValidPlan(cfg, st, job, plan) && PlanOk(cfg, plan) && st' == Reserve(cfg, st, job, plan))
    && (placed && job.gpuCount > 0 && SlotOk(cfg, st, job, node, gpu) ==> ClusterObject.StartsAt(plan, node, gpu))
    && (placed ==> Conserved(cfg, st) && HoldsSlots(st) && job.id !in st.active)
  }

  /** Where an action put its job; and if the mask allowed it in isolation, it is alone there. */
  ghost predicate LandsAlone(cfg: Config, st: State, sh: Shape, top: seq<Job>, a: nat, plan: Plan, landed: State) {
    && ConfigOk(cfg) && Shaped(cfg, st) && a < NoOp(sh) && HasShape(sh) && Decode(sh, a).job < |top|
    && var job := top[Decode(sh, a).job];
    && ValidPlan(cfg, st, job, plan) && PlanOk(cfg, plan) && landed == Reserve(cfg, st, job, plan)
    && (Legal(cfg, st, sh, top, a) && Decode(sh, a).mode == MODE_ISOLATE ==> CoResidents(landed, plan, job.id) == {})
  }

  lemma LandedMeans(cfg: Config, st: State, sh: Shape, top: seq<Job>, a: nat, placed: bool, plan: Plan, landed: State)
    requires a < NoOp(sh) && HasShape(sh) && Decode(sh, a).job < |top|
    requires var c := Decode(sh, a); Landed(cfg, st, top[c.job], c.node, c.gpu, placed, plan, landed)
    ensures ConfigOk(cfg) && Shaped(cfg, st)
    ensures placed <==> Schedules(cfg, st, sh, top, a)
    ensures placed ==> LandsAlone(cfg, st, sh, top, a, plan, landed)
  {
    hide Conserved, ValidPlan, PlanOk, HoldsSlots, Reserve, CoResidents, CanOn, SlotOk, ClusterObject.StartsAt,
         Decode, NoOp;
    var c := Decode(sh, a);
    if placed && Legal(cfg, st, sh, top, a) && c.mode == MODE_ISOLATE {
      IsolatedLandsAlone(cfg, st, top[c.job], plan, c.node, c.gpu);
    }
  }

  lemma RuntimePositive(realized: Realized, k: nat, job: Job, plan: Plan, st: State)
    requires Positive(realized)
    ensures realized(k, job, plan, st) > 0.0
  {
  }

  // ----- Policies that never idle -----

  ghost predicate SomeAllowed(mask: seq<bool>, noOp: nat) {
    exists a: nat :: a < noOp && a < |mask| && mask[a]
  }

  /** Given a mask, the policy picks an allowed action, and a placement whenever one is allowed. */
  ghost predicate NonIdling(policy: (nat, seq<bool>) -> nat, noOp: nat) {
    forall k: nat, mask: seq<bool> :: |mask| == noOp + 1 && mask[noOp] ==>
      Picks(policy(k, mask), mask, noOp)
  }

  ghost predicate Picks(a: nat, mask: seq<bool>, noOp: nat) {
    a <= noOp && a < |mask| && mask[a] && (SomeAllowed(mask, noOp) ==> a < noOp)
  }

  /** With the queue empty and jobs left to do, the cluster is idle and somebody is waiting. */
  lemma WaitingAtTheEnd(cfg: Config, jobs: Trace, s: Sim)
    requires EnvOk(cfg, jobs, s) && s.events == [] && DoneCount(s) < |jobs|
    ensures s.cl == Initial(cfg) && s.pending != []
  {
    hide Conserved, QueueOk, DistinctJobs, SlotsKnown, Initial, Ids;
    EmptyQueue(jobs, s);
    IdleIsInitial(cfg, s.cl);
    PendingOrDone(jobs, s);
    if DoneIds(s.records) == jobs.Keys {
      assert |jobs| == |jobs.Keys|;
    } else {
      DoneAreKnown(s);
      assert exists id :: id in jobs && id !in DoneIds(s.records);
    }
  }

  lemma DoneAreKnown(s: Sim)
    ensures DoneIds(s.records) <= s.records.Keys
  {
  }

  lemma Finished(cfg: Config, jobs: Trace, s: Sim)
    requires EnvOk(cfg, jobs, s) && s.events == [] && DoneCount(s) >= |jobs|
    ensures DoneCount(s) == |jobs| && s.pending == [] && s.cl == Initial(cfg)
  {
    hide Conserved, QueueOk, DistinctJobs, SlotsKnown, Initial, Ids;
    EmptyQueue(jobs, s);
    IdleIsInitial(cfg, s.cl);
    DoneAreKnown(s);
    assert |jobs| == |jobs.Keys|;
    SubsetSameCard(DoneIds(s.records), jobs.Keys);
    assert s.pending != [] ==> s.pending[0].id in JobIds(s.pending);
  }

  /** As long as jobs are left, a policy that never idles schedules something or an event is left. */
  lemma MovesOn(cfg: Config, jobs: Trace, s: Sim, sh: Shape, policy: (nat, seq<bool>) -> nat, k: nat,
                mask: seq<bool>, a: nat)
    requires EnvOk(cfg, jobs, s) && FitsAll(cfg, jobs) && ConfigOk(cfg) && Shaped(cfg, s.cl)
    requires sh.nNodes == cfg.nNodes && sh.gpusPerNode == cfg.gpusPerNode && sh.nModes > 0 && sh.topK > 0
    requires !(DoneCount(s) >= |jobs| && s.events == [])
    requires NonIdling(policy, NoOp(sh)) && |mask| == NoOp(sh) + 1 && a == policy(k, mask)
    requires forall b: nat :: b < |mask| ==> (mask[b] <==> Legal(cfg, s.cl, sh, Window(s.pending, sh.topK), b))
    ensures a <= NoOp(sh)
    ensures s.events != [] || Schedules(cfg, s.cl, sh, Window(s.pending, sh.topK), a)
  {
    hide EnvOk, DoneCount, ConfigOk, Shaped, NoOp, LegalChoice, Window, Decode, Initial, Feasible;
    var top := Window(s.pending, sh.topK);
    WindowFacts(s.pending, sh.topK);
    assert Legal(cfg, s.cl, sh, top, NoOp(sh));
    assert Picks(a, mask, NoOp(sh));
    if s.events == [] {
      WaitingAtTheEnd(cfg, jobs, s);
      EnvShape(cfg, jobs, s);
      assert top[0] in s.pending;
      var b := SomethingLegal(cfg, s.cl, sh, top, top[0]);
      assert mask[b];
      MaskMeansSchedulable(cfg, s.cl, sh, top, a);
    }
  }
}
