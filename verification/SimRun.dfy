/** What every step of a simulation run keeps, and what the run has achieved once its queue is empty. */
module SimRun {
  import opened Wrappers
  import opened Sums
  import opened Sorting
  import opened ClusterModel
  import opened ClusterPlanning
  import opened SimModel
  import opened SimTiming

  // ----- Progress -----

  /** Every event and every dispatch brings the run one step nearer to its end. */
  ghost function Load(s: Sim): nat {
    3 * |Ids(s.events, Submit)| + 2 * |s.pending| + |s.cl.active|
  }

  lemma HandleLightens(cfg: Config, jobs: Trace, s: Sim)
    requires Booked(jobs, s) && s.events != []
    requires Shaped(cfg, s.cl) && s.events[0].id in jobs && s.events[0].id in s.records
    requires s.events[0].id in s.cl.active ==> PlanOk(cfg, s.cl.active[s.events[0].id])
    ensures Load(HandleEvent(cfg, jobs, s)) == Load(s) - 1
  {
    hide QueueOk, DistinctJobs, JobsKnown, StartsKnown, Stages, PlanOk, Shaped, AddPlan, Refund;
    var id := s.events[0].id;
    PopIds(s.events);
    if s.events[0].kind == End {
      assert s.cl.active.Keys == Ids(s.events[1..], End) + {id};
      DropOne(s.cl.active, id);
    } else {
      assert |Ids(s.events, Submit)| == |Ids(s.events[1..], Submit)| + 1;
    }
  }

  lemma DropOne<K, V>(m: map<K, V>, k: K)
    requires k in m
    ensures |m - {k}| == |m| - 1
  {
    assert (m - {k}).Keys == m.Keys - {k};
  }

  lemma DispatchLightens(cfg: Config, jobs: Trace, s: Sim, job: Job, plan: Plan, latency: real)
    requires Booked(jobs, s) && job in s.pending && job.id in s.records
    requires Shaped(cfg, s.cl) && PlanOk(cfg, plan)
    ensures Load(Dispatch(cfg, s, job, plan, latency)) == Load(s) - 1
  {
    hide JobsKnown, StartsKnown, Stages, PlanOk, Shaped, AddPlan, Charge, Push, Remove;
    PendingNotElsewhere(jobs, s, job);
    NoEventOf(s.events, job.id);
    PushIds(s.events, Event(s.now + latency + job.runtime, s.nextSeq, End, job.id));
    RemoveIds(s.pending, job);
    assert s.cl.active[job.id := plan].Keys == s.cl.active.Keys + {job.id};
  }

  lemma NoEventOf(events: seq<Event>, id: JobId)
    requires forall e :: e in events ==> e.id != id
    ensures forall k :: id !in Ids(events, k)
  {
  }

  // ----- Feasible alone -----

  /** Whatever fits a loaded cluster fits the empty one. */
  lemma FitsAlone(cfg: Config, st: State, job: Job)
    requires Conserved(cfg, st) && Feasible(cfg, st, job)
    ensures Feasible(cfg, Initial(cfg), job)
  {
    forall n, g | 0 <= n < cfg.nNodes && 0 <= g < cfg.gpusPerNode
      ensures st.free[n][g] <= Initial(cfg).free[n][g] <= cfg.cap
    {
      FreeAtMostCap(cfg, st, n, g);
    }
    forall n | 0 <= n < cfg.nNodes
      ensures st.usedRam[n] >= 0.0
    {
      SumNonnegR(RamOn(st, n));
    }
    assert Tighter(cfg, Initial(cfg), st);
    if !Feasible(cfg, Initial(cfg), job) {
      RefusalMonotone(cfg, Initial(cfg), st, job);
    }
  }

  ghost predicate FittingOnly(cfg: Config, jobs: Trace, s: Sim) {
    && ConfigOk(cfg)
    && forall id :: id in s.dispatched ==> id in jobs && Feasible(cfg, Initial(cfg), jobs[id])
  }

  // ----- First come, first served -----

  /** In order of submission; among those submitted together, by id or in any order. */
  predicate Ahead(byId: bool, a: Job, b: Job) {
    a.submit < b.submit || (a.submit == b.submit && (byId ==> a.id <= b.id))
  }

  ghost predicate Fifo(jobs: Trace, s: Sim, byId: bool) {
    forall q, p :: q in s.dispatched && p in jobs && p !in s.dispatched ==>
      q in jobs && Ahead(byId, jobs[q], jobs[p])
  }

  /** Nobody overtakes: among started jobs, one strictly ahead never starts later. */
  ghost predicate NoOvertaking(jobs: Trace, records: map<JobId, Record>, byId: bool) {
    forall p, q :: p in jobs && q in jobs && p in records && q in records
      && records[p].start.Some? && records[q].start.Some? && !Ahead(byId, jobs[q], jobs[p])
      ==> records[p].start.value <= records[q].start.value
  }

  ghost predicate Lagged(s: Sim, lag: real) {
    forall id :: id in s.dispatched ==>
      id in s.records && s.records[id].start.Some? && s.records[id].start.value == s.dispatched[id] + lag
  }

  /** Jobs enter the queue in order: the submit events are numbered that way ... */
  ghost predicate Numbered(jobs: Trace, events: seq<Event>, byId: bool) {
    forall a, b :: a in events && b in events && a.kind == Submit && b.kind == Submit && EventLe(a, b) ==>
      a.id in jobs && b.id in jobs && Ahead(byId, jobs[a.id], jobs[b.id])
  }

  /** ... and whoever has been submitted is ahead of whoever has not. */
  ghost predicate SubmittedFirst(jobs: Trace, s: Sim, byId: bool) {
    forall p, q :: p in jobs && q in jobs && p in Ids(s.events, Submit) && q !in Ids(s.events, Submit) ==>
      Ahead(byId, jobs[q], jobs[p])
  }

  ghost predicate FifoRun(jobs: Trace, s: Sim, lag: real, byId: bool) {
    && Fifo(jobs, s, byId) && NoOvertaking(jobs, s.records, byId) && Lagged(s, lag)
    && Numbered(jobs, s.events, byId) && SubmittedFirst(jobs, s, byId)
  }

  lemma HandleKeepsFifo(cfg: Config, jobs: Trace, s: Sim, lag: real, byId: bool)
    requires FifoRun(jobs, s, lag, byId) && s.events != [] && QueueOk(s.events)
    requires Shaped(cfg, s.cl) && s.events[0].id in jobs && s.events[0].id in s.records
    requires s.events[0].id in s.cl.active ==> PlanOk(cfg, s.cl.active[s.events[0].id])
    ensures FifoRun(jobs, HandleEvent(cfg, jobs, s), lag, byId)
  {
    hide Shaped, PlanOk, Free, QueueOk, Numbered, SubmittedFirst, Fifo, NoOvertaking, Lagged;
    var s' := HandleEvent(cfg, jobs, s);
    PopNumbered(jobs, s.events, byId);
    PopSubmitted(jobs, s, s', byId);
    EndKeepsStarts(jobs, s, s', lag, byId);
  }

  lemma EndKeepsStarts(jobs: Trace, s: Sim, s': Sim, lag: real, byId: bool)
    requires Fifo(jobs, s, byId) && NoOvertaking(jobs, s.records, byId) && Lagged(s, lag)
    requires s'.dispatched == s.dispatched && s'.records.Keys == s.records.Keys
    requires forall id :: id in s.records ==> s'.records[id].start == s.records[id].start
    ensures Fifo(jobs, s', byId) && NoOvertaking(jobs, s'.records, byId) && Lagged(s', lag)
  {
    hide Ahead;
  }

  lemma PopNumbered(jobs: Trace, events: seq<Event>, byId: bool)
    requires Numbered(jobs, events, byId) && events != []
    ensures Numbered(jobs, events[1..], byId)
  {
    hide Ahead, EventLe;
    assert forall e :: e in events[1..] ==> e in events;
  }

  lemma PopSubmitted(jobs: Trace, s: Sim, s': Sim, byId: bool)
    requires Numbered(jobs, s.events, byId) && SubmittedFirst(jobs, s, byId) && s.events != [] && QueueOk(s.events)
    requires s'.events == s.events[1..]
    ensures SubmittedFirst(jobs, s', byId)
  {
    hide Ahead, EventLe;
    PopIds(s.events);
    forall p, q | p in jobs && q in jobs && p in Ids(s'.events, Submit) && q !in Ids(s'.events, Submit)
      ensures Ahead(byId, jobs[q], jobs[p])
    {
      if q in Ids(s.events, Submit) {
        FirstIsAhead(jobs, s.events, p, byId);
      }
    }
  }

  lemma FirstIsAhead(jobs: Trace, events: seq<Event>, p: JobId, byId: bool)
    requires Numbered(jobs, events, byId) && events != [] && QueueOk(events)
    requires events[0].kind == Submit && p in Ids(events[1..], Submit)
    ensures events[0].id in jobs && p in jobs && Ahead(byId, jobs[events[0].id], jobs[p])
  {
    hide Ahead;
    var x :| x in events[1..] && x.kind == Submit && x.id == p;
    var i :| 0 <= i < |events| - 1 && events[1..][i] == x;
    assert events[i + 1] == x && events[0] in events;
  }

  /** Whoever heads the pending queue is ahead of all who have not been dispatched. */
  lemma HeadIsAhead(jobs: Trace, s: Sim, job: Job, p: JobId, byId: bool)
    requires Booked(jobs, s) && SubmittedFirst(jobs, s, byId) && job in s.pending
    requires forall j :: j in s.pending ==> Ahead(byId, job, j)
    requires p in jobs && p !in s.dispatched
    ensures Ahead(byId, job, jobs[p])
  {
    hide Ahead, QueueOk;
    assert job.id in JobIds(s.pending) && job.id !in Ids(s.events, Submit);
    if p in JobIds(s.pending) {
      var j :| j in s.pending && j.id == p;
    } else {
      assert p in Ids(s.events, Submit);
    }
  }

  lemma StartKeepsFifo(jobs: Trace, s: Sim, s': Sim, job: Job, lag: real, byId: bool)
    requires Fifo(jobs, s, byId) && NoOvertaking(jobs, s.records, byId) && Lagged(s, lag)
    requires StartsKnown(s.records, s.dispatched)
    requires forall id :: id in s.dispatched ==> s.dispatched[id] <= s.now
    requires job.id in jobs && jobs[job.id] == job && job.id in s.records && job.id !in s.dispatched
    requires forall p :: p in jobs && p !in s.dispatched ==> Ahead(byId, job, jobs[p])
    requires s'.records == s.records[job.id := s.records[job.id].(start := Some(s.now + lag))]
    requires s'.dispatched == s.dispatched[job.id := s.now]
    ensures Fifo(jobs, s', byId) && NoOvertaking(jobs, s'.records, byId) && Lagged(s', lag)
  {
    hide Ahead;
    assert Lagged(s', lag);
    assert Fifo(jobs, s', byId);
    forall p, q | p in jobs && q in jobs && p in s'.records && q in s'.records
      && s'.records[p].start.Some? && s'.records[q].start.Some? && !Ahead(byId, jobs[q], jobs[p])
      ensures s'.records[p].start.value <= s'.records[q].start.value
    {
      assert p in s'.dispatched && q in s'.dispatched;
    }
  }

  lemma PushKeepsOrder(jobs: Trace, s: Sim, s': Sim, e: Event, byId: bool)
    requires Numbered(jobs, s.events, byId) && SubmittedFirst(jobs, s, byId)
    requires e.kind == End && s'.events == Push(s.events, e)
    ensures Numbered(jobs, s'.events, byId) && SubmittedFirst(jobs, s', byId)
  {
    hide Ahead, Push;
    PushElems(s.events, e);
    assert Ids(s'.events, Submit) == Ids(s.events, Submit);
  }

  lemma DispatchKeepsFifo(cfg: Config, jobs: Trace, s: Sim, job: Job, plan: Plan, lag: real, byId: bool)
    requires Booked(jobs, s) && Timed(jobs, s) && FifoRun(jobs, s, lag, byId) && job in s.pending
    requires job.id in s.records && forall j :: j in s.pending ==> Ahead(byId, job, j)
    requires Shaped(cfg, s.cl) && PlanOk(cfg, plan)
    ensures FifoRun(jobs, Dispatch(cfg, s, job, plan, lag), lag, byId)
  {
    hide Shaped, PlanOk, Reserve, Push, Remove, QueueOk, Stages, QueueTimed, EndsTimed, Fifo, NoOvertaking, Lagged,
         Numbered, SubmittedFirst, OnTheClock, Ahead;
    PendingNotElsewhere(jobs, s, job);
    forall p | p in jobs && p !in s.dispatched
      ensures Ahead(byId, job, jobs[p])
    {
      HeadIsAhead(jobs, s, job, p, byId);
    }
    var s' := Dispatch(cfg, s, job, plan, lag);
    StartKeepsFifo(jobs, s, s', job, lag, byId);
    PushKeepsOrder(jobs, s, s', Event(s.now + lag + job.runtime, s.nextSeq, End, job.id), byId);
  }

  // ----- The whole invariant -----

  ghost predicate RunOk(cfg: Config, jobs: Trace, s: Sim, samples: Samples) {
    && TraceOk(jobs) && Staged(cfg, jobs, s) && FittingOnly(cfg, jobs, s)
    && (TimesOk(jobs) ==> Timed(jobs, s) && Metered(cfg, jobs, s, samples))
  }

  lemma RunOkShape(cfg: Config, jobs: Trace, s: Sim, samples: Samples)
    requires RunOk(cfg, jobs, s, samples)
    ensures TraceOk(jobs) && Staged(cfg, jobs, s) && Booked(jobs, s) && Conserved(cfg, s.cl) && ConfigOk(cfg)
    ensures Shaped(cfg, s.cl) && s.records.Keys == jobs.Keys && QueueOk(s.events)
    ensures forall id :: id in s.cl.active ==> PlanOk(cfg, s.cl.active[id]) && id in jobs
    ensures forall j :: j in s.pending ==> j.id in jobs && jobs[j.id] == j && j.id in s.records && j.ram >= 0.0
    ensures forall j :: j in s.pending ==> j.id !in s.cl.active
    ensures s.events != [] ==> s.events[0].id in jobs && s.events[0].id in s.records
  {
    StagedShape(cfg, jobs, s);
    forall j | j in s.pending ensures j.id !in s.cl.active {
      PendingNotElsewhere(jobs, s, j);
    }
    if s.events != [] {
      EventIdKnown(cfg, jobs, s);
    }
  }

  lemma HandleMeter(cfg: Config, jobs: Trace, s: Sim, samples: Samples)
    requires Staged(cfg, jobs, s) && Metered(cfg, jobs, s, samples) && Sampled(cfg, s, samples)
    requires s.events != [] && s.events[0].id in jobs && s.events[0].id in s.records && s.events[0].t >= s.now
    requires Shaped(cfg, s.cl) && (s.events[0].id in s.cl.active ==> PlanOk(cfg, s.cl.active[s.events[0].id]))
    ensures Metered(cfg, jobs, HandleEvent(cfg, jobs, s), samples)
  {
    hide Conserved, Metered, Sampled, SlotsKnown, Shaped, PlanOk, Free, DistinctJobs, QueueOk, JobsKnown, StartsKnown;
    if s.events[0].kind == Submit {
      SubmitKeepsMeter(cfg, jobs, s, HandleEvent(cfg, jobs, s), samples);
    } else {
      EventIdKnown(cfg, jobs, s);
      assert s.records[s.events[0].id].end.None? by {
        assert s.events[0].id !in DoneIds(s.records);
      }
      EndKeepsMeter(cfg, jobs, s, HandleEvent(cfg, jobs, s), s.events[0].id, samples);
    }
  }

  lemma HandleKeepsRun(cfg: Config, jobs: Trace, s: Sim, samples: Samples)
    requires RunOk(cfg, jobs, s, samples) && Sampled(cfg, s, samples) && s.events != []
    requires s.events[0].id in jobs && s.events[0].id in s.records && Shaped(cfg, s.cl)
    requires s.events[0].id in s.cl.active ==> PlanOk(cfg, s.cl.active[s.events[0].id])
    ensures RunOk(cfg, jobs, HandleEvent(cfg, jobs, s), samples)
    ensures Load(HandleEvent(cfg, jobs, s)) == Load(s) - 1
  {
    hide TraceOk, TimesOk, Staged, Timed, Metered, Sampled, Shaped, PlanOk, Free, Load, ConfigOk, Feasible;
    RunOkShape(cfg, jobs, s, samples);
    HandleKeepsStages(cfg, jobs, s);
    HandleLightens(cfg, jobs, s);
    if TimesOk(jobs) {
      HandleKeepsTime(cfg, jobs, s);
      HandleMeter(cfg, jobs, s, samples);
    }
  }

  lemma DispatchKeepsRun(cfg: Config, jobs: Trace, s: Sim, samples: Samples, job: Job, plan: Plan, latency: real)
    requires RunOk(cfg, jobs, s, samples) && job in s.pending && job.id in s.records && latency >= 0.0
    requires Shaped(cfg, s.cl) && ConfigOk(cfg) && PlanOk(cfg, plan) && ValidPlan(cfg, s.cl, job, plan)
    ensures RunOk(cfg, jobs, Dispatch(cfg, s, job, plan, latency), samples)
    ensures Load(Dispatch(cfg, s, job, plan, latency)) == Load(s) - 1
    ensures forall j :: !Feasible(cfg, s.cl, j) ==>
              var cl' := Reserve(cfg, s.cl, job, plan);
              ConfigOk(cfg) && Shaped(cfg, cl') && !Feasible(cfg, cl', j)
  {
    hide TraceOk, TimesOk, Staged, Timed, Metered, Shaped, PlanOk, ValidPlan, Reserve, Push, Remove, Load,
         ConfigOk, Feasible;
    RunOkShape(cfg, jobs, s, samples);
    DispatchKeepsStages(cfg, jobs, s, job, plan, latency);
    DispatchLightens(cfg, jobs, s, job, plan, latency);
    ValidPlanIsPlacement(cfg, s.cl, job, plan);
    FitsAlone(cfg, s.cl, job);
    if TimesOk(jobs) {
      DispatchKeepsTime(cfg, jobs, s, job, plan, latency);
      DispatchKeepsMeter(cfg, jobs, s, job, plan, latency, samples);
    }
    GrantKeepsRefusals(cfg, s.cl, job, plan);
  }

  // ----- The end of a run -----

  /** What blocks the queue after dispatching: everything under backfill, else at least its head. */
  ghost predicate Blocked(cfg: Config, s: Sim, backfill: bool) {
    && ConfigOk(cfg) && Shaped(cfg, s.cl)
    && if backfill then forall j :: j in s.pending ==> !Feasible(cfg, s.cl, j)
       else s.pending != [] ==> exists j :: j in s.pending && !Feasible(cfg, s.cl, j)
  }

  ghost predicate AllFit(cfg: Config, jobs: Trace) {
    ConfigOk(cfg) && forall id :: id in jobs ==> Feasible(cfg, Initial(cfg), jobs[id])
  }

  ghost predicate Completed(records: map<JobId, Record>) {
    forall id :: id in records ==> records[id].start.Some? && records[id].end.Some?
  }

  /** An empty queue means an idle, pristine cluster; nothing is left pending if every job fits
      alone; and under backfill exactly the jobs that fit alone have run. */
  lemma RunDrains(cfg: Config, jobs: Trace, s: Sim, samples: Samples, backfill: bool)
    requires RunOk(cfg, jobs, s, samples) && s.events == [] && Blocked(cfg, s, backfill)
    ensures s.cl == Initial(cfg) && s.cl.active == map[]
    ensures AllFit(cfg, jobs) ==> s.pending == [] && Completed(s.records)
    ensures backfill ==> forall id :: id in jobs ==>
              (s.records[id].end.Some? <==> Feasible(cfg, Initial(cfg), jobs[id]))
  {
    hide RunOk, Feasible;
    RunOkShape(cfg, jobs, s, samples);
    EmptyQueue(jobs, s);
    IdleIsInitial(cfg, s.cl);
    PendingOrDone(jobs, s);
    FittingRun(cfg, jobs, s, samples);
    assert s.pending != [] ==> s.pending[0] in s.pending;
  }

  lemma FittingRun(cfg: Config, jobs: Trace, s: Sim, samples: Samples)
    requires RunOk(cfg, jobs, s, samples)
    ensures ConfigOk(cfg) && forall id :: id in s.dispatched ==> id in jobs && Feasible(cfg, Initial(cfg), jobs[id])
  {
  }

  lemma EmptyQueue(jobs: Trace, s: Sim)
    requires Booked(jobs, s) && s.events == []
    ensures s.cl.active == map[] && Ids(s.events, Submit) == {}
  {
    assert Ids(s.events, End) == {};
  }

  /** Once the queue is empty every job is either still pending or has started and ended. */
  lemma PendingOrDone(jobs: Trace, s: Sim)
    requires Booked(jobs, s) && s.cl.active == map[] && Ids(s.events, Submit) == {}
    ensures forall id :: id in jobs ==> id in s.records
    ensures forall id :: id in jobs && s.records[id].end.Some? ==> id in s.dispatched && s.records[id].start.Some?
    ensures forall id :: id in jobs && s.records[id].end.None? ==> jobs[id] in s.pending
  {
    hide QueueOk, DistinctJobs, Ids;
    forall id | id in jobs && s.records[id].end.None?
      ensures jobs[id] in s.pending
    {
      assert id !in DoneIds(s.records);
      var j :| j in s.pending && j.id == id;
    }
    forall id | id in jobs && s.records[id].end.Some?
      ensures id in s.dispatched
    {
      assert id in DoneIds(s.records);
    }
  }

  /** Work of a finished run: each job was served for its start-up latency and its runtime. */
  ghost function FinalWork(cfg: Config, jobs: Trace, s: Sim): map<JobId, real> {
    map id | id in s.dispatched && id in jobs && id in s.records && s.records[id].start.Some? ::
      Times(JobSlots(cfg, jobs[id]) as real, (s.records[id].start.value - s.dispatched[id]) + jobs[id].runtime)
  }

  lemma FinishedWork(cfg: Config, jobs: Trace, s: Sim)
    requires Timed(jobs, s) && forall id :: id in s.dispatched ==> id in s.records && s.records[id].end.Some?
    ensures Work(cfg, jobs, s, s.now) == FinalWork(cfg, jobs, s)
  {
    hide JobSlots, Times, QueueTimed;
  }
}
