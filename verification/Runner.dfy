/** The simulator itself: the event loop and its dispatcher, run against an arbitrary scheduler and
    arbitrary start-up latencies. */
module Runner {
  import opened Wrappers
  import opened Sums
  import opened Sorting
  import opened ClusterModel
  import opened ClusterPlanning
  import ClusterObject
  import opened SimModel
  import opened SimTiming
  import opened SimRun

  /** A scheduler: which call it is, what is pending, the cluster and the time, to an ordering. */
  type Order = (nat, seq<Job>, State, real) -> seq<Job>

  /** A latency model: indexed by the dispatch's sequence number, so it may remember anything. */
  type Latency = (nat, Job, real) -> real

  ghost predicate Schedules(order: Order) {
    forall k: nat, pending: seq<Job>, st: State, t: real :: Permutes(pending, order(k, pending, st, t))
  }

  ghost predicate Nonnegative(latency: Latency) {
    forall k: nat, job: Job, t: real :: latency(k, job, t) >= 0.0
  }

  ghost predicate SubmitSorted(jobs: seq<Job>, byId: bool) {
    forall i, j :: 0 <= i < j < |jobs| ==> Ahead(byId, jobs[i], jobs[j])
  }

  /** First come first served: by submission time, ties broken by id or in any way. */
  ghost predicate InSubmitOrder(order: Order, byId: bool) {
    forall k: nat, pending: seq<Job>, st: State, t: real :: SubmitSorted(order(k, pending, st, t), byId)
  }

  /** Jobs submitted together are listed in the order of their ids. */
  ghost predicate TiesById(trace: seq<Job>) {
    forall i, k :: 0 <= i < k < |trace| && trace[i].submit == trace[k].submit ==> trace[i].id <= trace[k].id
  }

  ghost predicate ConstantLag(latency: Latency, lag: real) {
    forall k: nat, job: Job, t: real :: latency(k, job, t) == lag
  }

  function ById(trace: seq<Job>): (jobs: Trace)
    ensures forall id :: id in jobs ==> jobs[id].id == id && jobs[id] in trace
    ensures DistinctJobs(trace) ==> jobs.Keys == JobIds(trace) && forall j :: j in trace ==> jobs[j.id] == j
  {
    if trace == [] then map[]
    else
      var m := |trace| - 1;
      assert trace == trace[..m] + [trace[m]];
      ById(trace[..m])[trace[m].id := trace[m]]
  }

  predicate SubmitLe(a: Job, b: Job) {
    Ahead(false, a, b)
  }

  /** Strict submission order, ties by id. */
  predicate FcfsLe(a: Job, b: Job) {
    Ahead(true, a, b)
  }

  function FcfsOrder(k: nat, pending: seq<Job>, st: State, t: real): seq<Job> {
    Sort(FcfsLe, pending)
  }

  lemma FcfsSchedules()
    ensures Schedules(FcfsOrder) && InSubmitOrder(FcfsOrder, true)
  {
    assert TotalPreorder(FcfsLe);
    forall k: nat, pending: seq<Job>, st: State, t: real
      ensures Permutes(pending, FcfsOrder(k, pending, st, t)) && SubmitSorted(FcfsOrder(k, pending, st, t), true)
    {
      var sorted := Sort(FcfsLe, pending);
      assert SortedBy(FcfsLe, sorted);
      forall i, j | 0 <= i < j < |sorted|
        ensures Ahead(true, sorted[i], sorted[j])
      {
        assert FcfsLe(sorted[i], sorted[j]);
      }
    }
  }

  /** Sorting by submission time alone keeps jobs submitted together in the order in which they are listed. */
  lemma {:induction false} TiesStayListed(trace: seq<Job>)
    requires TiesById(trace)
    ensures SortedBy(FcfsLe, Sort(SubmitLe, trace))
  {
    if trace != [] {
      TiesStayListed(trace[1..]);
      PermutesElems(trace[1..], Sort(SubmitLe, trace[1..]));
      InsertBeforeTies(trace[0], Sort(SubmitLe, trace[1..]));
    }
  }

  lemma {:induction false} InsertBeforeTies(x: Job, xs: seq<Job>)
    requires SortedBy(FcfsLe, xs) && forall y :: y in xs && y.submit == x.submit ==> x.id <= y.id
    ensures SortedBy(FcfsLe, Insert(SubmitLe, x, xs))
  {
    if xs != [] && !SubmitLe(x, xs[0]) {
      InsertBeforeTies(x, xs[1..]);
      InsertElems(x, xs[1..], Insert(SubmitLe, x, xs[1..]));
    } else if xs != [] {
      assert forall i :: 0 < i < |xs| ==> FcfsLe(xs[0], xs[i]);
    }
  }

  class Simulator {
    const cfg: Config
    const jobs: Trace
    const order: Order
    const backfill: bool
    const latency: Latency
    const cluster: ClusterObject.Cluster
    var pending: seq<Job>
    var events: seq<Event>
    var nextSeq: nat
    var now: real
    var records: map<JobId, Record>
    var samples: Samples
    var calls: nat
    ghost var dispatched: map<JobId, real>

    ghost function View(): Sim
      reads this, cluster
    {
      Sim(cluster.View(), pending, events, nextSeq, now, records, dispatched)
    }

    ghost predicate Valid()
      reads this, cluster
    {
      && cluster.cfg == cfg && Schedules(order) && Nonnegative(latency)
      && RunOk(cfg, jobs, View(), samples) && Waited(jobs, View(), latency)
    }

    /** FCFS with head-of-line blocking and one constant latency, on a trace with sensible times. */
    ghost predicate Fcfs(lag: real, byId: bool) {
      !backfill && InSubmitOrder(order, byId) && ConstantLag(latency, lag) && TimesOk(jobs)
    }

    constructor (cfg: Config, trace: seq<Job>, order: Order, backfill: bool, latency: Latency)
      requires ConfigOk(cfg) && DistinctJobs(trace) && forall j :: j in trace ==> j.ram >= 0.0
      requires Schedules(order) && Nonnegative(latency)
      ensures this.cfg == cfg && jobs == ById(trace) && this.order == order
      ensures this.backfill == backfill && this.latency == latency
      ensures Valid() && Sampled(cfg, View(), samples) && Blocked(cfg, View(), backfill)
      ensures samples == [(0.0, 0.0)] && dispatched == map[]
      ensures forall lag, byId :: (byId ==> TiesById(trace)) ==> FifoRun(jobs, View(), lag, byId)
      ensures |events| == |trace| == nextSeq && forall e :: e in events ==> Numbers(Sort(SubmitLe, trace), e)
      ensures pending == [] && records == map id | id in jobs :: Record(None, None)
      ensures cluster.View() == Initial(cfg)
      ensures fresh(cluster)
    {
      hide RunOk, Waited, Sampled, Blocked, QueueOk, Permutes, DistinctJobs, Conserved, Schedules, Nonnegative, FifoRun,
           TiesById, Numbers, Sort, SubmitLe, ById, Ids, Initial;
      this.cfg, this.order, this.backfill, this.latency := cfg, order, backfill, latency;
      jobs := ById(trace);
      records := map id | id in ById(trace) :: Record(None, None);
      pending, now, samples, calls, dispatched := [], 0.0, [(0.0, 0.0)], 0, map[];
      var sorted := Sort(SubmitLe, trace);
      var queue, n := SubmitEvents(trace, sorted);
      events, nextSeq := queue, n;
      cluster := new ClusterObject.Cluster(cfg);
      new;
      EventsOk(trace, sorted, events);
      StartOk(cfg, jobs, View());
      NobodyWaits(jobs, View(), latency);
      FifoStarts(trace, sorted, View());
    }

    // ----- Dispatch -----

    /** Walk the queue once in the scheduler's order, starting what fits. */
    method TryDispatch(ghost lag: real, ghost byId: bool) returns (ghost ordered: seq<Job>, ghost states: seq<Sim>)
      requires Valid()
      requires Fcfs(lag, byId) ==> FifoRun(jobs, View(), lag, byId)
      modifies this`pending, this`events, this`nextSeq, this`records, this`calls, this`dispatched, cluster
      ensures Valid() && Blocked(cfg, View(), backfill) && Load(View()) <= old(Load(View()))
      ensures Fcfs(lag, byId) ==> FifoRun(jobs, View(), lag, byId)
      ensures ordered == order(old(calls), old(pending), old(cluster.View()), old(now))
      ensures DispatchWalk(cfg, latency, states, ordered, backfill)
      ensures states != [] && states[0] == old(View()) && states[|states| - 1] == View()
    {
      hide RunOk, Waited, Load, Feasible, FifoRun, Shaped, ConfigOk, Schedules, Nonnegative, InSubmitOrder, ConstantLag,
           WalkSoFar, DispatchWalk, WalkStep;
      var queue := order(calls, pending, cluster.View(), now);
      ordered, states := queue, [View()];
      calls := calls + 1;
      QueueSnapshot(cfg, jobs, View(), samples, order, calls - 1, queue);
      NoStepYet(cfg, latency, View(), queue);
      var i := 0;
      while i < |queue|
        invariant i <= |queue| && Valid() && Load(View()) <= old(Load(View()))
        invariant Walking(cfg, View(), queue, i, backfill)
        invariant Fcfs(lag, byId) ==> FifoRun(jobs, View(), lag, byId) && SubmitSorted(queue, byId)
        invariant WalkSoFar(cfg, latency, states, queue, i, backfill)
        invariant |states| == i + 1 && states[0] == old(View()) && states[i] == View()
      {
        var started := StartIfFits(queue, i, lag, byId);
        if !started && !backfill {
          WalkBlocked(cfg, View(), queue, i);
          WalkStops(cfg, latency, states, queue, i);
          return;
        }
        OneStepMore(cfg, latency, states, queue, i, backfill, View());
        states := states + [View()];
        i := i + 1;
      }
      WalkOver(cfg, View(), queue, backfill);
      WalkEnds(cfg, latency, states, queue, backfill);
    }

    /** Try one job of the walk: start it if the cluster takes it. */
    method StartIfFits(ordered: seq<Job>, i: nat, ghost lag: real, ghost byId: bool) returns (started: bool)
      requires Valid() && i < |ordered| && Walking(cfg, View(), ordered, i, backfill)
      requires Fcfs(lag, byId) ==> FifoRun(jobs, View(), lag, byId) && SubmitSorted(ordered, byId)
      modifies this`pending, this`events, this`nextSeq, this`records, this`dispatched, cluster
      ensures Valid() && Load(View()) <= old(Load(View()))
      ensures started <==> Feasible(cfg, old(cluster.View()), ordered[i])
      ensures !started ==> View() == old(View())
      ensures started || backfill ==> Walking(cfg, View(), ordered, i + 1, backfill)
      ensures WalkStep(cfg, latency, old(View()), ordered[i], View())
      ensures Fcfs(lag, byId) ==> FifoRun(jobs, View(), lag, byId)
    {
      hide RunOk, Waited, Load, Feasible, FifoRun, InSubmitOrder, Walking, ValidPlan, Shaped, ConfigOk, PlanOk,
           Dispatch, Reserve, ClusterObject.Preferred, WalkStep;
      var j := ordered[i];
      ghost var s := View();
      RunOkShape(cfg, jobs, s, samples);
      WalkHead(cfg, s, ordered, i, backfill);
      var plan := cluster.TryAllocate(j);
      started := plan.Some?;
      if plan.Some? {
        ValidPlanOk(cfg, s.cl, j, plan.value);
        var wait := RecordStart(j, plan.value, s);
        DispatchKeepsRun(cfg, jobs, s, samples, j, plan.value, wait);
        DispatchKeepsWaits(cfg, jobs, s, j, plan.value, latency);
        WalkedPast(cfg, jobs, s, View(), ordered, i, plan.value, backfill);
        StartIsStep(cfg, latency, s, j, plan.value, View());
        if Fcfs(lag, byId) {
          FcfsStart(cfg, jobs, s, samples, ordered, i, plan.value, lag, byId);
        }
      } else {
        PassIsStep(cfg, latency, s, j);
        if backfill {
          WalkedOver(cfg, s, ordered, i);
        }
      }
    }

    /** The bookkeeping of a granted start: record it and queue its end. */
    method RecordStart(j: Job, plan: Plan, ghost s: Sim) returns (wait: real)
      requires cluster.cfg == cfg && Nonnegative(latency)
      requires Shaped(cfg, s.cl) && PlanOk(cfg, plan) && j.id in s.records
      requires View() == s.(cl := Reserve(cfg, s.cl, j, plan))
      modifies this`pending, this`events, this`nextSeq, this`records, this`dispatched
      ensures wait >= 0.0 && View() == Dispatch(cfg, s, j, plan, wait) && wait == latency(s.nextSeq, j, s.now)
      ensures forall lag :: ConstantLag(latency, lag) ==> wait == lag
    {
      hide Shaped, PlanOk, Reserve, Push, Remove;
      wait := latency(nextSeq, j, now);
      pending := Remove(pending, j);
      records := records[j.id := records[j.id].(start := Some(now + wait))];
      events := Push(events, Event(now + wait + j.runtime, nextSeq, End, j.id));
      nextSeq := nextSeq + 1;
      dispatched := dispatched[j.id := now];
    }

    // ----- The event loop -----

    /** Handle one event, dispatch, sample. */
    method Step(ghost lag: real, ghost byId: bool) returns (ghost ordered: seq<Job>, ghost states: seq<Sim>)
      requires Valid() && events != [] && Sampled(cfg, View(), samples)
      requires Fcfs(lag, byId) ==> FifoRun(jobs, View(), lag, byId)
      modifies this, cluster
      ensures Valid() && Blocked(cfg, View(), backfill) && Sampled(cfg, View(), samples)
      ensures Load(View()) < old(Load(View()))
      ensures TimesOk(jobs) ==> now >= old(now)
      ensures samples == old(samples) + [(now, Utilization(cfg, cluster.View()))]
      ensures DispatchWalk(cfg, latency, states, ordered, backfill) && states != [] && states[|states| - 1] == View()
      ensures EventHandled(cfg, jobs, old(View()), states[0])
      ensures ordered == order(old(calls), states[0].pending, states[0].cl, states[0].now)
      ensures Fcfs(lag, byId) ==> FifoRun(jobs, View(), lag, byId)
    {
      hide RunOk, Waited, Load, Feasible, FifoRun, InSubmitOrder, Blocked, Schedules, Nonnegative, ConstantLag,
           DispatchWalk, Sampled, Utilization, EventHandled, TimesOk;
      ApplyEvent(lag, byId);
      ordered, states := TryDispatch(lag, byId);
      TakeSample();
    }

    /** Handle the least event. */
    method ApplyEvent(ghost lag: real, ghost byId: bool)
      requires Valid() && events != [] && Sampled(cfg, View(), samples)
      requires Fcfs(lag, byId) ==> FifoRun(jobs, View(), lag, byId)
      modifies this`events, this`now, this`pending, this`records, cluster
      ensures Valid() && Load(View()) < old(Load(View())) && EventHandled(cfg, jobs, old(View()), View())
      ensures TimesOk(jobs) ==> now >= old(now)
      ensures Fcfs(lag, byId) ==> FifoRun(jobs, View(), lag, byId)
    {
      hide RunOk, Waited, Load, FifoRun, InSubmitOrder, Shaped, PlanOk, Schedules, Nonnegative, ConstantLag, Sampled;
      ghost var s := View();
      RunOkShape(cfg, jobs, s, samples);
      TakeEvent(s);
      HandleKeepsRun(cfg, jobs, s, samples);
      HandleKeepsWaits(cfg, jobs, s, latency);
      EventTime(cfg, jobs, s, samples);
      if Fcfs(lag, byId) {
        HandleKeepsFifo(cfg, jobs, s, lag, byId);
      }
    }

    /** Sample the cluster as it is now. */
    method TakeSample()
      requires Valid()
      modifies this`samples
      ensures Valid() && Sampled(cfg, View(), samples)
      ensures samples == old(samples) + [(now, Utilization(cfg, cluster.View()))]
    {
      hide RunOk, Waited, Schedules, Nonnegative, Utilization;
      SampleKeepsRun(cfg, jobs, View(), samples, Utilization(cfg, cluster.View()));
      samples := samples + [(now, Utilization(cfg, cluster.View()))];
    }

    /** Pop the least event and apply it. */
    method TakeEvent(ghost s: Sim)
      requires cluster.cfg == cfg && cluster.Valid() && s == View() && events != []
      requires Shaped(cfg, s.cl) && events[0].id in jobs && events[0].id in records
      requires events[0].id in s.cl.active ==> PlanOk(cfg, s.cl.active[events[0].id])
      modifies this`events, this`now, this`pending, this`records, cluster
      ensures View() == HandleEvent(cfg, jobs, s) && cluster.Valid()
    {
      hide Shaped, PlanOk, Conserved, Free;
      var e := events[0];
      events := events[1..];
      now := e.t;
      match e.kind
      case Submit =>
        pending := pending + [jobs[e.id]];
      case End =>
        cluster.Release(e.id);
        records := records[e.id := records[e.id].(end := Some(now))];
    }

    /** Run to the end of the queue. The cluster is pristine again; if every job fits alone they all
        start and end, and under backfill exactly those run that fit alone; FCFS never lets a later
        submission start first; and the sampled area is the work that was delivered. */
    method Run(ghost lag: real, ghost byId: bool)
      requires Valid() && Sampled(cfg, View(), samples) && Blocked(cfg, View(), backfill)
      requires samples == [(0.0, 0.0)] && (Fcfs(lag, byId) ==> FifoRun(jobs, View(), lag, byId))
      modifies this, cluster
      ensures Valid() && events == [] && cluster.View() == Initial(cfg) && records.Keys == jobs.Keys
      ensures AllFit(cfg, jobs) ==> pending == [] && Completed(records)
      ensures backfill ==> forall id :: id in jobs ==>
                id in records && (records[id].end.Some? <==> Feasible(cfg, Initial(cfg), jobs[id]))
      ensures Fcfs(lag, byId) ==> NoOvertaking(jobs, records, byId)
      ensures TimesOk(jobs) ==> Times(TotalMps(cfg) as real, Area(samples)) == SumR(FinalWork(cfg, jobs, View()))
      ensures TimesOk(jobs) ==> Increasing(samples) && samples != []
      ensures TimesOk(jobs) ==> samples != [] && samples[0].0 == 0.0 && samples[|samples| - 1].0 == now
    {
      hide RunOk, Waited, Load, Feasible, InSubmitOrder, Blocked, Sampled, Schedules, Nonnegative, ConstantLag,
           Completed, AllFit, Metered, Increasing, NoOvertaking, FinalWork, SumR, Times, Area, TotalMps, Utilization,
           FifoRun, TimesOk;
      FirstSample();
      RunOkShape(cfg, jobs, View(), samples);
      HandleAll(lag, byId);
      RunDrains(cfg, jobs, View(), samples, backfill);
      FifoEnds(jobs, View(), lag, byId);
      LastSample();
    }

    /** After the loop: one more sample, and the meter can be read. */
    method LastSample()
      requires Valid() && Sampled(cfg, View(), samples) && cluster.View().active == map[]
      requires TimesOk(jobs) ==> Increasing(samples) && samples != [] && samples[0].0 == 0.0
      modifies this`samples
      ensures Valid() && records.Keys == jobs.Keys
      ensures TimesOk(jobs) ==> Times(TotalMps(cfg) as real, Area(samples)) == SumR(FinalWork(cfg, jobs, View()))
      ensures TimesOk(jobs) ==> Increasing(samples) && samples != []
      ensures TimesOk(jobs) ==> samples != [] && samples[0].0 == 0.0 && samples[|samples| - 1].0 == now
    {
      hide RunOk, Waited, Sampled, Schedules, Nonnegative, Increasing, FinalWork, SumR, Times, Area, TotalMps,
           Utilization, TimesOk;
      SampledNow(cfg, View(), samples);
      ghost var before := samples;
      TakeSample();
      IncreasingAppend(before, now, Utilization(cfg, cluster.View()));
      RunOkShape(cfg, jobs, View(), samples);
      if TimesOk(jobs) {
        MeterReading(cfg, jobs, View(), samples);
      }
    }

    /** The loop: handle events until none is left. */
    method HandleAll(ghost lag: real, ghost byId: bool)
      requires Valid() && Sampled(cfg, View(), samples) && Blocked(cfg, View(), backfill)
      requires Fcfs(lag, byId) ==> FifoRun(jobs, View(), lag, byId)
      requires TimesOk(jobs) ==> Increasing(samples) && samples != [] && samples[0].0 == 0.0
      modifies this, cluster
      ensures events == []
      ensures Valid() && Sampled(cfg, View(), samples) && Blocked(cfg, View(), backfill)
      ensures Fcfs(lag, byId) ==> FifoRun(jobs, View(), lag, byId)
      ensures TimesOk(jobs) ==> Increasing(samples) && samples != [] && samples[0].0 == 0.0
    {
      hide RunOk, Waited, Load, Feasible, FifoRun, InSubmitOrder, Blocked, Sampled, Schedules, Nonnegative, ConstantLag,
           Increasing, Utilization;
      while events != []
        invariant Valid() && Sampled(cfg, View(), samples) && Blocked(cfg, View(), backfill)
        invariant Fcfs(lag, byId) ==> FifoRun(jobs, View(), lag, byId)
        invariant TimesOk(jobs) ==> Increasing(samples) && samples != [] && samples[0].0 == 0.0
        decreases Load(View())
      {
        ghost var before := samples;
        SampledNow(cfg, View(), samples);
        var _, _ := Step(lag, byId);
        IncreasingAppend(before, now, Utilization(cfg, cluster.View()));
      }
    }
  }

  /** Every start-up latency comes from the latency model, asked at the time of the dispatch. */
  ghost predicate Waited(jobs: Trace, s: Sim, latency: Latency) {
    forall id :: id in s.dispatched ==>
      && id in s.records && s.records[id].start.Some? && id in jobs
      && exists k: nat :: s.records[id].start.value == s.dispatched[id] + latency(k, jobs[id], s.dispatched[id])
  }

  lemma NobodyWaits(jobs: Trace, s: Sim, latency: Latency)
    requires s.dispatched == map[]
    ensures Waited(jobs, s, latency)
  {
  }

  lemma HandleKeepsWaits(cfg: Config, jobs: Trace, s: Sim, latency: Latency)
    requires Waited(jobs, s, latency) && s.events != []
    requires Shaped(cfg, s.cl) && s.events[0].id in jobs && s.events[0].id in s.records
    requires s.events[0].id in s.cl.active ==> PlanOk(cfg, s.cl.active[s.events[0].id])
    ensures Waited(jobs, HandleEvent(cfg, jobs, s), latency)
  {
    hide Shaped, PlanOk, Free;
  }

  lemma DispatchKeepsWaits(cfg: Config, jobs: Trace, s: Sim, job: Job, plan: Plan, latency: Latency)
    requires Waited(jobs, s, latency) && job.id in s.records && job.id in jobs && jobs[job.id] == job
    requires Shaped(cfg, s.cl) && PlanOk(cfg, plan)
    ensures Waited(jobs, Dispatch(cfg, s, job, plan, latency(s.nextSeq, job, s.now)), latency)
  {
    hide Shaped, PlanOk, Reserve, Push, Remove;
  }

  ghost predicate Increasing(samples: Samples) {
    samples != [] && forall i, j :: 0 <= i < j < |samples| ==> samples[i].0 <= samples[j].0
  }

  lemma FifoEnds(jobs: Trace, s: Sim, lag: real, byId: bool)
    ensures FifoRun(jobs, s, lag, byId) ==> NoOvertaking(jobs, s.records, byId)
  {
  }

  lemma FirstSample()
    ensures Increasing([(0.0, 0.0)])
  {
  }

  lemma SampledNow(cfg: Config, s: Sim, samples: Samples)
    requires Sampled(cfg, s, samples)
    ensures samples != [] && samples[|samples| - 1].0 == s.now
  {
  }

  lemma IncreasingAppend(samples: Samples, t: real, f: real)
    ensures Increasing(samples) && t >= samples[|samples| - 1].0 ==>
              Increasing(samples + [(t, f)]) && (samples + [(t, f)])[0] == samples[0]
  {
  }

  lemma EventTime(cfg: Config, jobs: Trace, s: Sim, samples: Samples)
    requires RunOk(cfg, jobs, s, samples) && s.events != []
    ensures TimesOk(jobs) ==> s.events[0].t >= s.now
  {
    if TimesOk(jobs) {
      TimedRun(cfg, jobs, s, samples);
      assert s.events[0] in s.events;
    }
  }

  lemma SampleKeepsRun(cfg: Config, jobs: Trace, s: Sim, samples: Samples, f: real)
    requires RunOk(cfg, jobs, s, samples)
    ensures RunOk(cfg, jobs, s, samples + [(s.now, f)])
  {
    hide Staged, FittingOnly, Timed, Metered;
    if TimesOk(jobs) {
      SampleKeepsMeter(cfg, jobs, s, samples, f);
    }
  }

  /** With the queue drained, the sampled area is the work of all dispatched jobs. */
  lemma MeterReading(cfg: Config, jobs: Trace, s: Sim, samples: Samples)
    requires RunOk(cfg, jobs, s, samples) && TimesOk(jobs) && s.cl.active == map[]
    requires samples != [] && samples[|samples| - 1].0 == s.now
    ensures Times(TotalMps(cfg) as real, Area(samples)) == SumR(FinalWork(cfg, jobs, s))
  {
    hide Times, SumR, TotalMps, Timed, Conserved, QueueOk, UsedMps;
    TimedRun(cfg, jobs, s, samples);
    forall id | id in s.dispatched
      ensures id in s.records && s.records[id].end.Some?
    {
      assert id in DoneIds(s.records);
    }
    FinishedWork(cfg, jobs, s);
    TimesZero(samples[|samples| - 1].1);
  }

  lemma ValidPlanOk(cfg: Config, st: State, job: Job, plan: Plan)
    requires ConfigOk(cfg) && Shaped(cfg, st) && ValidPlan(cfg, st, job, plan)
    ensures PlanOk(cfg, plan) && Shaped(cfg, Reserve(cfg, st, job, plan))
  {
  }

  lemma FcfsStart(cfg: Config, jobs: Trace, s: Sim, samples: Samples, ordered: seq<Job>, i: nat, plan: Plan,
                  lag: real, byId: bool)
    requires RunOk(cfg, jobs, s, samples) && TimesOk(jobs) && FifoRun(jobs, s, lag, byId)
        && Walking(cfg, s, ordered, i, false)
    requires i < |ordered| && SubmitSorted(ordered, byId)
    requires Shaped(cfg, s.cl) && PlanOk(cfg, plan) && ordered[i].id in s.records
    ensures FifoRun(jobs, Dispatch(cfg, s, ordered[i], plan, lag), lag, byId)
  {
    hide RunOk, Walking, FifoRun, Shaped, PlanOk, SubmitSorted, Dispatch;
    RunOkShape(cfg, jobs, s, samples);
    WalkHead(cfg, s, ordered, i, false);
    HeadIsEarliest(cfg, s, ordered, i, byId);
    TimedRun(cfg, jobs, s, samples);
    DispatchKeepsFifo(cfg, jobs, s, ordered[i], plan, lag, byId);
  }

  // ----- What dispatching is: one walk over the ordered queue -----

  /** The least event has been applied, as the simulator handles events. */
  ghost predicate EventHandled(cfg: Config, jobs: Trace, s: Sim, s': Sim) {
    && s.events != [] && Shaped(cfg, s.cl) && s.events[0].id in jobs && s.events[0].id in s.records
    && (s.events[0].id in s.cl.active ==> PlanOk(cfg, s.cl.active[s.events[0].id]))
    && s' == HandleEvent(cfg, jobs, s)
  }

  /** The job is started, on a plan the planner prefers, if a placement exists; else nothing happens. */
  ghost predicate WalkStep(cfg: Config, latency: Latency, s: Sim, job: Job, s': Sim) {
    && ConfigOk(cfg) && Shaped(cfg, s.cl)
    && if Feasible(cfg, s.cl, job)
       then exists plan: Plan :: Starts(cfg, latency, s, job, plan, s')
       else s' == s
  }

  ghost predicate Starts(cfg: Config, latency: Latency, s: Sim, job: Job, plan: Plan, s': Sim) {
    && ConfigOk(cfg) && Shaped(cfg, s.cl) && PlanOk(cfg, plan) && job.id in s.records
    && ValidPlan(cfg, s.cl, job, plan) && ClusterObject.Preferred(cfg, s.cl, job, plan)
    && s' == Dispatch(cfg, s, job, plan, latency(s.nextSeq, job, s.now))
  }

  ghost predicate WalkSoFar(cfg: Config, latency: Latency, states: seq<Sim>, ordered: seq<Job>, i: nat,
                            backfill: bool) {
    && |states| == i + 1 && i <= |ordered|
    && (forall k :: 0 <= k < i ==> WalkStep(cfg, latency, states[k], ordered[k], states[k + 1]))
    && (!backfill ==> forall k :: 0 <= k < i ==> Fits(cfg, states[k].cl, ordered[k]))
  }

  ghost predicate Fits(cfg: Config, st: State, job: Job) {
    ConfigOk(cfg) && Shaped(cfg, st) && Feasible(cfg, st, job)
  }

  /** The walk takes the jobs in order, each as the last left the cluster, and goes on to the end - or, without
      backfill, to the first that does not fit. */
  ghost predicate DispatchWalk(cfg: Config, latency: Latency, states: seq<Sim>, ordered: seq<Job>, backfill: bool) {
    && states != [] && WalkSoFar(cfg, latency, states, ordered, |states| - 1, backfill)
    && (|states| <= |ordered| ==> !backfill && !Fits(cfg, states[|states| - 1].cl, ordered[|states| - 1]))
  }

  lemma NoStepYet(cfg: Config, latency: Latency, s: Sim, ordered: seq<Job>)
    ensures forall b :: WalkSoFar(cfg, latency, [s], ordered, 0, b)
  {
  }

  lemma StartIsStep(cfg: Config, latency: Latency, s: Sim, job: Job, plan: Plan, s': Sim)
    requires ConfigOk(cfg) && Shaped(cfg, s.cl) && Feasible(cfg, s.cl, job)
    requires Starts(cfg, latency, s, job, plan, s')
    ensures WalkStep(cfg, latency, s, job, s')
  {
    hide Starts;
  }

  lemma PassIsStep(cfg: Config, latency: Latency, s: Sim, job: Job)
    requires ConfigOk(cfg) && Shaped(cfg, s.cl) && !Feasible(cfg, s.cl, job)
    ensures WalkStep(cfg, latency, s, job, s)
  {
  }

  lemma OneStepMore(cfg: Config, latency: Latency, states: seq<Sim>, ordered: seq<Job>, i: nat, backfill: bool, s': Sim)
    requires WalkSoFar(cfg, latency, states, ordered, i, backfill) && i < |ordered|
    requires WalkStep(cfg, latency, states[i], ordered[i], s') && (backfill || Fits(cfg, states[i].cl, ordered[i]))
    ensures WalkSoFar(cfg, latency, states + [s'], ordered, i + 1, backfill)
  {
    hide WalkStep, Fits;
  }

  lemma WalkStops(cfg: Config, latency: Latency, states: seq<Sim>, ordered: seq<Job>, i: nat)
    requires WalkSoFar(cfg, latency, states, ordered, i, false) && i < |ordered| && !Fits(cfg, states[i].cl, ordered[i])
    ensures DispatchWalk(cfg, latency, states, ordered, false)
  {
    hide WalkStep, Fits;
  }

  lemma WalkEnds(cfg: Config, latency: Latency, states: seq<Sim>, ordered: seq<Job>, backfill: bool)
    requires WalkSoFar(cfg, latency, states, ordered, |ordered|, backfill)
    ensures DispatchWalk(cfg, latency, states, ordered, backfill)
  {
    hide WalkStep, Fits;
  }

  // ----- The walk over the ordered queue -----

  /** Before position i of the ordered queue: the rest is still pending, nothing else is, and what
      was passed over does not fit (under backfill) or was all started (without). */
  ghost predicate Walking(cfg: Config, s: Sim, ordered: seq<Job>, i: nat, backfill: bool) {
    && i <= |ordered| && ConfigOk(cfg) && Shaped(cfg, s.cl) && DistinctJobs(ordered)
    && (forall k :: i <= k < |ordered| ==> ordered[k] in s.pending)
    && (forall j :: j in s.pending ==> j in ordered)
    && (backfill ==> forall k :: 0 <= k < i && ordered[k] in s.pending ==> !Feasible(cfg, s.cl, ordered[k]))
    && (!backfill ==> forall k :: 0 <= k < i ==> ordered[k] !in s.pending)
  }

  lemma QueueSnapshot(cfg: Config, jobs: Trace, s: Sim, samples: Samples, order: Order, k: nat, ordered: seq<Job>)
    requires RunOk(cfg, jobs, s, samples) && Schedules(order) && ordered == order(k, s.pending, s.cl, s.now)
    ensures forall b :: Walking(cfg, s, ordered, 0, b)
    ensures forall byId :: InSubmitOrder(order, byId) ==> SubmitSorted(ordered, byId)
  {
    hide RunOk, Feasible;
    RunOkShape(cfg, jobs, s, samples);
    PermutesElems(s.pending, ordered);
    DistinctJobsPermute(s.pending, ordered);
  }

  lemma WalkHead(cfg: Config, s: Sim, ordered: seq<Job>, i: nat, backfill: bool)
    requires Walking(cfg, s, ordered, i, backfill) && i < |ordered|
    ensures ordered[i] in s.pending && ConfigOk(cfg) && Shaped(cfg, s.cl)
  {
  }

  lemma WalkBlocked(cfg: Config, s: Sim, ordered: seq<Job>, i: nat)
    requires Walking(cfg, s, ordered, i, false) && i < |ordered|
    requires ConfigOk(cfg) && Shaped(cfg, s.cl) && !Feasible(cfg, s.cl, ordered[i])
    ensures Blocked(cfg, s, false)
  {
  }

  lemma WalkOver(cfg: Config, s: Sim, ordered: seq<Job>, backfill: bool)
    requires Walking(cfg, s, ordered, |ordered|, backfill)
    ensures Blocked(cfg, s, backfill)
  {
    assert s.pending != [] ==> s.pending[0] in s.pending;
  }

  lemma WalkedOver(cfg: Config, s: Sim, ordered: seq<Job>, i: nat)
    requires Walking(cfg, s, ordered, i, true) && i < |ordered|
    requires ConfigOk(cfg) && Shaped(cfg, s.cl) && !Feasible(cfg, s.cl, ordered[i])
    ensures Walking(cfg, s, ordered, i + 1, true)
  {
  }

  lemma WalkedPast(cfg: Config, jobs: Trace, s: Sim, s': Sim, ordered: seq<Job>, i: nat, plan: Plan, backfill: bool)
    requires Walking(cfg, s, ordered, i, backfill) && i < |ordered| && Booked(jobs, s)
    requires Shaped(cfg, s.cl) && PlanOk(cfg, plan) && ConfigOk(cfg) && ordered[i].id in s.records
    requires exists w :: s' == Dispatch(cfg, s, ordered[i], plan, w)
    requires Shaped(cfg, s'.cl) && forall j :: !Feasible(cfg, s.cl, j) ==> !Feasible(cfg, s'.cl, j)
    ensures Walking(cfg, s', ordered, i + 1, backfill)
  {
    hide Feasible, Reserve, PlanOk, Remove, QueueOk, Stages, Ids;
    RemoveIds(s.pending, ordered[i]);
  }

  lemma HeadIsEarliest(cfg: Config, s: Sim, ordered: seq<Job>, i: nat, byId: bool)
    requires Walking(cfg, s, ordered, i, false) && i < |ordered| && SubmitSorted(ordered, byId)
    ensures forall j :: j in s.pending ==> Ahead(byId, ordered[i], j)
  {
    forall j | j in s.pending
      ensures Ahead(byId, ordered[i], j)
    {
      var k :| 0 <= k < |ordered| && ordered[k] == j;
    }
  }

  lemma TimedRun(cfg: Config, jobs: Trace, s: Sim, samples: Samples)
    requires RunOk(cfg, jobs, s, samples) && TimesOk(jobs)
    ensures Timed(jobs, s) && Metered(cfg, jobs, s, samples)
  {
  }

  /** The event is the submission of the job whose place in the list is its number. */
  ghost predicate Numbers(sorted: seq<Job>, e: Event) {
    e.seqNo < |sorted| && e == Event(sorted[e.seqNo].submit, e.seqNo, Submit, sorted[e.seqNo].id)
  }

  /** One submit event per job, numbered in submission order. */
  method SubmitEvents(ghost trace: seq<Job>, sorted: seq<Job>) returns (events: seq<Event>, n: nat)
    requires DistinctJobs(trace) && Permutes(trace, sorted)
    ensures QueueOk(events) && Ids(events, Submit) == JobIds(trace) && Ids(events, End) == {}
    ensures |events| == n == |trace| && forall e :: e in events ==> Numbers(sorted, e)
  {
    PermutesElems(trace, sorted);
    DistinctJobsPermute(trace, sorted);
    events, n := [], 0;
    for i := 0 to |sorted|
      invariant n == i == |events| && QueueOk(events)
      invariant Ids(events, Submit) == JobIds(sorted[..i]) && Ids(events, End) == {}
      invariant forall e :: e in events ==> Numbers(sorted, e)
    {
      var j := sorted[i];
      assert sorted[..i + 1] == sorted[..i] + [j];
      AppendIds(sorted[..i], j);
      assert j.id !in JobIds(sorted[..i]);
      var e := Event(j.submit, n, Submit, j.id);
      PushIds(events, e);
      events := Push(events, e);
      n := n + 1;
    }
    assert sorted[..|sorted|] == sorted;
  }

  lemma EventsOk(trace: seq<Job>, sorted: seq<Job>, events: seq<Event>)
    requires DistinctJobs(trace) && Permutes(trace, sorted) && forall e :: e in events ==> Numbers(sorted, e)
    ensures forall e :: e in events ==>
              e.kind == Submit && e.id in ById(trace) && e.t == ById(trace)[e.id].submit
  {
    hide DistinctJobs, ById;
    PermutesElems(trace, sorted);
    forall e | e in events
      ensures e.kind == Submit && e.id in ById(trace) && e.t == ById(trace)[e.id].submit
    {
      var j := sorted[e.seqNo];
      assert Numbers(sorted, e) && j in sorted && j.id in JobIds(trace);
    }
  }

  /** At first nobody has been submitted, and the submissions are queued in order. */
  lemma FifoStarts(trace: seq<Job>, sorted: seq<Job>, s: Sim)
    requires DistinctJobs(trace) && sorted == Sort(SubmitLe, trace) && forall e :: e in s.events ==> Numbers(sorted, e)
    requires s.dispatched == map[] && s.records == map id | id in ById(trace) :: Record(None, None)
    requires Ids(s.events, Submit) == JobIds(trace)
    ensures forall lag, byId :: (byId ==> TiesById(trace)) ==> FifoRun(ById(trace), s, lag, byId)
  {
    hide Ids, TiesById, FifoRun, DistinctJobs, ById, Sort;
    forall lag, byId | byId ==> TiesById(trace)
      ensures FifoRun(ById(trace), s, lag, byId)
    {
      QueuedInOrder(trace, sorted, s.events, byId);
      NobodyYet(ById(trace), s, lag, byId);
    }
  }

  lemma NobodyYet(jobs: Trace, s: Sim, lag: real, byId: bool)
    requires s.dispatched == map[] && s.records == map id | id in jobs :: Record(None, None)
    requires Ids(s.events, Submit) == jobs.Keys && Numbered(jobs, s.events, byId)
    ensures FifoRun(jobs, s, lag, byId)
  {
    hide Numbered, Ahead, Ids;
  }

  lemma QueuedInOrder(trace: seq<Job>, sorted: seq<Job>, events: seq<Event>, byId: bool)
    requires DistinctJobs(trace) && sorted == Sort(SubmitLe, trace) && (byId ==> TiesById(trace))
    requires forall e :: e in events ==> Numbers(sorted, e)
    ensures Numbered(ById(trace), events, byId)
  {
    hide DistinctJobs, ById, TiesById, Sort;
    if byId {
      TiesStayListed(trace);
    }
    PermutesElems(trace, sorted);
    forall a, b | a in events && b in events && EventLe(a, b)
      ensures a.id in ById(trace) && b.id in ById(trace) && Ahead(byId, ById(trace)[a.id], ById(trace)[b.id])
    {
      assert Numbers(sorted, a) && Numbers(sorted, b);
      var p, q := sorted[a.seqNo], sorted[b.seqNo];
      assert p in sorted && q in sorted && p.id in JobIds(trace) && q.id in JobIds(trace);
      assert byId && a.seqNo < b.seqNo ==> FcfsLe(p, q);
    }
  }

  lemma DistinctJobsPermute(a: seq<Job>, b: seq<Job>)
    requires Permutes(a, b) && DistinctJobs(a)
    ensures DistinctJobs(b) && JobIds(a) == JobIds(b)
  {
    assert Distinct(a);
    PermutesElems(a, b);
    PermutesDistinct(a, b);
    forall i, j | 0 <= i < j < |b|
      ensures b[i].id != b[j].id
    {
      assert b[i] in a && b[j] in a;
      var p :| 0 <= p < |a| && a[p] == b[i];
      var q :| 0 <= q < |a| && a[q] == b[j];
    }
  }

  lemma StartOk(cfg: Config, jobs: Trace, s: Sim)
    requires ConfigOk(cfg) && s.cl == Initial(cfg) && TraceOk(jobs)
    requires s.pending == [] && s.now == 0.0 && s.dispatched == map[]
    requires s.records == map id | id in jobs :: Record(None, None)
    requires QueueOk(s.events) && Ids(s.events, Submit) == jobs.Keys && Ids(s.events, End) == {}
    requires forall e :: e in s.events ==> e.kind == Submit && e.id in jobs && e.t == jobs[e.id].submit
    ensures RunOk(cfg, jobs, s, [(0.0, 0.0)]) && Sampled(cfg, s, [(0.0, 0.0)])
    ensures forall b :: Blocked(cfg, s, b)
  {
    hide QueueOk, Conserved, JobSlots;
    InitialConserved(cfg);
    InitialUsesNothing(cfg);
    assert Shaped(cfg, s.cl);
    assert JobIds(s.pending) == {} && DoneIds(s.records) == {};
    assert Serving(cfg, jobs, s) == map[] && Work(cfg, jobs, s, s.now) == map[];
  }
}
