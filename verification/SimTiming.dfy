/** The simulator's clock and its utilisation meter: time never runs backwards, every timestamp is
    what its event says, and the sampled utilisation accounts for every slot-second of work. */
module SimTiming {
  import opened Wrappers
  import opened Sums
  import opened Sorting
  import opened ClusterModel
  import opened ClusterPlanning
  import opened SimModel

  // ----- The clock -----

  ghost predicate QueueTimed(jobs: Trace, s: Sim) {
    forall e :: e in s.events ==>
      && e.t >= s.now && e.id in jobs
      && (e.kind == Submit ==> e.t == jobs[e.id].submit)
      && (e.kind == End ==>
            e.id in s.records && s.records[e.id].start.Some? && e.t == s.records[e.id].start.value + jobs[e.id].runtime)
  }

  ghost predicate StartsTimed(jobs: Trace, s: Sim) {
    forall id :: id in s.dispatched ==>
      && id in jobs && id in s.records && s.records[id].start.Some?
      && jobs[id].submit <= s.dispatched[id] <= s.now
      && s.dispatched[id] <= s.records[id].start.value
  }

  ghost predicate EndsTimed(jobs: Trace, s: Sim) {
    forall id :: id in s.records && s.records[id].end.Some? ==>
      && id in jobs && s.records[id].start.Some?
      && s.records[id].end.value == s.records[id].start.value + jobs[id].runtime
      && s.records[id].end.value <= s.now
  }

  predicate HappenedAt(jobs: Trace, records: map<JobId, Record>, id: JobId, t: real) {
    id in jobs && (jobs[id].submit == t || (id in records && records[id].end == Some(t)))
  }

  /** The clock shows zero, or the time of a submission or an end. */
  ghost predicate OnTheClock(jobs: Trace, s: Sim) {
    s.now != 0.0 ==> exists id :: HappenedAt(jobs, s.records, id, s.now)
  }

  ghost predicate Timed(jobs: Trace, s: Sim) {
    && s.now >= 0.0 && OnTheClock(jobs, s)
    && QueueTimed(jobs, s) && StartsTimed(jobs, s) && EndsTimed(jobs, s)
    && forall j :: j in s.pending ==> j.submit <= s.now
  }

  lemma TailEvents(s: Sim)
    requires QueueOk(s.events) && s.events != []
    ensures forall x :: x in s.events[1..] ==> x in s.events && x.t >= s.events[0].t && x.id != s.events[0].id
  {
    TailIdsDiffer(s.events);
    forall x | x in s.events[1..]
      ensures x in s.events && x.t >= s.events[0].t
    {
      var i :| 0 <= i < |s.events| - 1 && s.events[1..][i] == x;
      assert s.events[i + 1] == x && EventLe(s.events[0], s.events[i + 1]);
    }
  }

  lemma SubmitKeepsTime(jobs: Trace, s: Sim, s': Sim)
    requires TraceOk(jobs) && QueueOk(s.events) && Timed(jobs, s) && s.events != [] && s.events[0].kind == Submit
    requires s.events[0].id in jobs
    requires s' == s.(now := s.events[0].t, events := s.events[1..], pending := s.pending + [jobs[s.events[0].id]])
    ensures Timed(jobs, s') && s'.now >= s.now
  {
    hide QueueOk;
    TailEvents(s);
    assert s.events[0] in s.events;
    assert HappenedAt(jobs, s'.records, s.events[0].id, s'.now);
  }

  lemma EndKeepsTime(jobs: Trace, s: Sim, s': Sim)
    requires QueueOk(s.events) && Timed(jobs, s) && s.events != [] && s.events[0].kind == End
    requires s.events[0].id in jobs && s.events[0].id in s.records
    requires s'.now == s.events[0].t && s'.events == s.events[1..]
    requires s'.pending == s.pending && s'.dispatched == s.dispatched
    requires s'.records == s.records[s.events[0].id := s.records[s.events[0].id].(end := Some(s.events[0].t))]
    ensures Timed(jobs, s') && s'.now >= s.now
  {
    hide QueueOk;
    TailEvents(s);
    assert s.events[0] in s.events;
    assert HappenedAt(jobs, s'.records, s.events[0].id, s'.now);
  }

  lemma HandleKeepsTime(cfg: Config, jobs: Trace, s: Sim)
    requires TraceOk(jobs) && QueueOk(s.events) && Timed(jobs, s) && s.events != []
    requires Shaped(cfg, s.cl) && s.events[0].id in jobs && s.events[0].id in s.records
    requires s.events[0].id in s.cl.active ==> PlanOk(cfg, s.cl.active[s.events[0].id])
    ensures Timed(jobs, HandleEvent(cfg, jobs, s)) && HandleEvent(cfg, jobs, s).now >= s.now
  {
    hide TraceOk, QueueOk, Timed, Shaped, PlanOk, Free;
    if s.events[0].kind == Submit {
      SubmitKeepsTime(jobs, s, HandleEvent(cfg, jobs, s));
    } else {
      EndKeepsTime(jobs, s, HandleEvent(cfg, jobs, s));
    }
  }

  lemma StartKeepsTime(jobs: Trace, s: Sim, s': Sim, job: Job, start: real)
    requires TimesOk(jobs) && Timed(jobs, s) && job in s.pending && job.id in jobs && jobs[job.id] == job
    requires forall e :: e in s.events ==> e.id != job.id
    requires job.id in s.records && s.records[job.id].end.None? && start >= s.now
    requires s'.now == s.now && forall j :: j in s'.pending ==> j in s.pending
    requires forall e :: e in s'.events ==> e in s.events || e == Event(start + job.runtime, s.nextSeq, End, job.id)
    requires s'.records == s.records[job.id := s.records[job.id].(start := Some(start))]
    requires s'.dispatched == s.dispatched[job.id := s.now]
    ensures Timed(jobs, s')
  {
    if s.now != 0.0 {
      var id :| HappenedAt(jobs, s.records, id, s.now);
      assert HappenedAt(jobs, s'.records, id, s'.now);
    }
  }

  lemma DispatchKeepsTime(cfg: Config, jobs: Trace, s: Sim, job: Job, plan: Plan, latency: real)
    requires TimesOk(jobs) && Booked(jobs, s) && Timed(jobs, s) && job in s.pending && job.id in s.records
    requires Shaped(cfg, s.cl) && PlanOk(cfg, plan) && latency >= 0.0
    ensures Timed(jobs, Dispatch(cfg, s, job, plan, latency))
  {
    hide Booked, TimesOk, Timed, PlanOk, Shaped, Reserve, Push, Remove;
    PushElems(s.events, Event(s.now + latency + job.runtime, s.nextSeq, End, job.id));
    PendingNotElsewhere(jobs, s, job);
    RemoveSubset(s.pending, job);
    StartKeepsTime(jobs, s, Dispatch(cfg, s, job, plan, latency), job, s.now + latency);
  }

  /** A pending job has no event in the queue, has not been dispatched and has not ended. */
  lemma PendingNotElsewhere(jobs: Trace, s: Sim, job: Job)
    requires Booked(jobs, s) && job in s.pending
    ensures job.id in jobs && jobs[job.id] == job && job.id !in s.cl.active && job.id !in s.dispatched
    ensures forall e :: e in s.events ==> e.id != job.id
    ensures job.id in s.records && s.records[job.id].end.None?
  {
    assert job.id in JobIds(s.pending);
    assert job.id in DoneIds(s.records) || (job.id in s.records && s.records[job.id].end.None?);
    forall e | e in s.events
      ensures e.id != job.id
    {
      assert e.id in Ids(s.events, e.kind);
    }
  }

  // ----- The utilisation meter -----

  /** Multiplication under a name, so that products stay atomic in proofs about sums. */
  function Times(a: real, b: real): real {
    a * b
  }

  type Samples = seq<(real, real)>

  /** Sum of f0 * (t1 - t0) over consecutive samples. */
  function Area(samples: Samples): real {
    if |samples| < 2 then 0.0
    else
      var m := |samples| - 1;
      Area(samples[..m]) + Times(samples[m - 1].1, samples[m].0 - samples[m - 1].0)
  }

  /** The area up to `now`, the last sample still holding. */
  function AreaTo(samples: Samples, now: real): real
    requires samples != []
  {
    Area(samples) + Times(samples[|samples| - 1].1, now - samples[|samples| - 1].0)
  }

  function Utilization(cfg: Config, st: State): real {
    if TotalMps(cfg) == 0 then 0.0 else UsedMps(cfg, st) as real / TotalMps(cfg) as real
  }

  /** Slots each dispatched job holds right now: none once it has ended. */
  ghost function Serving(cfg: Config, jobs: Trace, s: Sim): map<JobId, real> {
    map id | id in s.dispatched && id in jobs && id in s.records ::
      if s.records[id].end.Some? then 0.0 else JobSlots(cfg, jobs[id]) as real
  }

  /** Slot-seconds delivered to each dispatched job by time t. */
  ghost function Work(cfg: Config, jobs: Trace, s: Sim, t: real): map<JobId, real> {
    map id | id in s.dispatched && id in jobs && id in s.records ::
      Times(JobSlots(cfg, jobs[id]) as real,
            (if s.records[id].end.Some? then s.records[id].end.value else t) - s.dispatched[id])
  }

  ghost predicate Metered(cfg: Config, jobs: Trace, s: Sim, samples: Samples) {
    && samples != [] && samples[|samples| - 1].0 <= s.now
    && SumR(Serving(cfg, jobs, s)) == UsedMps(cfg, s.cl) as real
    && Times(TotalMps(cfg) as real, AreaTo(samples, s.now)) == SumR(Work(cfg, jobs, s, s.now))
  }

  lemma TimesSum(a: real, b: real, d: real)
    ensures Times(a + b, d) == Times(a, d) + Times(b, d)
    ensures Times(d, a + b) == Times(d, a) + Times(d, b)
  {
  }

  lemma TimesZero(d: real)
    ensures Times(0.0, d) == 0.0 && Times(d, 0.0) == 0.0
  {
  }

  lemma {:induction false} SumAdvance(w: map<JobId, real>, w': map<JobId, real>, r: map<JobId, real>, d: real)
    requires w.Keys == w'.Keys == r.Keys
    requires forall id :: id in w ==> w'[id] == w[id] + Times(r[id], d)
    ensures SumR(w') == SumR(w) + Times(SumR(r), d)
    decreases |w|
  {
    hide Times, SumR;
    TimesZero(d);
    if w == map[] {
      assert w' == map[] && r == map[];
      SumEmptyR(w);
    } else {
      var id :| id in w;
      SumTakeR(w, id);
      SumTakeR(w', id);
      SumTakeR(r, id);
      SumAdvance(w - {id}, w' - {id}, r - {id}, d);
      TimesSum(r[id], SumR(r - {id}), d);
    }
  }

  lemma Distribute(a: real, b: real, c: real, d: real)
    ensures Times(a, b - d) == Times(a, c - d) + Times(a, b - c)
  {
  }

  /** While the clock advances, work accrues at the rate of the slots in use. */
  lemma WorkAdvances(cfg: Config, jobs: Trace, s: Sim, t: real)
    ensures SumR(Work(cfg, jobs, s, t))
         == SumR(Work(cfg, jobs, s, s.now)) + Times(SumR(Serving(cfg, jobs, s)), t - s.now)
  {
    hide JobSlots, SumR, Times;
    var w, w', r := Work(cfg, jobs, s, s.now), Work(cfg, jobs, s, t), Serving(cfg, jobs, s);
    forall id | id in w
      ensures w'[id] == w[id] + Times(r[id], t - s.now)
    {
      Distribute(JobSlots(cfg, jobs[id]) as real, t, s.now, s.dispatched[id]);
      TimesZero(t - s.now);
    }
    SumAdvance(w, w', r, t - s.now);
  }

  // ----- The meter over one event, one dispatch and one sample -----

  /** The last sample was taken now and shows the cluster as it is. */
  ghost predicate Sampled(cfg: Config, s: Sim, samples: Samples) {
    samples != [] && samples[|samples| - 1] == (s.now, Utilization(cfg, s.cl))
  }

  lemma {:induction false} RowNonneg(row: seq<int>)
    requires forall g :: 0 <= g < |row| ==> row[g] >= 0
    ensures RowSum(row) >= 0
  {
    if row != [] {
      RowNonneg(row[..|row| - 1]);
    }
  }

  lemma {:induction false} GridNonneg(free: seq<seq<int>>)
    requires forall n, g :: 0 <= n < |free| && 0 <= g < |free[n]| ==> free[n][g] >= 0
    ensures GridSum(free) >= 0
  {
    if free != [] {
      GridNonneg(free[..|free| - 1]);
      RowNonneg(free[|free| - 1]);
    }
  }

  /** The share in use, times the whole, is what is in use. */
  lemma ShareOfTotal(used: int, total: nat, d: real)
    requires 0 <= used <= total
    ensures Times(total as real, Times(if total == 0 then 0.0 else used as real / total as real, d)) ==
              Times(used as real, d)
  {
    if total != 0 {
      var u := used as real / total as real;
      assert total as real * u == used as real;
      assert total as real * (u * d) == (total as real * u) * d;
    }
  }

  lemma UtilizationShare(cfg: Config, st: State, d: real)
    requires Conserved(cfg, st) && UsedMps(cfg, st) >= 0
    ensures Times(TotalMps(cfg) as real, Times(Utilization(cfg, st), d)) == Times(UsedMps(cfg, st) as real, d)
  {
    GridNonneg(st.free);
    ShareOfTotal(UsedMps(cfg, st), TotalMps(cfg), d);
  }

  lemma ServingNonneg(cfg: Config, jobs: Trace, s: Sim)
    ensures SumR(Serving(cfg, jobs, s)) >= 0.0
  {
    SumNonnegR(Serving(cfg, jobs, s));
  }

  /** The clock moves on: the area grows by what was in use, and so does the work. */
  lemma ClockKeepsMeter(cfg: Config, jobs: Trace, s: Sim, samples: Samples, t: real)
    requires Conserved(cfg, s.cl) && Metered(cfg, jobs, s, samples) && Sampled(cfg, s, samples)
    ensures Times(TotalMps(cfg) as real, AreaTo(samples, t)) == SumR(Work(cfg, jobs, s, t))
  {
    hide Conserved, Times, SumR, Serving, Work, TotalMps, UsedMps, Utilization, Area;
    WorkAdvances(cfg, jobs, s, t);
    ServingNonneg(cfg, jobs, s);
    UtilizationShare(cfg, s.cl, t - s.now);
    TimesZero(Utilization(cfg, s.cl));
    TimesSum(AreaTo(samples, s.now), Times(Utilization(cfg, s.cl), t - s.now), TotalMps(cfg) as real);
  }

  lemma SubmitKeepsMeter(cfg: Config, jobs: Trace, s: Sim, s': Sim, samples: Samples)
    requires Conserved(cfg, s.cl) && Metered(cfg, jobs, s, samples) && Sampled(cfg, s, samples)
    requires s'.now >= s.now && s'.cl == s.cl && s'.records == s.records && s'.dispatched == s.dispatched
    ensures Metered(cfg, jobs, s', samples)
  {
    hide Conserved, Times, SumR, UsedMps, Area, JobSlots, Utilization;
    ClockKeepsMeter(cfg, jobs, s, samples, s'.now);
    assert Work(cfg, jobs, s', s'.now) == Work(cfg, jobs, s, s'.now);
    assert Serving(cfg, jobs, s') == Serving(cfg, jobs, s);
  }

  lemma EndServing(cfg: Config, jobs: Trace, s: Sim, s': Sim, id: JobId, t: real)
    requires id in s.records && id in s.dispatched && id in jobs && s.records[id].end.None?
    requires s'.records == s.records[id := s.records[id].(end := Some(t))] && s'.dispatched == s.dispatched
    ensures SumR(Serving(cfg, jobs, s')) == SumR(Serving(cfg, jobs, s)) - JobSlots(cfg, jobs[id]) as real
    ensures Work(cfg, jobs, s', t) == Work(cfg, jobs, s, t)
  {
    hide SumR, JobSlots, Times;
    SumTakeR(Serving(cfg, jobs, s), id);
    SumTakeR(Serving(cfg, jobs, s'), id);
    assert Serving(cfg, jobs, s') - {id} == Serving(cfg, jobs, s) - {id};
  }

  lemma EndKeepsMeter(cfg: Config, jobs: Trace, s: Sim, s': Sim, id: JobId, samples: Samples)
    requires Conserved(cfg, s.cl) && SlotsKnown(cfg, jobs, s.cl)
    requires Metered(cfg, jobs, s, samples) && Sampled(cfg, s, samples)
    requires id in s.records && id in s.dispatched && s.records[id].end.None? && id in s.cl.active && id in jobs
    requires Shaped(cfg, s.cl) && PlanOk(cfg, s.cl.active[id])
    requires s'.now >= s.now && s'.cl == Free(cfg, s.cl, id) && s'.dispatched == s.dispatched
    requires s'.records == s.records[id := s.records[id].(end := Some(s'.now))]
    ensures Metered(cfg, jobs, s', samples)
  {
    hide Conserved, Shaped, PlanOk, Free, Times, SumR, UsedMps, Area, Work, Serving, JobSlots, Utilization;
    ClockKeepsMeter(cfg, jobs, s, samples, s'.now);
    EndServing(cfg, jobs, s, s', id, s'.now);
    FreeReturns(cfg, s.cl, id);
  }

  lemma DispatchServing(cfg: Config, jobs: Trace, s: Sim, s': Sim, id: JobId, start: real)
    requires id in jobs && id in s.records && s.records[id].end.None? && id !in s.dispatched
    requires s'.now == s.now && s'.dispatched == s.dispatched[id := s.now]
    requires s'.records == s.records[id := s.records[id].(start := Some(start))]
    ensures SumR(Serving(cfg, jobs, s')) == SumR(Serving(cfg, jobs, s)) + JobSlots(cfg, jobs[id]) as real
    ensures SumR(Work(cfg, jobs, s', s'.now)) == SumR(Work(cfg, jobs, s, s.now))
  {
    hide SumR, JobSlots, Times;
    var slots := JobSlots(cfg, jobs[id]) as real;
    TimesZero(slots);
    SumPutR(Serving(cfg, jobs, s), id, slots);
    SumPutR(Work(cfg, jobs, s, s.now), id, 0.0);
    assert Serving(cfg, jobs, s') == Serving(cfg, jobs, s)[id := slots];
    assert Work(cfg, jobs, s', s'.now) == Work(cfg, jobs, s, s.now)[id := 0.0];
  }

  lemma DispatchKeepsMeter(cfg: Config, jobs: Trace, s: Sim, job: Job, plan: Plan, latency: real, samples: Samples)
    requires Booked(jobs, s) && Metered(cfg, jobs, s, samples) && job in s.pending && job.id in s.records
    requires Shaped(cfg, s.cl) && ConfigOk(cfg) && PlanOk(cfg, plan) && ValidPlan(cfg, s.cl, job, plan)
    ensures Metered(cfg, jobs, Dispatch(cfg, s, job, plan, latency), samples)
  {
    hide Booked, Shaped, ConfigOk, PlanOk, ValidPlan, Times, SumR, UsedMps, Work, Serving, JobSlots, Reserve, Push,
         Remove;
    PendingNotElsewhere(jobs, s, job);
    DispatchServing(cfg, jobs, s, Dispatch(cfg, s, job, plan, latency), job.id, s.now + latency);
    ReserveUses(cfg, s.cl, job, plan);
  }

  lemma SampleKeepsMeter(cfg: Config, jobs: Trace, s: Sim, samples: Samples, f: real)
    requires Metered(cfg, jobs, s, samples)
    ensures Metered(cfg, jobs, s, samples + [(s.now, f)])
  {
    hide Times, SumR, UsedMps, Work, Serving, TotalMps;
    var more := samples + [(s.now, f)];
    assert more[..|more| - 1] == samples;
    TimesZero(f);
  }
}
