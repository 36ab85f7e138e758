/** The summary a run reports: time-weighted utilisation and the backfill rate. */
module Metrics {
  import opened Wrappers
  import opened Sums
  import opened Sorting
  import opened ClusterModel
  import opened ClusterPlanning
  import opened SimModel
  import opened SimTiming
  import opened SimRun
  import opened Runner

  // ----- Utilisation -----

  /** Time-weighted mean of the samples; intervals that do not move the clock forward are skipped. */
  method MeanUtilization(samples: Samples) returns (util: real)
    ensures Increasing(samples) ==> util == Mean(samples)
  {
    var busy, total := 0.0, 0.0;
    if |samples| >= 2 {
      for i := 1 to |samples|
        invariant Increasing(samples) ==> busy == Area(samples[..i]) && total == samples[i - 1].0 - samples[0].0
      {
        var dt := samples[i].0 - samples[i - 1].0;
        assert samples[..i + 1][..i] == samples[..i];
        if dt > 0.0 {
          busy := busy + Times(samples[i - 1].1, dt);
          total := total + dt;
        }
        TimesZero(samples[i - 1].1);
      }
      assert samples[..|samples|] == samples;
    }
    util := if total > 0.0 then busy / total else 0.0;
  }

  /** The area under the samples, spread over the time they span. */
  function Mean(samples: Samples): real {
    if samples == [] then 0.0
    else
      var span := samples[|samples| - 1].0 - samples[0].0;
      if span > 0.0 then Area(samples) / span else 0.0
  }

  lemma AreaOverSpan(total: real, area: real, span: real)
    requires span > 0.0
    ensures Times(Times(total, area / span), span) == Times(total, area)
  {
    var u := area / span;
    assert u * span == area;
    assert total * u * span == total * (u * span);
  }

  /** The reported utilisation, times all slots, times the time from zero to the last event, is the
      slot-time delivered to the jobs: start-up latency plus runtime each. */
  lemma UtilizationIsWork(cfg: Config, jobs: Trace, s: Sim, samples: Samples)
    requires Increasing(samples) && samples[0].0 == 0.0 && samples[|samples| - 1].0 == s.now && s.now > 0.0
    requires Times(TotalMps(cfg) as real, Area(samples)) == SumR(FinalWork(cfg, jobs, s))
    ensures Times(Times(TotalMps(cfg) as real, Mean(samples)), s.now) == SumR(FinalWork(cfg, jobs, s))
  {
    hide SumR, FinalWork, TotalMps, Times, Area;
    AreaOverSpan(TotalMps(cfg) as real, Area(samples), s.now);
  }

  /** Slots times runtime of every job that started. */
  ghost function SlotTime(cfg: Config, jobs: Trace, records: map<JobId, Record>): map<JobId, real> {
    map id | id in jobs && id in records && records[id].start.Some? ::
      Times(JobSlots(cfg, jobs[id]) as real, jobs[id].runtime)
  }

  /** Without start-up latency the work of a run is the slots times the runtime of every job started. */
  lemma WorkWithoutLatency(cfg: Config, jobs: Trace, s: Sim, latency: Latency)
    requires Booked(jobs, s) && Waited(jobs, s, latency) && ConstantLag(latency, 0.0)
    ensures FinalWork(cfg, jobs, s) == SlotTime(cfg, jobs, s.records)
  {
    hide QueueOk, DistinctJobs, Stages, JobsKnown, Times, JobSlots;
    forall id | id in s.dispatched
      ensures id in jobs && id in s.records && s.records[id].start == Some(s.dispatched[id])
    {
      var k: nat :| s.records[id].start.value == s.dispatched[id] + latency(k, jobs[id], s.dispatched[id]);
    }
  }

  // ----- Utilisation over the makespan -----

  predicate Ended(records: map<JobId, Record>, id: JobId) {
    id in records && records[id].end.Some?
  }

  /** The earliest submission among the jobs that finished. */
  ghost predicate FirstSubmit(jobs: Trace, records: map<JobId, Record>, t: real) {
    && (exists id :: id in jobs && Ended(records, id) && jobs[id].submit == t)
    && forall id :: id in jobs && Ended(records, id) ==> t <= jobs[id].submit
  }

  /** The latest end. */
  ghost predicate LastEnd(jobs: Trace, records: map<JobId, Record>, t: real) {
    && (exists id :: id in jobs && Ended(records, id) && records[id].end.value == t)
    && forall id :: id in jobs && Ended(records, id) ==> records[id].end.value <= t
  }

  /** Mean number of slots in use over the makespan, as a fraction of all slots. */
  function OverMakespan(cfg: Config, work: real, makespan: real): real {
    var slots := TotalMps(cfg) as real;
    if Times(slots, makespan) > 0.0 then work / Times(slots, makespan) else 0.0
  }

  lemma TimesPositive(a: real, b: real)
    requires a > 0.0 && b > 0.0
    ensures Times(a, b) > 0.0
  {
  }

  /** Two spans over which the same work is the same positive fraction are equally long. */
  lemma SameFraction(slots: real, work: real, u: real, span: real, makespan: real)
    requires slots >= 0.0 && span > 0.0 && makespan >= 0.0 && work > 0.0 && Times(Times(slots, u), span) == work
    ensures Times(slots, makespan) > 0.0 <==> makespan > 0.0
    ensures u == (if Times(slots, makespan) > 0.0 then work / Times(slots, makespan) else 0.0) <==> makespan == span
  {
    assert slots * u * span == work;
    assert slots > 0.0;
    if makespan > 0.0 {
      TimesPositive(slots, makespan);
      var v := work / Times(slots, makespan);
      assert v * (slots * makespan) == work;
      if u == v {
        assert (slots * u) * (span - makespan) == 0.0;
        assert slots * u > 0.0;
      }
    }
  }

  lemma NoTimeNoWork(cfg: Config, jobs: Trace, s: Sim)
    requires TimesOk(jobs) && Timed(jobs, s) && s.now == 0.0
    requires forall id :: id in s.dispatched ==> Ended(s.records, id)
    ensures SumR(FinalWork(cfg, jobs, s)) == 0.0
  {
    hide JobSlots, QueueTimed, OnTheClock, SumR, Times;
    forall id | id in FinalWork(cfg, jobs, s)
      ensures FinalWork(cfg, jobs, s)[id] == 0.0
    {
      TimesZero(JobSlots(cfg, jobs[id]) as real);
      assert (s.records[id].start.value - s.dispatched[id]) + jobs[id].runtime == 0.0;
    }
    SumZeroR(FinalWork(cfg, jobs, s));
  }

  lemma WorkNonneg(cfg: Config, jobs: Trace, s: Sim)
    requires TimesOk(jobs) && Timed(jobs, s)
    ensures forall id :: id in FinalWork(cfg, jobs, s) ==> FinalWork(cfg, jobs, s)[id] >= 0.0
    ensures SumR(FinalWork(cfg, jobs, s)) >= 0.0
  {
    hide QueueTimed, OnTheClock, EndsTimed, SumR;
    SumNonnegR(FinalWork(cfg, jobs, s));
  }

  /** A job that holds slots for a time is work done. */
  lemma WorkDone(cfg: Config, jobs: Trace, s: Sim, id: JobId)
    requires TimesOk(jobs) && Timed(jobs, s) && id in s.dispatched && id in jobs
    requires JobSlots(cfg, jobs[id]) > 0 && jobs[id].runtime > 0.0
    ensures SumR(FinalWork(cfg, jobs, s)) > 0.0
  {
    hide JobSlots, QueueTimed, OnTheClock, EndsTimed, SumR;
    var work := FinalWork(cfg, jobs, s);
    WorkNonneg(cfg, jobs, s);
    SumTakeR(work, id);
    SumNonnegR(work - {id});
    TimesPositive(JobSlots(cfg, jobs[id]) as real,
                  (s.records[id].start.value - s.dispatched[id]) + jobs[id].runtime);
  }

  /** A finished run as the summary reads it: the samples start at zero and end at the time of the last event,
      their area is the work done, and every job that started has ended. */
  ghost predicate RunOver(cfg: Config, jobs: Trace, s: Sim, samples: Samples) {
    && TimesOk(jobs) && Timed(jobs, s) && (forall id :: id in s.dispatched <==> Ended(s.records, id))
    && Increasing(samples) && samples[0].0 == 0.0 && samples[|samples| - 1].0 == s.now
    && Times(TotalMps(cfg) as real, Area(samples)) == SumR(FinalWork(cfg, jobs, s))
  }

  /** The reported utilisation is the mean over the makespan, as documented, exactly when the first submission
      is at time zero and the last event is an end; that is, if there was any work to do. */
  lemma UtilizationOverMakespan(cfg: Config, jobs: Trace, s: Sim, samples: Samples, first: real, last: real)
    requires RunOver(cfg, jobs, s, samples) && FirstSubmit(jobs, s.records, first) && LastEnd(jobs, s.records, last)
    ensures var work := SumR(FinalWork(cfg, jobs, s));
      && 0.0 <= first <= last <= s.now
      && (work > 0.0 ==> (Mean(samples) == OverMakespan(cfg, work, last - first) <==> first == 0.0 && last == s.now))
      && (work == 0.0 && TotalMps(cfg) > 0 ==> Mean(samples) == OverMakespan(cfg, work, last - first) == 0.0)
  {
    hide SumR, FinalWork, TotalMps, Times, Area, Timed;
    var work := SumR(FinalWork(cfg, jobs, s));
    SpanOk(jobs, s, first, last);
    if s.now == 0.0 {
      NoTimeNoWork(cfg, jobs, s);
    } else {
      UtilizationIsWork(cfg, jobs, s, samples);
      if work > 0.0 {
        SameFraction(TotalMps(cfg) as real, work, Mean(samples), s.now, last - first);
      } else if work == 0.0 && TotalMps(cfg) > 0 {
        NothingUsed(TotalMps(cfg) as real, Mean(samples), s.now);
      }
    }
  }

  lemma NothingUsed(slots: real, u: real, span: real)
    requires slots > 0.0 && span > 0.0 && Times(Times(slots, u), span) == 0.0
    ensures u == 0.0
  {
    assert slots * u == 0.0;
  }

  lemma SpanOk(jobs: Trace, s: Sim, first: real, last: real)
    requires TimesOk(jobs) && Timed(jobs, s) && forall id :: id in s.dispatched <==> Ended(s.records, id)
    requires FirstSubmit(jobs, s.records, first) && LastEnd(jobs, s.records, last)
    ensures 0.0 <= first <= last <= s.now
  {
    hide QueueTimed, OnTheClock;
    var id :| id in jobs && Ended(s.records, id) && jobs[id].submit == first;
    assert s.records[id].end.value >= first;
  }

  /** If every job finishes, the last event is an end; so the documented and the reported mean agree exactly if
      some job is submitted at time zero. */
  lemma LastEventIsEnd(jobs: Trace, s: Sim, first: real, last: real)
    requires TimesOk(jobs) && Timed(jobs, s) && Booked(jobs, s) && Completed(s.records)
    requires FirstSubmit(jobs, s.records, first) && LastEnd(jobs, s.records, last)
    ensures last == s.now && (first == 0.0 <==> exists id :: id in jobs && jobs[id].submit == 0.0)
  {
    hide QueueTimed, QueueOk, DistinctJobs, Stages, JobsKnown;
    forall id | id in jobs
      ensures Ended(s.records, id) && jobs[id].submit <= s.records[id].end.value <= s.now
    {
      assert id in s.dispatched;
    }
    if s.now != 0.0 {
      var id :| HappenedAt(jobs, s.records, id, s.now);
    }
  }

  // ----- Backfill rate -----

  datatype Finished = Finished(submit: real, start: Option<real>, end: real)

  predicate Later(prev: Finished, r: Finished) {
    r.start.Some? && (prev.start.None? || prev.start.value > r.start.value)
  }

  /** The job at position i started while one submitted before it was still waiting. */
  ghost predicate Overtakes(ordered: seq<Finished>, i: nat) {
    i < |ordered| && exists k :: 0 <= k < i && Later(ordered[k], ordered[i])
  }

  ghost function Overtakers(ordered: seq<Finished>, n: nat): set<nat>
    requires n <= |ordered|
  {
    set i: nat | i < n && Overtakes(ordered, i)
  }

  /** Number of jobs that overtook an earlier submission; `ordered` is sorted by submission. */
  method CountBackfills(ordered: seq<Finished>) returns (bf: nat)
    ensures bf == |Overtakers(ordered, |ordered|)|
  {
    hide Overtakes;
    bf := 0;
    assert Overtakers(ordered, 0) == {};
    for i := 0 to |ordered|
      invariant bf == |Overtakers(ordered, i)|
    {
      var found := AnyLater(ordered, i);
      OneMoreOvertaker(ordered, i);
      if found {
        bf := bf + 1;
      }
    }
  }

  /** Has a job been passed that was submitted before? */
  method AnyLater(ordered: seq<Finished>, i: nat) returns (found: bool)
    requires i < |ordered|
    ensures found <==> Overtakes(ordered, i)
  {
    found := false;
    var k := 0;
    while k < i && !found
      invariant k <= i
      invariant found <==> exists p :: 0 <= p < k && Later(ordered[p], ordered[i])
    {
      found := Later(ordered[k], ordered[i]);
      k := k + 1;
    }
  }

  lemma OneMoreOvertaker(ordered: seq<Finished>, i: nat)
    requires i < |ordered|
    ensures |Overtakers(ordered, i + 1)| == |Overtakers(ordered, i)| + if Overtakes(ordered, i) then 1 else 0
  {
    hide Overtakes;
    assert Overtakers(ordered, i + 1) == Overtakers(ordered, i) + if Overtakes(ordered, i) then {i} else {};
  }

  function Row(j: Job, records: map<JobId, Record>): Finished
    requires Ended(records, j.id)
  {
    Finished(j.submit, records[j.id].start, records[j.id].end.value)
  }

  /** The list holds exactly the finished jobs, each once, in order of submission. */
  ghost predicate Listing(jobs: Trace, records: map<JobId, Record>, ids: seq<JobId>, ordered: seq<Finished>,
                          byId: bool) {
    && |ids| == |ordered| && Distinct(ids)
    && TraceOk(jobs) && (forall id :: id in ids <==> id in jobs && Ended(records, id))
    && (forall i :: 0 <= i < |ids| ==> ordered[i] == Row(jobs[ids[i]], records))
    && forall i, j :: 0 <= i < j < |ids| ==> Ahead(byId, jobs[ids[i]], jobs[ids[j]])
  }

  /** Nobody overtakes under FCFS, so whoever is counted was submitted together with a job that is listed before
      it and started later ... */
  lemma OnlyTiesOvertake(jobs: Trace, records: map<JobId, Record>, ids: seq<JobId>, ordered: seq<Finished>)
    requires NoOvertaking(jobs, records, false) && Listing(jobs, records, ids, ordered, false)
    requires forall id :: Ended(records, id) ==> records[id].start.Some?
    ensures forall i, k :: 0 <= k < i < |ordered| && Later(ordered[k], ordered[i]) ==>
              ordered[k].submit == ordered[i].submit
  {
    forall i, k | 0 <= k < i < |ordered| && Later(ordered[k], ordered[i])
      ensures ordered[k].submit == ordered[i].submit
    {
      assert ids[k] in ids && ids[i] in ids;
      assert Ahead(false, jobs[ids[k]], jobs[ids[i]]);
    }
  }

  /** ... and nobody is counted if jobs submitted together are listed by id. */
  lemma FcfsNeverBackfills(jobs: Trace, records: map<JobId, Record>, ids: seq<JobId>, ordered: seq<Finished>)
    requires NoOvertaking(jobs, records, true) && Listing(jobs, records, ids, ordered, true)
    requires forall id :: Ended(records, id) ==> records[id].start.Some?
    ensures Overtakers(ordered, |ordered|) == {}
  {
    forall i: nat, k | i < |ordered| && 0 <= k < i
      ensures !Later(ordered[k], ordered[i])
    {
      assert ids[k] in ids && ids[i] in ids && ids[k] != ids[i];
      assert Ahead(true, jobs[ids[k]], jobs[ids[i]]);
    }
  }

  /** The finished records in order of submission. */
  method ListFinished(trace: seq<Job>, records: map<JobId, Record>)
    returns (ordered: seq<Finished>, ghost ids: seq<JobId>)
    requires DistinctJobs(trace) && records.Keys == ById(trace).Keys && TraceOk(ById(trace))
    ensures ids == FinishedIds(trace, records)
    ensures Listing(ById(trace), records, FinishedIds(trace, records), ordered, false)
    ensures TiesById(trace) ==> Listing(ById(trace), records, FinishedIds(trace, records), ordered, true)
  {
    hide DistinctJobs, Sort, ById, TiesById, Ahead, Listing, DoneOf;
    var sorted := Sort(SubmitLe, trace);
    SortedTrace(trace, sorted);
    ghost var done;
    ordered, done := Rows(sorted, records);
    ids := seq(|done|, k requires 0 <= k < |done| => done[k].id);
    DoneListed(ById(trace), records, sorted, done, ids, ordered, false);
    if TiesById(trace) {
      DoneListed(ById(trace), records, sorted, done, ids, ordered, true);
    }
  }

  /** The records of the finished jobs of a list. */
  method Rows(sorted: seq<Job>, records: map<JobId, Record>) returns (ordered: seq<Finished>, ghost done: seq<Job>)
    requires forall k :: 0 <= k < |sorted| ==> sorted[k].id in records
    ensures done == DoneOf(sorted, records) && |ordered| == |done|
    ensures forall k :: 0 <= k < |done| ==> Ended(records, done[k].id) && ordered[k] == Row(done[k], records)
  {
    ordered, done := [], [];
    for i := 0 to |sorted|
      invariant done == DoneOf(sorted[..i], records)
      invariant |ordered| == |done| && forall k :: 0 <= k < |done| ==> Ended(records, done[k].id)
      invariant forall k :: 0 <= k < |done| ==> ordered[k] == Row(done[k], records)
    {
      assert sorted[..i + 1][..i] == sorted[..i];
      if records[sorted[i].id].end.Some? {
        ordered := ordered + [Row(sorted[i], records)];
        done := done + [sorted[i]];
      }
    }
    assert sorted[..|sorted|] == sorted;
  }

  /** The finished jobs by submission time; those submitted together as they are listed in the trace. */
  ghost function FinishedIds(trace: seq<Job>, records: map<JobId, Record>): seq<JobId> {
    var done := DoneOf(Sort(SubmitLe, trace), records);
    seq(|done|, k requires 0 <= k < |done| => done[k].id)
  }

  /** Of a list of jobs, those that have finished. */
  function DoneOf(js: seq<Job>, records: map<JobId, Record>): (done: seq<Job>)
    ensures forall j :: j in done <==> j in js && Ended(records, j.id)
  {
    if js == [] then []
    else
      var m := |js| - 1;
      assert js == js[..m] + [js[m]];
      DoneOf(js[..m], records) + if Ended(records, js[m].id) then [js[m]] else []
  }

  ghost predicate InOrder(js: seq<Job>, byId: bool) {
    forall i, j :: 0 <= i < j < |js| ==> js[i].id != js[j].id && Ahead(byId, js[i], js[j])
  }

  lemma {:induction false} DoneInOrder(js: seq<Job>, records: map<JobId, Record>, byId: bool)
    requires InOrder(js, byId)
    ensures InOrder(DoneOf(js, records), byId)
  {
    hide InOrder;
    if js != [] {
      var m := |js| - 1;
      FirstInOrder(js, byId);
      DoneInOrder(js[..m], records, byId);
      LastInOrder(DoneOf(js[..m], records), js[m], byId);
      assert DoneOf(js, records) == DoneOf(js[..m], records) + if Ended(records, js[m].id) then [js[m]] else [];
    }
  }

  lemma FirstInOrder(js: seq<Job>, byId: bool)
    requires InOrder(js, byId) && js != []
    ensures InOrder(js[..|js| - 1], byId)
    ensures forall j :: j in js[..|js| - 1] ==> j.id != js[|js| - 1].id && Ahead(byId, j, js[|js| - 1])
  {
    hide Ahead;
  }

  lemma LastInOrder(js: seq<Job>, last: Job, byId: bool)
    requires InOrder(js, byId) && forall j :: j in js ==> j.id != last.id && Ahead(byId, j, last)
    ensures InOrder(js + [last], byId) && InOrder(js + [], byId)
  {
    hide Ahead;
    assert js + [] == js;
  }

  lemma DoneListed(jobs: Trace, records: map<JobId, Record>, sorted: seq<Job>, done: seq<Job>, ids: seq<JobId>,
                   ordered: seq<Finished>, byId: bool)
    requires InOrder(sorted, byId)
    requires forall k :: 0 <= k < |sorted| ==> sorted[k].id in jobs && jobs[sorted[k].id] == sorted[k]
    requires forall id :: id in jobs ==> jobs[id] in sorted && jobs[id].id == id && jobs[id].ram >= 0.0
    requires done == DoneOf(sorted, records) && |ids| == |done| == |ordered|
    requires forall k :: 0 <= k < |done| ==>
               ids[k] == done[k].id && Ended(records, done[k].id) && ordered[k] == Row(done[k], records)
    ensures Listing(jobs, records, ids, ordered, byId)
  {
    hide Ahead;
    DoneInOrder(sorted, records, byId);
    forall k | 0 <= k < |done|
      ensures done[k].id in jobs && jobs[done[k].id] == done[k]
    {
      assert done[k] in done;
    }
    forall id ensures id in ids <==> id in jobs && Ended(records, id) {
      if id in jobs && Ended(records, id) {
        assert jobs[id] in done;
        var k :| 0 <= k < |done| && done[k] == jobs[id];
        assert ids[k] == id;
      }
    }
  }

  lemma SortedTrace(trace: seq<Job>, sorted: seq<Job>)
    requires DistinctJobs(trace) && sorted == Sort(SubmitLe, trace)
    ensures InOrder(sorted, false) && (TiesById(trace) ==> InOrder(sorted, true))
    ensures forall k :: 0 <= k < |sorted| ==> sorted[k].id in ById(trace) && ById(trace)[sorted[k].id] == sorted[k]
    ensures forall id :: id in ById(trace) ==> ById(trace)[id] in sorted && ById(trace)[id].id == id
  {
    hide ById, Sort, TiesById, InOrder, DistinctJobs, JobIds;
    SubmitOrders();
    PermutesElems(trace, sorted);
    DistinctJobsPermute(trace, sorted);
    SortedInOrder(sorted);
    if TiesById(trace) {
      TiesStayListed(trace);
    }
    forall k | 0 <= k < |sorted|
      ensures sorted[k].id in ById(trace) && ById(trace)[sorted[k].id] == sorted[k]
    {
      assert sorted[k] in sorted;
      IdListed(trace, sorted[k]);
    }
  }

  lemma IdListed(trace: seq<Job>, j: Job)
    requires j in trace
    ensures j.id in JobIds(trace)
  {
  }

  lemma SubmitOrders()
    ensures TotalPreorder(SubmitLe)
  {
  }

  lemma SortedInOrder(sorted: seq<Job>)
    requires DistinctJobs(sorted)
    ensures SortedBy(SubmitLe, sorted) ==> InOrder(sorted, false)
    ensures SortedBy(FcfsLe, sorted) ==> InOrder(sorted, true)
  {
    hide Ahead;
    if SortedBy(SubmitLe, sorted) {
      forall i, j | 0 <= i < j < |sorted| ensures Ahead(false, sorted[i], sorted[j]) {
        assert SubmitLe(sorted[i], sorted[j]);
      }
    }
    if SortedBy(FcfsLe, sorted) {
      forall i, j | 0 <= i < j < |sorted| ensures Ahead(true, sorted[i], sorted[j]) {
        assert FcfsLe(sorted[i], sorted[j]);
      }
    }
  }

  // ----- The summary -----

  datatype Summary = Summary(jobs: nat, makespan: real, utilization: real, backfills: nat)

  /** Earliest submission and latest end of a list of records. */
  method Extent(ordered: seq<Finished>) returns (first: real, last: real)
    requires ordered != []
    ensures (exists i :: 0 <= i < |ordered| && ordered[i].submit == first)
    ensures (exists i :: 0 <= i < |ordered| && ordered[i].end == last)
    ensures forall i :: 0 <= i < |ordered| ==> first <= ordered[i].submit && ordered[i].end <= last
  {
    first, last := ordered[0].submit, ordered[0].end;
    for i := 1 to |ordered|
      invariant exists k :: 0 <= k < i && ordered[k].submit == first
      invariant exists k :: 0 <= k < i && ordered[k].end == last
      invariant forall k :: 0 <= k < i ==> first <= ordered[k].submit && ordered[k].end <= last
    {
      if ordered[i].submit < first {
        first := ordered[i].submit;
      }
      if ordered[i].end > last {
        last := ordered[i].end;
      }
    }
  }

  lemma ExtentOfListing(jobs: Trace, records: map<JobId, Record>, ids: seq<JobId>, ordered: seq<Finished>,
                        first: real, last: real)
    requires Listing(jobs, records, ids, ordered, false)
    requires exists i :: 0 <= i < |ordered| && ordered[i].submit == first
    requires exists i :: 0 <= i < |ordered| && ordered[i].end == last
    requires forall i :: 0 <= i < |ordered| ==> first <= ordered[i].submit && ordered[i].end <= last
    ensures FirstSubmit(jobs, records, first) && LastEnd(jobs, records, last)
  {
    hide Ahead;
    var i :| 0 <= i < |ordered| && ordered[i].submit == first;
    var j :| 0 <= j < |ordered| && ordered[j].end == last;
    assert ids[i] in ids && ids[j] in ids;
    forall id | id in jobs && Ended(records, id)
      ensures first <= jobs[id].submit && records[id].end.value <= last
    {
      var k :| 0 <= k < |ids| && ids[k] == id;
    }
  }

  /** Nothing if no job has finished; else what the run amounts to. */
  method Summarize(trace: seq<Job>, records: map<JobId, Record>, samples: Samples)
    returns (r: Option<Summary>, ghost ids: seq<JobId>, ghost ordered: seq<Finished>, ghost first: real,
             ghost last: real)
    requires DistinctJobs(trace) && records.Keys == ById(trace).Keys && TraceOk(ById(trace))
    ensures ids == FinishedIds(trace, records)
    ensures Listing(ById(trace), records, FinishedIds(trace, records), ordered, false)
    ensures TiesById(trace) ==> Listing(ById(trace), records, FinishedIds(trace, records), ordered, true)
    ensures r.None? <==> ids == []
    ensures r.Some? ==> FirstSubmit(ById(trace), records, first) && LastEnd(ById(trace), records, last)
    ensures r.Some? ==> r.value.makespan == last - first && r.value.jobs == |ids|
    ensures r.Some? && Increasing(samples) ==> r.value.utilization == Mean(samples)
    ensures r.Some? ==> r.value.backfills == |Overtakers(ordered, |ordered|)|
  {
    hide Listing, TiesById, ById, Increasing, Mean, Overtakers, FirstSubmit, LastEnd, DistinctJobs, FinishedIds;
    var list;
    list, ids := ListFinished(trace, records);
    ordered, first, last := list, 0.0, 0.0;
    ListingSize(ById(trace), records, ids, list);
    if list == [] {
      return None, ids, ordered, first, last;
    }
    var from, to := Extent(list);
    first, last := from, to;
    ExtentOfListing(ById(trace), records, ids, list, from, to);
    var util := MeanUtilization(samples);
    var bf := CountBackfills(list);
    r := Some(Summary(|list|, to - from, util, bf));
  }

  lemma ListingSize(jobs: Trace, records: map<JobId, Record>, ids: seq<JobId>, ordered: seq<Finished>)
    requires Listing(jobs, records, ids, ordered, false)
    ensures |ids| == |ordered|
  {
  }

  // ----- The simulator and its summary together -----

  ghost predicate StartsAtZero(jobs: Trace) {
    exists id :: id in jobs && jobs[id].submit == 0.0
  }

  /** Some job holds slots for a time. */
  ghost predicate HasWork(cfg: Config, jobs: Trace) {
    exists id :: id in jobs && JobSlots(cfg, jobs[id]) > 0 && jobs[id].runtime > 0.0
  }

  /** What a summary of a finished run reports as utilisation: the slot-time delivered, spread over the time from
      zero to the last event. That is the mean over the makespan if and only if the first submission comes at
      zero and the last event is an end. */
  ghost predicate Accounts(cfg: Config, jobs: Trace, s: Sim, util: real, first: real, last: real) {
    var work := SumR(FinalWork(cfg, jobs, s));
    && (s.now > 0.0 ==> Times(Times(TotalMps(cfg) as real, util), s.now) == work)
    && (work > 0.0 ==> (util == OverMakespan(cfg, work, last - first) <==> first == 0.0 && last == s.now))
  }

  /** The run is over, as far as its trace allows. */
  lemma RunIsOver(cfg: Config, jobs: Trace, s: Sim, samples: Samples, latency: Latency)
    requires RunOk(cfg, jobs, s, samples) && Waited(jobs, s, latency) && TimesOk(jobs) && s.cl.active == map[]
    requires Increasing(samples) && samples[0].0 == 0.0 && samples[|samples| - 1].0 == s.now
    requires Times(TotalMps(cfg) as real, Area(samples)) == SumR(FinalWork(cfg, jobs, s))
    ensures RunOver(cfg, jobs, s, samples) && Booked(jobs, s) && Timed(jobs, s)
    ensures ConstantLag(latency, 0.0) ==> FinalWork(cfg, jobs, s) == SlotTime(cfg, jobs, s.records)
  {
    hide Timed, Conserved, Metered, FittingOnly, QueueOk, DistinctJobs, Waited, FinalWork, SumR, Area, Times, TotalMps,
         JobsKnown, StartsKnown, Increasing;
    forall id
      ensures id in s.dispatched <==> Ended(s.records, id)
    {
      assert id in s.dispatched <==> id in DoneIds(s.records);
    }
    if ConstantLag(latency, 0.0) {
      WorkWithoutLatency(cfg, jobs, s, latency);
    }
  }

  /** From trace to summary, whatever the scheduler and the latencies. */
  method Simulate(cfg: Config, trace: seq<Job>, order: Order, backfill: bool, latency: Latency)
    returns (sim: Simulator, r: Option<Summary>, ghost first: real, ghost last: real)
    requires ConfigOk(cfg) && DistinctJobs(trace) && forall j :: j in trace ==> j.ram >= 0.0
    requires Schedules(order) && Nonnegative(latency)
    ensures fresh(sim) && sim.cfg == cfg && sim.jobs == ById(trace)
    ensures r.None? <==> forall id :: id in ById(trace) ==> !Ended(sim.records, id)
    ensures r.Some? ==> FirstSubmit(sim.jobs, sim.records, first) && LastEnd(sim.jobs, sim.records, last)
    ensures r.Some? ==> r.value.makespan == last - first
    ensures r.Some? && TimesOk(sim.jobs) ==> Accounts(cfg, sim.jobs, sim.View(), r.value.utilization, first, last)
    ensures TimesOk(sim.jobs) && ConstantLag(latency, 0.0) ==>
      SumR(FinalWork(cfg, sim.jobs, sim.View())) == SumR(SlotTime(cfg, sim.jobs, sim.records))
    ensures AllFit(cfg, sim.jobs) ==> sim.pending == [] && Completed(sim.records) && (trace != [] ==> r.Some?)
    ensures AllFit(cfg, sim.jobs) && TimesOk(sim.jobs) && HasWork(cfg, sim.jobs) ==>
      var work := SumR(FinalWork(cfg, sim.jobs, sim.View()));
      r.Some? && (r.value.utilization == OverMakespan(cfg, work, r.value.makespan) <==> StartsAtZero(sim.jobs))
  {
    hide Times, SumR, FinalWork, TotalMps, Area, Mean, Feasible, RunOk, Sampled, Blocked, ConfigOk, DistinctJobs,
         Schedules, Nonnegative, TimesOk, AllFit, Completed, Initial, Increasing, NoOvertaking, FifoRun, TiesById,
         Waited, RunOver, Booked, Listing, FirstSubmit, LastEnd, Accounts, HasWork, StartsAtZero, OverMakespan,
         ConstantLag, SlotTime, Overtakers, ById, InSubmitOrder, FinishedIds, Numbers, Sort, Ended;
    sim := new Simulator(cfg, trace, order, backfill, latency);
    sim.Run(0.0, false);
    InitialIsIdle(cfg);
    EndedStarted(cfg, sim.jobs, sim.View(), sim.samples);
    ghost var ids, ordered;
    r, ids, ordered, first, last := Summarize(trace, sim.records, sim.samples);
    ListedAll(sim.jobs, sim.records, ids, ordered, trace);
    if TimesOk(sim.jobs) {
      RunIsOver(cfg, sim.jobs, sim.View(), sim.samples, latency);
      if r.Some? {
        AccountsHold(cfg, sim.jobs, sim.View(), sim.samples, first, last);
        ExactWhenAllFinish(cfg, sim.jobs, sim.View(), r.value.utilization, first, last);
      }
    }
  }

  lemma InitialIsIdle(cfg: Config)
    ensures Initial(cfg).active == map[]
  {
  }

  lemma ListedAll(jobs: Trace, records: map<JobId, Record>, ids: seq<JobId>, ordered: seq<Finished>, trace: seq<Job>)
    requires Listing(jobs, records, ids, ordered, false) && DistinctJobs(trace) && jobs == ById(trace)
    requires records.Keys == jobs.Keys
    ensures ids == [] <==> forall id :: id in jobs ==> !Ended(records, id)
    ensures Completed(records) && trace != [] ==> ids != []
    ensures trace == [] ==> forall cfg :: !HasWork(cfg, jobs)
  {
    hide Ahead, DistinctJobs, ById, JobSlots;
    if ids != [] {
      assert ids[0] in ids;
    }
    if trace != [] {
      assert trace[0] in trace && trace[0].id in jobs;
    }
  }

  lemma AccountsHold(cfg: Config, jobs: Trace, s: Sim, samples: Samples, first: real, last: real)
    requires RunOver(cfg, jobs, s, samples) && FirstSubmit(jobs, s.records, first) && LastEnd(jobs, s.records, last)
    ensures Accounts(cfg, jobs, s, Mean(samples), first, last)
  {
    hide SumR, FinalWork, TotalMps, Times, Area, Timed, FirstSubmit, LastEnd, Mean, OverMakespan;
    UtilizationOverMakespan(cfg, jobs, s, samples, first, last);
    if s.now > 0.0 {
      UtilizationIsWork(cfg, jobs, s, samples);
    }
  }

  lemma ExactWhenAllFinish(cfg: Config, jobs: Trace, s: Sim, util: real, first: real, last: real)
    requires TimesOk(jobs) && Timed(jobs, s) && Booked(jobs, s) && FirstSubmit(jobs, s.records, first)
    requires LastEnd(jobs, s.records, last) && Accounts(cfg, jobs, s, util, first, last)
    ensures Completed(s.records) && HasWork(cfg, jobs) ==>
              (util == OverMakespan(cfg, SumR(FinalWork(cfg, jobs, s)), last - first) <==> StartsAtZero(jobs))
  {
    hide SumR, FinalWork, TotalMps, Times, Timed, FirstSubmit, LastEnd, OverMakespan, QueueOk, DistinctJobs, Stages,
         JobsKnown, JobSlots;
    if Completed(s.records) && HasWork(cfg, jobs) {
      LastEventIsEnd(jobs, s, first, last);
      var id :| id in jobs && JobSlots(cfg, jobs[id]) > 0 && jobs[id].runtime > 0.0;
      WorkDone(cfg, jobs, s, id);
    }
  }

  /** A whole run under first come, first served with a constant start-up latency, and its backfill count: only
      jobs submitted together with one listed before them can be counted; and none is, if jobs submitted together
      are listed by id. */
  method SimulateFcfs(cfg: Config, trace: seq<Job>, lag: real)
    returns (r: Option<Summary>, records: map<JobId, Record>, ghost ordered: seq<Finished>)
    requires ConfigOk(cfg) && DistinctJobs(trace) && forall j :: j in trace ==> j.ram >= 0.0
    requires lag >= 0.0
    ensures Listing(ById(trace), records, FinishedIds(trace, records), ordered, false)
    ensures r.None? <==> FinishedIds(trace, records) == []
    ensures TimesOk(ById(trace)) ==> NoOvertaking(ById(trace), records, TiesById(trace))
    ensures r.Some? ==> r.value.backfills == |Overtakers(ordered, |ordered|)|
    ensures TimesOk(ById(trace)) ==> forall i, k :: 0 <= k < i < |ordered| && Later(ordered[k], ordered[i]) ==>
              ordered[k].submit == ordered[i].submit
    ensures TimesOk(ById(trace)) && TiesById(trace) && r.Some? ==> r.value.backfills == 0
  {
    hide Times, SumR, FinalWork, TotalMps, Area, RunOk, Sampled, Blocked, ConfigOk, Schedules, Nonnegative, TimesOk,
         AllFit, Initial, Increasing, NoOvertaking, InSubmitOrder, ConstantLag, Overtakers, Listing, DistinctJobs,
         Completed, TiesById, FifoRun, Waited, FirstSubmit, LastEnd, ById, Mean, FinishedIds;
    FcfsSchedules();
    AnyTies();
    var latency: Latency := (k: nat, job: Job, t: real) => lag;
    LagIsConstant(latency, lag);
    var sim := new Simulator(cfg, trace, FcfsOrder, false, latency);
    ghost var byId := TiesById(trace);
    sim.Run(lag, byId);
    ghost var ids, first, last;
    EndedStarted(cfg, sim.jobs, sim.View(), sim.samples);
    records := sim.records;
    r, ids, ordered, first, last := Summarize(trace, sim.records, sim.samples);
    if TimesOk(sim.jobs) {
      LooserOrder(sim.jobs, sim.records, byId);
      OnlyTiesOvertake(sim.jobs, sim.records, ids, ordered);
      if byId {
        FcfsNeverBackfills(sim.jobs, sim.records, ids, ordered);
      }
    }
  }

  lemma AnyTies()
    ensures forall order :: InSubmitOrder(order, true) ==> InSubmitOrder(order, false)
  {
  }

  lemma LooserOrder(jobs: Trace, records: map<JobId, Record>, byId: bool)
    requires NoOvertaking(jobs, records, byId)
    ensures NoOvertaking(jobs, records, false)
  {
  }

  lemma EndedStarted(cfg: Config, jobs: Trace, s: Sim, samples: Samples)
    requires RunOk(cfg, jobs, s, samples)
    ensures TraceOk(jobs) && forall id :: Ended(s.records, id) ==> s.records[id].start.Some?
  {
    hide Conserved, QueueOk, DistinctJobs, JobsKnown, Timed, Metered, FittingOnly;
    forall id | Ended(s.records, id)
      ensures s.records[id].start.Some?
    {
      assert id in DoneIds(s.records);
    }
  }

  lemma LagIsConstant(latency: Latency, lag: real)
    requires lag >= 0.0 && forall k: nat, job: Job, t: real :: latency(k, job, t) == lag
    ensures Nonnegative(latency) && ConstantLag(latency, lag)
  {
  }
}
