/** The discrete-event simulator as a value: its event queue, the stages of a job, and what one
    event and one dispatch do to them. */
module SimModel {
  import opened Wrappers
  import opened Sums
  import opened Sorting
  import opened ClusterModel
  import opened ClusterPlanning

  datatype Kind = Submit | End

  datatype Event = Event(t: real, seqNo: nat, kind: Kind, id: JobId)

  datatype Record = Record(start: Option<real>, end: Option<real>)

  datatype Sim = Sim(cl: State, pending: seq<Job>, events: seq<Event>, nextSeq: nat, now: real,
                     records: map<JobId, Record>, dispatched: map<JobId, real>)

  type Trace = map<JobId, Job>

  predicate TraceOk(jobs: Trace) {
    forall id :: id in jobs ==> jobs[id].id == id && jobs[id].ram >= 0.0
  }

  /** Jobs are submitted at or after time zero and run for a nonnegative time. */
  predicate TimesOk(jobs: Trace) {
    forall id :: id in jobs ==> jobs[id].submit >= 0.0 && jobs[id].runtime >= 0.0
  }

  // ----- The event queue: pop takes the least (time, sequence number) -----

  predicate EventLe(a: Event, b: Event) {
    a.t < b.t || (a.t == b.t && a.seqNo <= b.seqNo)
  }

  function Push(events: seq<Event>, e: Event): seq<Event> {
    Insert(EventLe, e, events)
  }

  ghost predicate QueueOk(events: seq<Event>) {
    && (forall i, j :: 0 <= i < j < |events| ==> EventLe(events[i], events[j]))
    && (forall i, j :: 0 <= i < j < |events| ==> events[i].id != events[j].id)
  }

  ghost function Ids(events: seq<Event>, kind: Kind): set<JobId> {
    set e | e in events && e.kind == kind :: e.id
  }

  lemma PushElems(events: seq<Event>, e: Event)
    ensures forall x :: x in Push(events, e) <==> x == e || x in events
    ensures |Push(events, e)| == |events| + 1
  {
    var r := Push(events, e);
    InsertElems(e, events, r);
    forall x
      ensures x in r <==> x == e || x in events
    {
      assert x in r <==> x in multiset(r);
    }
  }

  lemma PushIds(events: seq<Event>, e: Event)
    requires QueueOk(events) && e.id !in Ids(events, Submit) && e.id !in Ids(events, End)
    ensures QueueOk(Push(events, e))
    ensures forall k :: Ids(Push(events, e), k) == Ids(events, k) + if k == e.kind then {e.id} else {}
    ensures forall x :: x in Push(events, e) <==> x == e || x in events
    ensures |Push(events, e)| == |events| + 1
  {
    PushElems(events, e);
    assert SortedBy(EventLe, events);
    forall i | 0 <= i < |events|
      ensures events[i].id != e.id
    {
      assert events[i].id in Ids(events, events[i].kind);
    }
    DistinctIdsPermute([e] + events, Push(events, e));
  }

  lemma DistinctIdsPermute(a: seq<Event>, b: seq<Event>)
    requires Permutes(a, b)
    requires forall i, j :: 0 <= i < j < |a| ==> a[i].id != a[j].id
    ensures forall i, j :: 0 <= i < j < |b| ==> b[i].id != b[j].id
  {
    assert Distinct(a);
    PermutesElems(a, b);
    PermutesDistinct(a, b);
    forall i, j | 0 <= i < j < |b|
      ensures b[i].id != b[j].id
    {
      assert b[i] in a && b[j] in a;
      var p :| 0 <= p < |a| && a[p] == b[i];
      var q :| 0 <= q < |a| && a[q] == b[j];
    }
  }

  lemma TailIdsDiffer(events: seq<Event>)
    requires QueueOk(events) && events != []
    ensures forall e :: e in events[1..] ==> e.id != events[0].id
  {
    forall e | e in events[1..]
      ensures e.id != events[0].id
    {
      var i :| 0 <= i < |events| - 1 && events[1..][i] == e;
      assert events[i + 1] == e;
    }
  }

  lemma PopIds(events: seq<Event>)
    requires QueueOk(events) && events != []
    ensures QueueOk(events[1..])
    ensures forall k :: Ids(events, k) == Ids(events[1..], k) + if k == events[0].kind then {events[0].id} else {}
    ensures forall k :: events[0].id !in Ids(events[1..], k)
    ensures forall x :: x in events[1..] ==> x in events
  {
    assert events == [events[0]] + events[1..];
    TailIdsDiffer(events);
  }

  // ----- Pending jobs -----

  ghost predicate DistinctJobs(jobs: seq<Job>) {
    forall i, j :: 0 <= i < j < |jobs| ==> jobs[i].id != jobs[j].id
  }

  ghost function JobIds(jobs: seq<Job>): set<JobId> {
    set j | j in jobs :: j.id
  }

  lemma {:induction false} RemoveIds(jobs: seq<Job>, job: Job)
    requires DistinctJobs(jobs) && job in jobs
    ensures DistinctJobs(Remove(jobs, job))
    ensures JobIds(Remove(jobs, job)) == JobIds(jobs) - {job.id} && job.id in JobIds(jobs)
    ensures forall j :: j in Remove(jobs, job) <==> j in jobs && j != job
    ensures |Remove(jobs, job)| == |jobs| - 1
  {
    assert jobs == [jobs[0]] + jobs[1..];
    if jobs[0] == job {
      assert job !in jobs[1..];
    } else {
      RemoveIds(jobs[1..], job);
      assert Remove(jobs, job) == [jobs[0]] + Remove(jobs[1..], job);
      forall i | 0 <= i < |Remove(jobs[1..], job)|
        ensures Remove(jobs[1..], job)[i].id != jobs[0].id
      {
        assert Remove(jobs[1..], job)[i] in jobs[1..];
      }
    }
    forall x | x in JobIds(Remove(jobs, job))
      ensures x != job.id
    {
      var j :| j in Remove(jobs, job) && j.id == x;
      var p :| 0 <= p < |jobs| && jobs[p] == j;
      var q :| 0 <= q < |jobs| && jobs[q] == job;
      assert p != q;
    }
  }

  lemma AppendIds(jobs: seq<Job>, job: Job)
    requires DistinctJobs(jobs)
    ensures JobIds(jobs + [job]) == JobIds(jobs) + {job.id}
    ensures job.id !in JobIds(jobs) ==> DistinctJobs(jobs + [job])
  {
    forall i | 0 <= i < |jobs|
      ensures jobs[i].id in JobIds(jobs)
    {
      assert jobs[i] in jobs;
    }
  }

  // ----- What one event and one dispatch do -----

  function HandleEvent(cfg: Config, jobs: Trace, s: Sim): Sim
    requires s.events != [] && Shaped(cfg, s.cl) && s.events[0].id in jobs && s.events[0].id in s.records
    requires s.events[0].id in s.cl.active ==> PlanOk(cfg, s.cl.active[s.events[0].id])
  {
    var e := s.events[0];
    match e.kind
    case Submit =>
      s.(now := e.t, events := s.events[1..], pending := s.pending + [jobs[e.id]])
    case End =>
      s.(now := e.t, events := s.events[1..], cl := Free(cfg, s.cl, e.id),
         records := s.records[e.id := s.records[e.id].(end := Some(e.t))])
  }

  function Dispatch(cfg: Config, s: Sim, job: Job, plan: Plan, latency: real): Sim
    requires Shaped(cfg, s.cl) && PlanOk(cfg, plan) && job.id in s.records
  {
    var start := s.now + latency;
    s.(cl := Reserve(cfg, s.cl, job, plan), pending := Remove(s.pending, job),
       records := s.records[job.id := s.records[job.id].(start := Some(start))],
       events := Push(s.events, Event(start + job.runtime, s.nextSeq, End, job.id)),
       nextSeq := s.nextSeq + 1, dispatched := s.dispatched[job.id := s.now])
  }

  // ----- Every job is in exactly one stage -----

  ghost function DoneIds(records: map<JobId, Record>): set<JobId> {
    set id | id in records && records[id].end.Some?
  }

  lemma DoneAfter(records: map<JobId, Record>, id: JobId, r: Record)
    ensures DoneIds(records[id := r]) == if r.end.Some? then DoneIds(records) + {id} else DoneIds(records) - {id}
  {
  }

  /** Every job is unsubmitted, pending, active or done, and in one of these only; exactly the
      active and done ones have been dispatched. */
  ghost predicate Stages(all: set<JobId>, w: set<JobId>, p: set<JobId>, a: set<JobId>, d: set<JobId>,
                         dispatched: set<JobId>) {
    && (forall x :: x in all <==> x in w || x in p || x in a || x in d)
    && (forall x :: x in w ==> x !in p && x !in a && x !in d)
    && (forall x :: x in p ==> x !in a && x !in d)
    && (forall x :: x in a ==> x !in d)
    && (forall x :: x in dispatched <==> x in a || x in d)
  }

  lemma MoveToPending(all: set<JobId>, w: set<JobId>, p: set<JobId>, a: set<JobId>, d: set<JobId>,
                      dispatched: set<JobId>, x: JobId)
    requires Stages(all, w + {x}, p, a, d, dispatched) && x !in w
    ensures Stages(all, w, p + {x}, a, d, dispatched) && x !in p
  {
  }

  lemma MoveToActive(all: set<JobId>, w: set<JobId>, p: set<JobId>, a: set<JobId>, d: set<JobId>,
                     dispatched: set<JobId>, x: JobId)
    requires Stages(all, w, p, a, d, dispatched) && x in p
    ensures Stages(all, w, p - {x}, a + {x}, d, dispatched + {x}) && x !in w && x !in a && x !in d
  {
  }

  lemma MoveToDone(all: set<JobId>, w: set<JobId>, p: set<JobId>, a: set<JobId>, d: set<JobId>,
                   dispatched: set<JobId>, x: JobId)
    requires Stages(all, w, p, a, d, dispatched) && x in a
    ensures Stages(all, w, p, a - {x}, d + {x}, dispatched)
  {
  }

  ghost predicate JobsKnown(jobs: Trace, pending: seq<Job>) {
    forall j :: j in pending ==> j.id in jobs && jobs[j.id] == j
  }

  ghost predicate StartsKnown(records: map<JobId, Record>, dispatched: map<JobId, real>) {
    forall id :: id in records ==> (records[id].start.Some? <==> id in dispatched)
  }

  /** The queue, the pending list, the active jobs and the records agree on every job's stage. */
  ghost predicate Booked(jobs: Trace, s: Sim) {
    && QueueOk(s.events) && DistinctJobs(s.pending)
    && s.records.Keys == jobs.Keys
    && Ids(s.events, End) == s.cl.active.Keys
    && Stages(jobs.Keys, Ids(s.events, Submit), JobIds(s.pending), s.cl.active.Keys, DoneIds(s.records),
              s.dispatched.Keys)
    && JobsKnown(jobs, s.pending)
    && StartsKnown(s.records, s.dispatched)
  }

  ghost predicate SlotsKnown(cfg: Config, jobs: Trace, cl: State) {
    forall id :: id in cl.active ==> id in jobs && MpsTotal(cl.active[id]) == JobSlots(cfg, jobs[id])
  }

  ghost predicate Staged(cfg: Config, jobs: Trace, s: Sim) {
    Conserved(cfg, s.cl) && Booked(jobs, s) && SlotsKnown(cfg, jobs, s.cl)
  }

  lemma EventIdKnown(cfg: Config, jobs: Trace, s: Sim)
    requires Staged(cfg, jobs, s) && s.events != []
    ensures s.events[0].id in jobs && s.events[0].id in s.records
    ensures s.events[0].kind == End <==> s.events[0].id in s.cl.active
  {
    PopIds(s.events);
    assert s.events[0].id in Ids(s.events, s.events[0].kind);
  }

  lemma SubmitQueue(events: seq<Event>)
    requires QueueOk(events) && events != [] && events[0].kind == Submit
    ensures QueueOk(events[1..]) && Ids(events[1..], End) == Ids(events, End)
    ensures events[0].id !in Ids(events[1..], Submit)
    ensures Ids(events, Submit) == Ids(events[1..], Submit) + {events[0].id}
  {
    PopIds(events);
  }

  lemma AppendKnown(jobs: Trace, pending: seq<Job>, job: Job)
    requires JobsKnown(jobs, pending) && job.id in jobs && jobs[job.id] == job
    ensures JobsKnown(jobs, pending + [job])
  {
  }

  lemma SubmitBooks(jobs: Trace, s: Sim, s': Sim)
    requires TraceOk(jobs) && Booked(jobs, s) && s.events != [] && s.events[0].kind == Submit
    requires s.events[0].id in jobs
    requires s' == s.(now := s.events[0].t, events := s.events[1..], pending := s.pending + [jobs[s.events[0].id]])
    ensures Booked(jobs, s')
  {
    hide Ids, QueueOk, JobIds, DistinctJobs, DoneIds, Stages, JobsKnown;
    var e := s.events[0];
    SubmitQueue(s.events);
    AppendIds(s.pending, jobs[e.id]);
    MoveToPending(jobs.Keys, Ids(s.events[1..], Submit), JobIds(s.pending), s.cl.active.Keys, DoneIds(s.records),
                  s.dispatched.Keys, e.id);
    AppendKnown(jobs, s.pending, jobs[e.id]);
  }

  lemma EndRecords(s: Sim, s': Sim, id: JobId, t: real)
    requires StartsKnown(s.records, s.dispatched) && id in s.records
    requires s'.records == s.records[id := s.records[id].(end := Some(t))] && s'.dispatched == s.dispatched
    ensures StartsKnown(s'.records, s'.dispatched)
    ensures s'.records.Keys == s.records.Keys && DoneIds(s'.records) == DoneIds(s.records) + {id}
  {
    DoneAfter(s.records, id, s.records[id].(end := Some(t)));
    assert s'.records.Keys == s.records.Keys + {id};
  }

  lemma EndQueue(events: seq<Event>, active: set<JobId>)
    requires QueueOk(events) && events != [] && events[0].kind == End && Ids(events, End) == active
    ensures QueueOk(events[1..]) && Ids(events[1..], Submit) == Ids(events, Submit)
    ensures events[0].id in active && Ids(events[1..], End) == active - {events[0].id}
  {
    PopIds(events);
  }

  lemma EndBooks(jobs: Trace, s: Sim, s': Sim)
    requires Booked(jobs, s) && s.events != [] && s.events[0].kind == End
    requires s.events[0].id in s.records
    requires s'.events == s.events[1..] && s'.pending == s.pending && s'.dispatched == s.dispatched
    requires s'.records == s.records[s.events[0].id := s.records[s.events[0].id].(end := Some(s.events[0].t))]
    requires s'.cl.active.Keys == s.cl.active.Keys - {s.events[0].id}
    ensures Booked(jobs, s')
  {
    hide QueueOk, JobIds, DistinctJobs, DoneIds, JobsKnown, StartsKnown, Ids, Stages;
    var e := s.events[0];
    EndQueue(s.events, s.cl.active.Keys);
    MoveToDone(jobs.Keys, Ids(s.events, Submit), JobIds(s.pending), s.cl.active.Keys, DoneIds(s.records),
               s.dispatched.Keys, e.id);
    EndRecords(s, s', e.id, e.t);
  }

  lemma DispatchRecords(jobs: Trace, s: Sim, s': Sim, id: JobId, start: real)
    requires StartsKnown(s.records, s.dispatched) && id in s.records
    requires id !in DoneIds(s.records)
    requires s'.records == s.records[id := s.records[id].(start := Some(start))]
    requires s'.dispatched.Keys == s.dispatched.Keys + {id}
    ensures StartsKnown(s'.records, s'.dispatched)
    ensures s'.records.Keys == s.records.Keys && DoneIds(s'.records) == DoneIds(s.records)
  {
    assert s.records[id].end.None?;
    DoneAfter(s.records, id, s.records[id].(start := Some(start)));
    assert s'.records.Keys == s.records.Keys + {id};
  }

  lemma RemoveKnown(jobs: Trace, pending: seq<Job>, job: Job)
    requires JobsKnown(jobs, pending)
    ensures JobsKnown(jobs, Remove(pending, job))
  {
    RemoveSubset(pending, job);
  }

  lemma DispatchBooks(jobs: Trace, s: Sim, s': Sim, job: Job, end: Event, start: real)
    requires Booked(jobs, s) && job in s.pending && job.id in s.records && end.id == job.id && end.kind == End
    requires s'.events == Push(s.events, end) && s'.pending == Remove(s.pending, job)
    requires s'.records == s.records[job.id := s.records[job.id].(start := Some(start))]
    requires s'.dispatched.Keys == s.dispatched.Keys + {job.id}
    requires s'.cl.active.Keys == s.cl.active.Keys + {job.id}
    ensures Booked(jobs, s') && job.id !in s.cl.active
  {
    hide QueueOk, JobIds, DistinctJobs, Push, Remove, JobsKnown, DoneIds, StartsKnown, Ids, Stages;
    RemoveIds(s.pending, job);
    RemoveKnown(jobs, s.pending, job);
    MoveToActive(jobs.Keys, Ids(s.events, Submit), JobIds(s.pending), s.cl.active.Keys, DoneIds(s.records),
                 s.dispatched.Keys, job.id);
    PendingIdFree(jobs, s, job);
    PushIds(s.events, end);
    assert Ids(s'.events, Submit) == Ids(s.events, Submit) && Ids(s'.events, End) == Ids(s.events, End) + {job.id};
    DispatchRecords(jobs, s, s', job.id, start);
  }

  lemma PendingIdFree(jobs: Trace, s: Sim, job: Job)
    requires Booked(jobs, s) && job in s.pending
    ensures job.id !in Ids(s.events, Submit) && job.id !in Ids(s.events, End) && job.id !in DoneIds(s.records)
  {
    assert job.id in JobIds(s.pending);
  }

  lemma StagedShape(cfg: Config, jobs: Trace, s: Sim)
    requires Staged(cfg, jobs, s)
    ensures ConfigOk(cfg) && Shaped(cfg, s.cl) && s.records.Keys == jobs.Keys
    ensures forall id :: id in s.cl.active ==> PlanOk(cfg, s.cl.active[id])
    ensures forall j :: j in s.pending ==> j.id in jobs && jobs[j.id] == j
  {
  }

  lemma HandleKeepsStages(cfg: Config, jobs: Trace, s: Sim)
    requires TraceOk(jobs) && Staged(cfg, jobs, s) && s.events != []
    requires s.events[0].id in jobs && s.events[0].id in s.records
    ensures Staged(cfg, jobs, HandleEvent(cfg, jobs, s))
  {
    StagedShape(cfg, jobs, s);
    EventIdKnown(cfg, jobs, s);
    hide Conserved, Booked, PlanOk, GridOk, ConfigOk;
    FreeKeeps(cfg, s.cl, s.events[0].id);
    if s.events[0].kind == Submit {
      SubmitBooks(jobs, s, HandleEvent(cfg, jobs, s));
    } else {
      EndBooks(jobs, s, HandleEvent(cfg, jobs, s));
    }
  }

  lemma ReserveKnown(cfg: Config, jobs: Trace, cl: State, job: Job, plan: Plan)
    requires ConfigOk(cfg) && Shaped(cfg, cl) && ValidPlan(cfg, cl, job, plan) && SlotsKnown(cfg, jobs, cl)
    requires job.id in jobs && jobs[job.id] == job
    ensures SlotsKnown(cfg, jobs, Reserve(cfg, cl, job, plan)) && PlanOk(cfg, plan)
  {
    ReserveUses(cfg, cl, job, plan);
  }

  lemma DispatchKeepsBooks(cfg: Config, jobs: Trace, s: Sim, job: Job, plan: Plan, latency: real)
    requires Booked(jobs, s) && job in s.pending && job.id in s.records
    requires Shaped(cfg, s.cl) && PlanOk(cfg, plan)
    ensures Booked(jobs, Dispatch(cfg, s, job, plan, latency)) && job.id !in s.cl.active
  {
    hide Booked, PlanOk, GridOk, Push, Remove, AddPlan, Charge;
    DispatchBooks(jobs, s, Dispatch(cfg, s, job, plan, latency), job,
                  Event(s.now + latency + job.runtime, s.nextSeq, End, job.id), s.now + latency);
  }

  lemma DispatchKeepsStages(cfg: Config, jobs: Trace, s: Sim, job: Job, plan: Plan, latency: real)
    requires TraceOk(jobs) && Staged(cfg, jobs, s) && job in s.pending && job.id in s.records
    requires Shaped(cfg, s.cl) && ConfigOk(cfg) && PlanOk(cfg, plan) && ValidPlan(cfg, s.cl, job, plan)
    ensures Staged(cfg, jobs, Dispatch(cfg, s, job, plan, latency))
    ensures job.id !in s.cl.active
  {
    StagedShape(cfg, jobs, s);
    hide Conserved, ValidPlan, Booked, SlotsKnown, PlanOk, Shaped, ConfigOk, Push, Remove, Reserve;
    DispatchKeepsBooks(cfg, jobs, s, job, plan, latency);
    ReserveKeeps(cfg, s.cl, job, plan);
    ReserveKnown(cfg, jobs, s.cl, job, plan);
  }
}
