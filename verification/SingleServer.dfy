/** Jobs that each fill the one GPU there is: under first come, first served the simulator is then a
    single-server queue, whose runs can be followed step by step. */
module SingleServer {
  import opened Wrappers
  import opened Sums
  import opened Sorting
  import opened ClusterModel
  import opened ClusterPlanning
  import opened SimModel
  import opened SimTiming
  import opened SimRun
  import opened Runner
  import opened Metrics

  const ONE_GPU := Config(1, 1, 100, [1.0], 1.0)

  predicate Whole(j: Job) {
    j.gpuCount == 1 && j.mps == 100 && j.ram == 0.0
  }

  predicate AllWhole(jobs: Trace) {
    forall id :: id in jobs ==> Whole(jobs[id])
  }

  // ----- The GPU is either idle or busy -----

  lemma IdleTakes(st: State, j: Job)
    requires Conserved(ONE_GPU, st) && st.active == map[] && Whole(j)
    ensures Feasible(ONE_GPU, st, j)
  {
    IdleIsInitial(ONE_GPU, st);
    var slots := {(0, 0)};
    assert Placement(ONE_GPU, st, j, slots);
  }

  /** While a job is being served no slot is free. */
  lemma BusyRefuses(jobs: Trace, s: Sim, samples: Samples, j: Job)
    requires RunOk(ONE_GPU, jobs, s, samples) && TimesOk(jobs) && AllWhole(jobs) && s.cl.active != map[] && Whole(j)
    ensures ConfigOk(ONE_GPU) && Shaped(ONE_GPU, s.cl) && !Feasible(ONE_GPU, s.cl, j)
  {
    hide RunOk, Timed, SumR, UsedMps, Feasible, Serving, Booked, Conserved;
    RunOkShape(ONE_GPU, jobs, s, samples);
    TimedRun(ONE_GPU, jobs, s, samples);
    var id :| id in s.cl.active;
    ServedSlots(jobs, s, id);
    NothingFree(s.cl);
    FullRefuses(s.cl, j);
  }

  lemma FullRefuses(st: State, j: Job)
    requires Shaped(ONE_GPU, st) && st.free[0][0] <= 0 && Whole(j)
    ensures ConfigOk(ONE_GPU) && !Feasible(ONE_GPU, st, j)
  {
    forall slots | |slots| == 1
      ensures !Placement(ONE_GPU, st, j, slots)
    {
      var p: (nat, nat) :| p in slots;
      assert !SlotOk(ONE_GPU, st, j, p.0, p.1);
    }
  }

  lemma ServedSlots(jobs: Trace, s: Sim, id: JobId)
    requires Booked(jobs, s) && AllWhole(jobs) && id in s.cl.active
    ensures SumR(Serving(ONE_GPU, jobs, s)) >= 100.0
  {
    hide SumR;
    var r := Serving(ONE_GPU, jobs, s);
    ActiveServing(jobs, s, id);
    SumTakeR(r, id);
    SumNonnegR(r - {id});
  }

  lemma ActiveServing(jobs: Trace, s: Sim, id: JobId)
    requires Booked(jobs, s) && AllWhole(jobs) && id in s.cl.active
    ensures id in Serving(ONE_GPU, jobs, s) && Serving(ONE_GPU, jobs, s)[id] == 100.0
    ensures forall k :: k in Serving(ONE_GPU, jobs, s) ==> Serving(ONE_GPU, jobs, s)[k] >= 0.0
  {
    hide QueueOk, DistinctJobs, JobsKnown;
    assert id in s.dispatched && id in jobs;
    assert id !in DoneIds(s.records);
    assert JobSlots(ONE_GPU, jobs[id]) == 100;
  }

  lemma NothingFree(st: State)
    requires Shaped(ONE_GPU, st)
    ensures UsedMps(ONE_GPU, st) == 100 - st.free[0][0]
  {
    var row := st.free[0];
    assert row[..0] == [] && st.free[..0] == [];
    assert RowSum(row) == RowSum(row[..0]) + row[0];
    assert GridSum(st.free) == GridSum(st.free[..0]) + RowSum(st.free[0]);
  }

  // ----- One turn of the loop -----

  /** What can be seen of a run: the event queue, who waits, the records and who is being served. */
  datatype Shop = Shop(events: seq<Event>, nextSeq: nat, pending: seq<Job>, records: map<JobId, Record>,
                       serving: set<JobId>)

  function Seen(s: Sim): Shop {
    Shop(s.events, s.nextSeq, s.pending, s.records, s.cl.active.Keys)
  }

  predicate CanHandle(jobs: Trace, p: Shop) {
    p.events != [] && p.events[0].id in jobs && p.events[0].id in p.records
  }

  /** The next event: somebody arrives, or the one being served leaves. */
  function Handled(jobs: Trace, p: Shop): Shop
    requires CanHandle(jobs, p)
  {
    var e := p.events[0];
    match e.kind
    case Submit => p.(events := p.events[1..], pending := p.pending + [jobs[e.id]])
    case End => p.(events := p.events[1..], serving := p.serving - {e.id},
                   records := p.records[e.id := p.records[e.id].(end := Some(e.t))])
  }

  /** Then, if nobody is being served, whoever came first is, from now on. */
  function Served(p: Shop, t: real): Shop {
    var ordered := Sort(FcfsLe, p.pending);
    if ordered == [] || p.serving != {} || ordered[0].id !in p.records then p
    else
      var j := ordered[0];
      p.(pending := Remove(p.pending, j), serving := {j.id}, nextSeq := p.nextSeq + 1,
         records := p.records[j.id := p.records[j.id].(start := Some(t))],
         events := Push(p.events, Event(t + j.runtime, p.nextSeq, End, j.id)))
  }

  function Turn(jobs: Trace, p: Shop): Shop
    requires CanHandle(jobs, p)
  {
    Served(Handled(jobs, p), p.events[0].t)
  }

  const NO_LAG: Latency := (k, j, t) => 0.0

  /** The walk starts the first of the queue if the GPU is idle, and no other. */
  lemma WalkServes(jobs: Trace, s: Sim, samples: Samples, ordered: seq<Job>, states: seq<Sim>)
    requires RunOk(ONE_GPU, jobs, s, samples) && TimesOk(jobs) && AllWhole(jobs)
    requires ordered == Sort(FcfsLe, s.pending)
    requires DispatchWalk(ONE_GPU, NO_LAG, states, ordered, false) && states[0] == s
    ensures Seen(states[|states| - 1]) == Served(Seen(s), s.now)
  {
    hide RunOk, Feasible, SubmitLe, FcfsLe, Sort, Push, Remove, TimesOk, Reserve, AllWhole, Whole, DispatchWalk, Booked;
    RunOkShape(ONE_GPU, jobs, s, samples);
    PermutesElems(s.pending, ordered);
    if ordered == [] {
      NoWalk(s, ordered, states);
    } else {
      assert ordered[0] in s.pending;
      AllAreWhole(jobs, ordered[0]);
      if s.cl.active != map[] {
        BusyRefuses(jobs, s, samples, ordered[0]);
        NoWalk(s, ordered, states);
      } else {
        IdleTakes(s.cl, ordered[0]);
        FirstIsServed(jobs, s, samples, ordered, states);
      }
    }
  }

  lemma AllAreWhole(jobs: Trace, j: Job)
    requires AllWhole(jobs) && j.id in jobs && jobs[j.id] == j
    ensures Whole(j)
  {
  }

  lemma NoWalk(s: Sim, ordered: seq<Job>, states: seq<Sim>)
    requires DispatchWalk(ONE_GPU, NO_LAG, states, ordered, false) && states[0] == s
    requires ordered == [] || !Fits(ONE_GPU, s.cl, ordered[0])
    ensures states == [s]
  {
    hide WalkStep, Fits;
  }

  lemma WalkOne(s: Sim, ordered: seq<Job>, states: seq<Sim>)
    requires DispatchWalk(ONE_GPU, NO_LAG, states, ordered, false) && states[0] == s
    requires ordered != [] && Fits(ONE_GPU, s.cl, ordered[0])
    ensures |states| >= 2 && WalkStep(ONE_GPU, NO_LAG, s, ordered[0], states[1])
    ensures |states| > 2 ==> |ordered| > 1 && Fits(ONE_GPU, states[1].cl, ordered[1])
  {
    hide WalkStep, Fits;
  }

  ghost predicate NowServed(s: Sim, j: Job, s': Sim) {
    && j.id in s.records
    && s'.pending == Remove(s.pending, j) && s'.cl.active.Keys == {j.id} && s'.nextSeq == s.nextSeq + 1
    && s'.records == s.records[j.id := s.records[j.id].(start := Some(s.now))]
    && s'.events == Push(s.events, Event(s.now + j.runtime, s.nextSeq, End, j.id))
  }

  lemma StartServes(jobs: Trace, s: Sim, samples: Samples, j: Job, plan: Plan, s': Sim)
    requires RunOk(ONE_GPU, jobs, s, samples) && s.cl.active == map[] && j in s.pending
    requires Starts(ONE_GPU, NO_LAG, s, j, plan, s')
    ensures RunOk(ONE_GPU, jobs, s', samples) && NowServed(s, j, s')
  {
    hide RunOk, Feasible, Push, Remove, ClusterObject.Preferred, ValidPlan, PlanOk, AddPlan, Charge, Shaped, ConfigOk;
    DispatchKeepsRun(ONE_GPU, jobs, s, samples, j, plan, 0.0);
    assert s'.cl.active == map[j.id := plan];
  }

  lemma FirstIsServed(jobs: Trace, s: Sim, samples: Samples, ordered: seq<Job>, states: seq<Sim>)
    requires RunOk(ONE_GPU, jobs, s, samples) && TimesOk(jobs) && AllWhole(jobs) && s.cl.active == map[]
    requires ordered != [] && (forall j :: j in ordered ==> j in s.pending)
    requires DispatchWalk(ONE_GPU, NO_LAG, states, ordered, false) && states[0] == s
    requires Fits(ONE_GPU, s.cl, ordered[0])
    ensures |states| == 2 && NowServed(s, ordered[0], states[1])
  {
    hide RunOk, Starts, NowServed, TimesOk, AllWhole, DispatchWalk, Whole, Booked, Feasible, Shaped, ConfigOk;
    var j := ordered[0];
    assert j in s.pending;
    WalkOne(s, ordered, states);
    var plan :| Starts(ONE_GPU, NO_LAG, s, j, plan, states[1]);
    StartServes(jobs, s, samples, j, plan, states[1]);
    if |states| > 2 {
      assert ordered[1] in s.pending;
      RunOkShape(ONE_GPU, jobs, s, samples);
      AllAreWhole(jobs, ordered[1]);
      NowBusy(s, j, states[1]);
      BusyRefuses(jobs, states[1], samples, ordered[1]);
    }
  }

  lemma NowBusy(s: Sim, j: Job, s': Sim)
    requires NowServed(s, j, s')
    ensures s'.cl.active != map[]
  {
    hide Push, Remove;
    assert j.id in s'.cl.active.Keys;
  }

  lemma EventSeen(jobs: Trace, s: Sim, s1: Sim)
    requires EventHandled(ONE_GPU, jobs, s, s1) && (s.events[0].kind == End ==> s.events[0].id in s.cl.active)
    ensures CanHandle(jobs, Seen(s)) && Seen(s1) == Handled(jobs, Seen(s)) && s1.now == s.events[0].t
  {
    hide AddPlan, Refund, PlanOk, Shaped;
  }

  /** Under first come, first served without latency, on the one GPU. */
  ghost predicate Queueing(sim: Simulator)
    reads sim, sim.cluster
  {
    && sim.Valid() && Sampled(sim.cfg, sim.View(), sim.samples) && FifoRun(sim.jobs, sim.View(), 0.0, false)
    && sim.cfg == ONE_GPU && sim.order == FcfsOrder && !sim.backfill && sim.latency == NO_LAG
    && TimesOk(sim.jobs) && AllWhole(sim.jobs)
  }

  /** One turn of the simulator's loop is one turn of the single-server queue. */
  method OneTurn(sim: Simulator)
    requires Queueing(sim) && sim.events != []
    modifies sim, sim.cluster
    ensures Queueing(sim)
    ensures old(CanHandle(sim.jobs, Seen(sim.View()))) && Seen(sim.View()) == old(Turn(sim.jobs, Seen(sim.View())))
  {
    hide RunOk, Waited, Schedules, Nonnegative, FifoRun, TimesOk, AllWhole, DispatchWalk, EventHandled, Blocked, Load,
         Sampled, InSubmitOrder, ConstantLag, Booked, Handled, Served;
    ghost var s, before := sim.View(), sim.samples;
    InAnyOrder();
    var ordered, states := sim.Step(0.0, false);
    HandledRun(sim.jobs, s, before, states[0]);
    EventSeen(sim.jobs, s, states[0]);
    WalkServes(sim.jobs, states[0], before, ordered, states);
  }

  lemma InAnyOrder()
    ensures InSubmitOrder(FcfsOrder, false) && ConstantLag(NO_LAG, 0.0)
  {
    FcfsSchedules();
    AnyTies();
  }

  lemma HandledRun(jobs: Trace, s: Sim, samples: Samples, s1: Sim)
    requires RunOk(ONE_GPU, jobs, s, samples) && Sampled(ONE_GPU, s, samples) && EventHandled(ONE_GPU, jobs, s, s1)
    ensures RunOk(ONE_GPU, jobs, s1, samples)
    ensures s.events[0].kind == End ==> s.events[0].id in s.cl.active
  {
    hide RunOk, Sampled, Shaped, PlanOk;
    HandleKeepsRun(ONE_GPU, jobs, s, samples);
    RunOkShape(ONE_GPU, jobs, s, samples);
    EventIdKnown(ONE_GPU, jobs, s);
  }

  // ----- Submitted together, listed against their ids -----

  const HOLDER := Job(0, 1, 100, 0.0, 0.0, 10.0)
  const LISTED_FIRST := Job(2, 1, 100, 0.0, 1.0, 10.0)
  const LISTED_LAST := Job(1, 1, 100, 0.0, 1.0, 10.0)
  const TIED := [HOLDER, LISTED_FIRST, LISTED_LAST]

  const FIRST := Event(0.0, 0, Submit, 0)
  const SECOND := Event(1.0, 1, Submit, 2)
  const THIRD := Event(1.0, 2, Submit, 1)
  const NEW := Record(None, None)

  function Rows3(zero: Record, one: Record, two: Record): map<JobId, Record> {
    map[0 := zero, 1 := one, 2 := two]
  }

  /** The queue after each turn. */
  function After(k: nat): Shop {
    var zero := Record(Some(0.0), if k >= 4 then Some(10.0) else None);
    var one := Record(Some(10.0), if k >= 5 then Some(20.0) else None);
    if k == 0 then Shop([FIRST, SECOND, THIRD], 3, [], Rows3(NEW, NEW, NEW), {})
    else if k == 1 then Shop([SECOND, THIRD, Event(10.0, 3, End, 0)], 4, [], Rows3(zero, NEW, NEW), {0})
    else if k == 2 then Shop([THIRD, Event(10.0, 3, End, 0)], 4, [LISTED_FIRST], Rows3(zero, NEW, NEW), {0})
    else if k == 3 then Shop([Event(10.0, 3, End, 0)], 4, [LISTED_FIRST, LISTED_LAST], Rows3(zero, NEW, NEW), {0})
    else if k == 4 then Shop([Event(20.0, 4, End, 1)], 5, [LISTED_FIRST], Rows3(zero, one, NEW), {1})
    else if k == 5 then Shop([Event(30.0, 5, End, 2)], 6, [], Rows3(zero, one, Record(Some(20.0), None)), {2})
    else Shop([], 6, [], Rows3(zero, one, Record(Some(20.0), Some(30.0))), {})
  }

  function Jobs3(): Trace {
    map[0 := HOLDER, 1 := LISTED_LAST, 2 := LISTED_FIRST]
  }

  lemma SortOne(j: Job)
    ensures Sort(FcfsLe, [j]) == [j]
  {
    assert [j][1..] == [];
    assert Sort(FcfsLe, []) == [];
  }

  lemma SortTwo(a: Job, b: Job)
    ensures Sort(FcfsLe, [a, b]) == if FcfsLe(a, b) then [a, b] else [b, a]
  {
    assert [a, b][1..] == [b];
    SortOne(b);
    assert [b][1..] == [];
  }

  lemma Turn1()
    ensures CanHandle(Jobs3(), After(0)) && Turn(Jobs3(), After(0)) == After(1)
  {
    SortOne(HOLDER);
    var e := Event(10.0, 3, End, 0);
    assert [FIRST, SECOND, THIRD][1..] == [SECOND, THIRD];
    assert [SECOND, THIRD][1..] == [THIRD] && [THIRD][1..] == [];
    assert Push([], e) == [e];
    assert Push([THIRD], e) == [THIRD] + Push([], e);
    assert Push([SECOND, THIRD], e) == [SECOND] + Push([THIRD], e);
    assert Remove([HOLDER], HOLDER) == [];
    assert [] + [HOLDER] == [HOLDER];
  }

  lemma Turn2()
    ensures CanHandle(Jobs3(), After(1)) && Turn(Jobs3(), After(1)) == After(2)
  {
    assert [SECOND, THIRD, Event(10.0, 3, End, 0)][1..] == [THIRD, Event(10.0, 3, End, 0)];
    assert [] + [LISTED_FIRST] == [LISTED_FIRST];
  }

  lemma Turn3()
    ensures CanHandle(Jobs3(), After(2)) && Turn(Jobs3(), After(2)) == After(3)
  {
    assert [THIRD, Event(10.0, 3, End, 0)][1..] == [Event(10.0, 3, End, 0)];
    assert [LISTED_FIRST] + [LISTED_LAST] == [LISTED_FIRST, LISTED_LAST];
  }

  lemma Turn4()
    ensures CanHandle(Jobs3(), After(3)) && Turn(Jobs3(), After(3)) == After(4)
  {
    SortTwo(LISTED_FIRST, LISTED_LAST);
    var e := Event(20.0, 4, End, 1);
    assert [Event(10.0, 3, End, 0)][1..] == [];
    assert Push([], e) == [e];
    assert [LISTED_FIRST, LISTED_LAST][1..] == [LISTED_LAST] && [LISTED_LAST][1..] == [];
    assert Remove([LISTED_LAST], LISTED_LAST) == [];
    assert Remove([LISTED_FIRST, LISTED_LAST], LISTED_LAST) == [LISTED_FIRST] + [];
  }

  lemma Turn5()
    ensures CanHandle(Jobs3(), After(4)) && Turn(Jobs3(), After(4)) == After(5)
  {
    SortOne(LISTED_FIRST);
    var e := Event(30.0, 5, End, 2);
    assert [Event(20.0, 4, End, 1)][1..] == [];
    assert Push([], e) == [e];
    assert Remove([LISTED_FIRST], LISTED_FIRST) == [];
  }

  lemma Turn6()
    ensures CanHandle(Jobs3(), After(5)) && Turn(Jobs3(), After(5)) == After(6)
  {
    assert [Event(30.0, 5, End, 2)][1..] == [];
    assert Sort(FcfsLe, []) == [];
  }

  lemma TurnOn(k: nat)
    requires k < 6
    ensures CanHandle(Jobs3(), After(k)) && Turn(Jobs3(), After(k)) == After(k + 1) && After(k).events != []
  {
    hide Turn, After;
    match k
    case 0 => Turn1();
    case 1 => Turn2();
    case 2 => Turn3();
    case 3 => Turn4();
    case 4 => Turn5();
    case _ => Turn6();
  }

  lemma TiedSorted()
    ensures Sort(SubmitLe, TIED) == TIED
  {
    var a, b, c := HOLDER, LISTED_FIRST, LISTED_LAST;
    assert TIED[1..] == [b, c] && [b, c][1..] == [c] && [c][1..] == [];
    assert Sort(SubmitLe, []) == [];
    assert Sort(SubmitLe, [c]) == [c];
    assert Sort(SubmitLe, [b, c]) == [b, c];
  }

  lemma TiedById()
    ensures DistinctJobs(TIED) && ById(TIED) == Jobs3()
  {
    var a, b, c := HOLDER, LISTED_FIRST, LISTED_LAST;
    assert TIED[..2] == [a, b] && [a, b][..1] == [a] && [a][..0] == [];
    assert ById([]) == map[];
    assert ById([a]) == map[0 := a];
    assert ById([a, b]) == map[0 := a, 2 := b];
    assert ById(TIED) == map[0 := a, 2 := b, 1 := c];
  }

  lemma TiedTrace()
    ensures DistinctJobs(TIED) && ById(TIED) == Jobs3() && Sort(SubmitLe, TIED) == TIED
    ensures TimesOk(Jobs3()) && AllWhole(Jobs3()) && TraceOk(Jobs3())
  {
    TiedSorted();
    TiedById();
    hide ById, Sort;
  }

  /** The simulator at the start of the run. */
  method Opened() returns (sim: Simulator)
    ensures fresh(sim) && fresh(sim.cluster) && Queueing(sim) && sim.jobs == Jobs3() && Seen(sim.View()) == After(0)
  {
    hide RunOk, Waited, Schedules, Nonnegative, FifoRun, Sampled, Blocked, ById, DistinctJobs, Sort, TimesOk, AllWhole,
         Numbers, QueueOk, TiesById, Booked, Conserved, Staged, TraceOk, After;
    TiedTrace();
    FcfsSchedules();
    LagIsConstant(NO_LAG, 0.0);
    sim := new Simulator(ONE_GPU, TIED, FcfsOrder, false, NO_LAG);
    RunOkShape(ONE_GPU, sim.jobs, sim.View(), sim.samples);
    ThreeEvents(sim.events);
    AtFirst(sim.View());
  }

  lemma AtFirst(s: Sim)
    requires s.events == [FIRST, SECOND, THIRD] && s.nextSeq == 3 && s.pending == [] && s.cl == Initial(ONE_GPU)
    requires s.records == map id | id in Jobs3() :: NEW
    ensures Seen(s) == After(0)
  {
    assert s.records == Rows3(NEW, NEW, NEW);
  }

  lemma ThreeEvents(events: seq<Event>)
    requires QueueOk(events) && |events| == 3 && forall e :: e in events ==> Numbers(TIED, e)
    ensures events == [FIRST, SECOND, THIRD]
  {
    forall i | 0 <= i < 3
      ensures events[i] == FIRST || events[i] == SECOND || events[i] == THIRD
    {
      assert Numbers(TIED, events[i]);
    }
    assert EventLe(events[0], events[1]) && EventLe(events[1], events[2]) && EventLe(events[0], events[2]);
  }

  /** Two jobs submitted together wait for the GPU. The one listed last has the lower id, is served first and is
      counted as a backfill. */
  method TiedOvertaking() returns (r: Option<Summary>)
    ensures r.Some? && r.value.backfills == 1 && !TiesById(TIED)
  {
    hide Queueing, Turn, CanHandle, Overtakers, FinishedIds, Listing, After, DistinctJobs, ById, Sort, TiesById;
    TiedTrace();
    var sim := Opened();
    var k := 0;
    while k < 6
      invariant k <= 6 && Queueing(sim) && sim.jobs == Jobs3() && Seen(sim.View()) == After(k)
      invariant fresh(sim) && fresh(sim.cluster)
    {
      TurnOn(k);
      OneTurn(sim);
      k := k + 1;
    }
    AllServed(sim.records);
    NotById();
    ghost var ids, ordered, first, last;
    r, ids, ordered, first, last := Summarize(TIED, sim.records, sim.samples);
    CountedOnce(sim.records, ids, ordered);
  }

  lemma AllServed(records: map<JobId, Record>)
    requires records == After(6).records
    ensures FinishedIds(TIED, records) == [0, 2, 1] && records.Keys == Jobs3().Keys
  {
    TiedSorted();
    hide Sort;
    var a, b, c := HOLDER, LISTED_FIRST, LISTED_LAST;
    assert TIED[..2] == [a, b] && [a, b][..1] == [a] && [a][..0] == [];
    assert Ended(records, 0) && Ended(records, 1) && Ended(records, 2);
    hide After;
    assert DoneOf([], records) == [];
    assert DoneOf([a], records) == [] + [a];
    assert DoneOf([a, b], records) == [a] + [b];
    assert DoneOf(TIED, records) == [a, b] + [c];
  }

  lemma CountedOnce(records: map<JobId, Record>, ids: seq<JobId>, ordered: seq<Finished>)
    requires records == After(6).records && ids == [0, 2, 1] && Listing(Jobs3(), records, ids, ordered, false)
    ensures |Overtakers(ordered, |ordered|)| == 1
  {
    hide Ahead;
    assert ordered[0].start == Some(0.0) && ordered[1].start == Some(20.0) && ordered[2].start == Some(10.0);
    assert Later(ordered[1], ordered[2]) && Overtakes(ordered, 2);
    assert Overtakers(ordered, 3) == {2};
  }

  lemma NotById()
    ensures !TiesById(TIED)
  {
    assert TIED[1].submit == TIED[2].submit && TIED[1].id > TIED[2].id;
  }

  // ----- A late first submission -----

  const LATE := Job(0, 1, 100, 0.0, 10.0, 10.0)

  /** One job that fills the GPU from start to end, submitted at time ten: the utilisation reported is not the
      mean over the makespan. */
  method LateFirstSubmission() returns (sim: Simulator, r: Option<Summary>)
    ensures sim.cfg == ONE_GPU && sim.jobs == ById([LATE]) && r.Some?
    ensures var work := SumR(FinalWork(ONE_GPU, sim.jobs, sim.View()));
      r.value.utilization != OverMakespan(ONE_GPU, work, r.value.makespan)
  {
    hide ById, SumR, FinalWork, OverMakespan, Accounts, Feasible, Initial, FirstSubmit, LastEnd;
    FcfsSchedules();
    LagIsConstant(NO_LAG, 0.0);
    LateTrace();
    ghost var first, last;
    sim, r, first, last := Simulate(ONE_GPU, [LATE], FcfsOrder, false, NO_LAG);
  }

  lemma LateTrace()
    ensures ConfigOk(ONE_GPU) && ById([LATE]) == map[0 := LATE] && DistinctJobs([LATE])
    ensures AllFit(ONE_GPU, ById([LATE])) && TimesOk(ById([LATE]))
    ensures HasWork(ONE_GPU, ById([LATE])) && !StartsAtZero(ById([LATE]))
  {
    assert [LATE][..0] == [] && ById([]) == map[];
    InitialConserved(ONE_GPU);
    IdleTakes(Initial(ONE_GPU), LATE);
    assert JobSlots(ONE_GPU, LATE) == 100;
  }
}
