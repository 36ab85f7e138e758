/** Peak demand of a workload by sweeping over its start and end events. */
module SweepLine {
  import opened Sorting

  datatype Job = Job(arrival: real, runtime: real, mps: nat)

  datatype Event = Event(t: real, d: int)

  /** The slots wanted at time t if every job ran from its arrival on. */
  function Demand(jobs: seq<Job>, t: real): nat {
    if jobs == [] then 0
    else Demand(jobs[1..], t) + if jobs[0].arrival <= t < jobs[0].arrival + jobs[0].runtime then jobs[0].mps else 0
  }

  /** By time, and at equal times ends before starts. */
  predicate EventLe(a: Event, b: Event) {
    a.t < b.t || (a.t == b.t && a.d <= b.d)
  }

  /** The sum of all changes up to and including time t. */
  function Level(events: seq<Event>, t: real): int {
    if events == [] then 0 else Level(events[1..], t) + if events[0].t <= t then events[0].d else 0
  }

  function Sum(events: seq<Event>): int {
    if events == [] then 0 else Sum(events[..|events| - 1]) + events[|events| - 1].d
  }

  function EventsOf(jobs: seq<Job>): seq<Event> {
    if jobs == [] then []
    else
      var j := jobs[|jobs| - 1];
      EventsOf(jobs[..|jobs| - 1]) + [Event(j.arrival, j.mps), Event(j.arrival + j.runtime, -(j.mps as int))]
  }

  lemma {:induction false} LevelConcat(a: seq<Event>, b: seq<Event>, t: real)
    ensures Level(a + b, t) == Level(a, t) + Level(b, t)
  {
    if a == [] {
      assert a + b == b;
    } else {
      assert (a + b)[1..] == a[1..] + b;
      LevelConcat(a[1..], b, t);
    }
  }

  lemma {:induction false} DemandLast(jobs: seq<Job>, j: Job, t: real)
    ensures Demand(jobs + [j], t) == Demand(jobs, t) + Demand([j], t)
  {
    if jobs != [] {
      assert (jobs + [j])[1..] == jobs[1..] + [j];
      DemandLast(jobs[1..], j, t);
    } else {
      assert jobs + [j] == [j];
    }
  }

  /** Demand is what the events up to now add up to. */
  lemma {:induction false} DemandIsLevel(jobs: seq<Job>, t: real)
    requires forall j :: j in jobs ==> j.runtime >= 0.0
    ensures Demand(jobs, t) == Level(EventsOf(jobs), t)
  {
    if jobs != [] {
      var m := |jobs| - 1;
      var j := jobs[m];
      DemandIsLevel(jobs[..m], t);
      assert jobs == jobs[..m] + [j];
      DemandLast(jobs[..m], j, t);
      var pair := [Event(j.arrival, j.mps), Event(j.arrival + j.runtime, -(j.mps as int))];
      LevelConcat(EventsOf(jobs[..m]), pair, t);
      OneJob(j, t);
    }
  }

  lemma OneEvent(e: Event, t: real)
    ensures Level([e], t) == if e.t <= t then e.d else 0
  {
    assert [e][1..] == [];
  }

  lemma OneJob(j: Job, t: real)
    requires j.runtime >= 0.0
    ensures Demand([j], t) == Level([Event(j.arrival, j.mps), Event(j.arrival + j.runtime, -(j.mps as int))], t)
  {
    var up, down := Event(j.arrival, j.mps), Event(j.arrival + j.runtime, -(j.mps as int));
    assert [up, down] == [up] + [down] && [j][1..] == [];
    LevelConcat([up], [down], t);
    OneEvent(up, t);
    OneEvent(down, t);
  }

  lemma {:induction false} InsertLevel(e: Event, events: seq<Event>, t: real)
    ensures Level(Insert(EventLe, e, events), t) == Level(events, t) + if e.t <= t then e.d else 0
  {
    if events == [] || EventLe(e, events[0]) {
      assert ([e] + events)[1..] == events;
    } else {
      InsertLevel(e, events[1..], t);
      var rest := Insert(EventLe, e, events[1..]);
      assert ([events[0]] + rest)[1..] == rest;
    }
  }

  lemma {:induction false} SortLevel(events: seq<Event>, t: real)
    ensures Level(Sort(EventLe, events), t) == Level(events, t)
  {
    if events != [] {
      SortLevel(events[1..], t);
      InsertLevel(events[0], Sort(EventLe, events[1..]), t);
    }
  }

  lemma {:induction false} LevelAll(events: seq<Event>, t: real)
    requires forall e :: e in events ==> e.t <= t
    ensures Level(events, t) == Sum(events)
  {
    if events != [] {
      var m := |events| - 1;
      assert events == events[..m] + [events[m]];
      LevelAll(events[..m], t);
      LevelConcat(events[..m], [events[m]], t);
      assert [events[m]][1..] == [];
    }
  }

  lemma {:induction false} LevelNone(events: seq<Event>, t: real)
    requires forall e :: e in events ==> e.t > t
    ensures Level(events, t) == 0
  {
    if events != [] {
      LevelNone(events[1..], t);
    }
  }

  /** In a sorted list, the level at t is the sum of the events before the first later one. */
  lemma SplitLevel(events: seq<Event>, k: nat, t: real)
    requires k <= |events|
    requires (forall i :: 0 <= i < k ==> events[i].t <= t) && forall i :: k <= i < |events| ==> events[i].t > t
    ensures Level(events, t) == Sum(events[..k])
  {
    assert events == events[..k] + events[k..];
    LevelConcat(events[..k], events[k..], t);
    LevelAll(events[..k], t);
    LevelNone(events[k..], t);
  }

  lemma {:induction false} LevelIsPrefix(events: seq<Event>, t: real, n: nat) returns (k: nat)
    requires SortedBy(EventLe, events) && n <= |events| && forall i :: n <= i < |events| ==> events[i].t > t
    ensures k <= n && Level(events, t) == Sum(events[..k])
  {
    if n == 0 || events[n - 1].t <= t {
      k := n;
      forall i | 0 <= i < n ensures events[i].t <= t {
        assert i < n - 1 ==> EventLe(events[i], events[n - 1]);
      }
      SplitLevel(events, n, t);
    } else {
      k := LevelIsPrefix(events, t, n - 1);
    }
  }

  /** Adding up a few more starts at the same time only gets closer to the level of that time. */
  lemma {:induction false} StartsToLevel(events: seq<Event>, k: nat, t: real)
    requires SortedBy(EventLe, events) && 0 < k <= |events| && events[k - 1].t == t && events[k - 1].d >= 0
    ensures Sum(events[..k]) <= Level(events, t)
    decreases |events| - k
  {
    if k < |events| && events[k].t == t {
      assert EventLe(events[k - 1], events[k]);
      assert events[..k + 1][..k] == events[..k];
      StartsToLevel(events, k + 1, t);
    } else {
      forall i | 0 <= i < |events|
        ensures if i < k then events[i].t <= t else events[i].t > t
      {
        assert i < k - 1 ==> EventLe(events[i], events[k - 1]);
        assert k <= i ==> EventLe(events[k - 1], events[k]) && (i > k ==> EventLe(events[k], events[i]));
      }
      SplitLevel(events, k, t);
    }
  }

  /** No running sum exceeds every level. */
  lemma {:induction false} SumReached(events: seq<Event>, k: nat)
    requires SortedBy(EventLe, events) && k <= |events|
    ensures Sum(events[..k]) <= 0 || exists t :: Sum(events[..k]) <= Level(events, t)
  {
    if k > 0 {
      if events[k - 1].d >= 0 {
        StartsToLevel(events, k, events[k - 1].t);
      } else {
        assert events[..k][..k - 1] == events[..k - 1];
        SumReached(events, k - 1);
      }
    }
  }

  /** The sweep finds the maximum over all times of the demand: nothing exceeds it, and unless it is zero
      some time reaches it. */
  method PeakConcurrent(jobs: seq<Job>) returns (peak: nat)
    requires forall j :: j in jobs ==> j.runtime >= 0.0
    ensures forall t :: Demand(jobs, t) <= peak
    ensures peak == 0 || exists t :: Demand(jobs, t) == peak
  {
    hide Demand, Level, EventsOf, SortedBy, EventLe;
    var events: seq<Event> := [];
    NoEvents();
    for i := 0 to |jobs|
      invariant events == EventsOf(jobs[..i])
    {
      var j := jobs[i];
      EventsNext(jobs, i);
      events := events + [Event(j.arrival, j.mps)];
      events := events + [Event(j.arrival + j.runtime, -(j.mps as int))];
    }
    assert jobs[..|jobs|] == jobs;
    var sorted := Sort(EventLe, events);
    EventsOrdered();
    var cur := 0;
    peak := 0;
    for k := 0 to |sorted|
      invariant cur == Sum(sorted[..k])
      invariant forall i :: 0 <= i <= k ==> Sum(sorted[..i]) <= peak
      invariant peak == 0 || exists i :: 0 <= i <= k && Sum(sorted[..i]) == peak
    {
      assert sorted[..k + 1][..k] == sorted[..k];
      cur := cur + sorted[k].d;
      if cur > peak {
        peak := cur;
      }
    }
    PeakIsMaximum(jobs, sorted, peak);
  }

  lemma NoEvents()
    ensures EventsOf([]) == []
  {
  }

  lemma EventsNext(jobs: seq<Job>, i: nat)
    requires i < |jobs|
    ensures var j := jobs[i];
      EventsOf(jobs[..i + 1])
        == EventsOf(jobs[..i]) + [Event(j.arrival, j.mps)] + [Event(j.arrival + j.runtime, -(j.mps as int))]
  {
    assert jobs[..i + 1][..i] == jobs[..i];
  }

  lemma EventsOrdered()
    ensures TotalPreorder(EventLe)
  {
  }

  lemma PeakIsMaximum(jobs: seq<Job>, sorted: seq<Event>, peak: nat)
    requires forall j :: j in jobs ==> j.runtime >= 0.0
    requires sorted == Sort(EventLe, EventsOf(jobs)) && SortedBy(EventLe, sorted)
    requires forall i :: 0 <= i <= |sorted| ==> Sum(sorted[..i]) <= peak
    requires peak == 0 || exists i :: 0 <= i <= |sorted| && Sum(sorted[..i]) == peak
    ensures forall t :: Demand(jobs, t) <= peak
    ensures peak == 0 || exists t :: Demand(jobs, t) == peak
  {
    hide Demand, Level, EventsOf, SortedBy, EventLe, Sort;
    forall t
      ensures Demand(jobs, t) == Level(sorted, t) && Demand(jobs, t) <= peak
    {
      DemandIsLevel(jobs, t);
      SortLevel(EventsOf(jobs), t);
      var k := LevelIsPrefix(sorted, t, |sorted|);
    }
    if peak > 0 {
      var i :| 0 <= i <= |sorted| && Sum(sorted[..i]) == peak;
      SumReached(sorted, i);
      var t :| Sum(sorted[..i]) <= Level(sorted, t);
      assert Demand(jobs, t) == peak;
    }
  }
}
