/** Detector, decider and actuator as one tick. */
module FragmentationReconciler {
  import opened Wrappers
  import opened Sums
  import opened Sorting
  import opened Fragmentation
  import opened VictimSets

  datatype Outcome = Outcome(verdict: Verdict, requeued: seq<nat>, failed: seq<nat>)

  class Reconciler {
    const detector: Detector
    const decider: Decider
    const shadow: bool
    const succeeds: (nat, nat) -> bool       // does the n-th call requeue that job?
    var calls: nat

    constructor (detector: Detector, decider: Decider, shadow: bool, succeeds: (nat, nat) -> bool)
      ensures this.detector == detector && this.decider == decider && this.shadow == shadow
    {
      this.detector, this.decider, this.shadow, this.succeeds := detector, decider, shadow, succeeds;
      calls := 0;
    }

    /** Detect, decide and, unless shadowed, requeue. A requeue is for the most urgent of the jobs that fit
        nowhere; its victims are the best pick there is on their node; and each is called up once. */
    method Reconcile(jobs: seq<Job>, nodes: seq<Node>, now: real)
      returns (r: Outcome, ghost target: Job, ghost victims: set<Job>)
      requires decider.Valid() && now >= decider.clock
      modifies this`calls, decider
      ensures decider.Valid() && decider.log == old(decider.log) + if r.verdict.Requeue? then [now] else []
      ensures decider.clock == if r.verdict.NothingBlocked? then old(decider.clock) else now
      ensures r.verdict.NothingBlocked? <==> forall c :: !IsCandidate(c, jobs, nodes, detector.gap)
      ensures r.verdict.RateLimited? <==>
              !r.verdict.NothingBlocked? &&
              Limited(Recent(old(decider.history), now - WINDOW), now, decider.minInterval, decider.maxPerHour)
      ensures r.verdict.Requeue? || r.verdict.NoCandidates? ==>
        && IsBlocked(target, jobs, nodes) && (r.verdict.Requeue? ==> target.id == r.verdict.decision.target)
        && forall j :: IsBlocked(j, jobs, nodes) && j != target ==> MoreUrgent(target, j)
      ensures r.verdict.NoCandidates? ==>
        forall v, n :: Known(nodes, n) ==> !Eligible(v, target, n, jobs, detector.gap)
      ensures r.verdict.Requeue? && DistinctIds(jobs) ==>
        && BestPick(victims, target, r.verdict.decision.node, jobs, detector.gap)
        && Unblocks(nodes, r.verdict.decision.node, victims, target)
        && IdsOf(victims) == Elems(r.verdict.decision.victims) && Distinct(r.verdict.decision.victims)
        && |r.verdict.decision.victims| == |victims|
        && |victims| == Stop(Once(ShortlistOf(jobs, target, r.verdict.decision.node, detector.gap)), target.mps,
                             decider.maxTargets)
        && (NoRepeats(jobs) ==> MostToGive(jobs, target, detector.gap, nodes, r.verdict.decision.node))
      ensures r.verdict.Requeue? && DistinctIds(jobs) ==>
        (FewestOverall(victims, target, jobs, nodes, detector.gap) <==>
          && HoldTogether(victims, target, nodes)
          && forall n :: n in nodes ==> !UnblocksWithin(jobs, target, detector.gap, n, |victims| - 1))
      ensures if r.verdict.Requeue? && !shadow
              then && r.requeued == Called(r.verdict.decision.victims, old(calls), true)
                   && r.failed == Called(r.verdict.decision.victims, old(calls), false)
              else r.requeued == [] && r.failed == []
    {
      hide Picked, Shortlist, Recent, Limited, FreesMost, Taken, BestPick, Unblocks, MoreUrgent, IsCandidate, IsBlocked,
           ListsEligible, DistinctIds, Fragmentation.Remembers, Once, ShortlistOf, MostToGive, FewestOverall,
           HoldTogether, UnblocksWithin, NoRepeats;
      var s := detector.TakeSnapshot(jobs, nodes);
      NobodyToRequeue(jobs, nodes, detector.gap, s);
      var v: Verdict;
      ghost var all: seq<Candidate>, chosen: seq<Candidate>;
      v, all, chosen := decider.Decide(s, now);
      r := Outcome(v, [], []);
      victims := Victims(chosen);
      if s.blocked == [] {
        target := Job(0, Other, 0, 0, [], 0.0, 0.0);
        return;
      }
      target := s.blocked[0];
      FirstIsMostUrgent(s.blocked);
      if !v.Requeue? {
        NobodyForHead(jobs, nodes, detector.gap, s);
        return;
      }
      if DistinctIds(jobs) {
        DecisionIsBest(jobs, nodes, detector.gap, s, all, chosen, v.decision.node, decider.maxTargets);
        BlockedFitsNowhere(target, jobs, nodes);
        FewestExactly(jobs, target, detector.gap, nodes, v.decision.node, victims);
        if NoRepeats(jobs) {
          NodeHasMost(jobs, nodes, detector.gap, s, v.decision.node);
        }
      }
      if !shadow {
        var done, failed := Actuate(v.decision.victims);
        r := Outcome(v, done, failed);
      }
    }

    /** The victims whose calls, the first of them the n-th, succeed - or those whose calls do not. */
    function Called(ids: seq<nat>, n: nat, good: bool): seq<nat> {
      if ids == [] then []
      else
        var m := |ids| - 1;
        Called(ids[..m], n, good) + if succeeds(n + m, ids[m]) == good then [ids[m]] else []
    }

    lemma {:induction false} EveryoneCalled(ids: seq<nat>, n: nat)
      ensures forall id :: id in ids <==> id in Called(ids, n, true) || id in Called(ids, n, false)
      ensures |Called(ids, n, true)| + |Called(ids, n, false)| == |ids|
    {
      if ids != [] {
        var m := |ids| - 1;
        var done, failed := Called(ids[..m], n, true), Called(ids[..m], n, false);
        EveryoneCalled(ids[..m], n);
        forall id ensures id in ids <==> id in ids[..m] || id == ids[m] {
          assert ids == ids[..m] + [ids[m]];
        }
        if succeeds(n + m, ids[m]) {
          assert Called(ids, n, true) == done + [ids[m]] && Called(ids, n, false) == failed + [];
        } else {
          assert Called(ids, n, true) == done + [] && Called(ids, n, false) == failed + [ids[m]];
        }
      }
    }

    /** A call that raises does not keep the others from being made. */
    method Actuate(ids: seq<nat>) returns (requeued: seq<nat>, failed: seq<nat>)
      modifies this`calls
      ensures calls == old(calls) + |ids|
      ensures requeued == Called(ids, old(calls), true) && failed == Called(ids, old(calls), false)
    {
      requeued, failed := [], [];
      for i := 0 to |ids|
        invariant calls == old(calls) + i
        invariant requeued == Called(ids[..i], old(calls), true) && failed == Called(ids[..i], old(calls), false)
      {
        assert ids[..i + 1][..i] == ids[..i];
        if succeeds(calls, ids[i]) {
          requeued := requeued + [ids[i]];
        } else {
          failed := failed + [ids[i]];
        }
        calls := calls + 1;
      }
      assert ids[..|ids|] == ids;
    }
  }

  lemma NobodyForHead(jobs: seq<Job>, nodes: seq<Node>, gap: int, s: Snapshot)
    requires s.blocked != [] && IsBlocked(s.blocked[0], jobs, nodes)
    requires forall c :: c in s.candidates <==> IsCandidate(c, jobs, nodes, gap)
    ensures (forall c :: c in s.candidates ==> c.target.id != s.blocked[0].id) ==>
              forall v, n :: Known(nodes, n) ==> !Eligible(v, s.blocked[0], n, jobs, gap)
  {
    hide IsBlocked, Known, Outweighs;
    var target := s.blocked[0];
    forall v, n | Known(nodes, n) && Eligible(v, target, n, jobs, gap)
      ensures Candidate(v, target, n, v.mps) in s.candidates
    {
      assert IsCandidate(Candidate(v, target, n, v.mps), jobs, nodes, gap);
    }
  }

  lemma NobodyToRequeue(jobs: seq<Job>, nodes: seq<Node>, gap: int, s: Snapshot)
    requires forall j :: j in s.blocked <==> IsBlocked(j, jobs, nodes)
    requires forall c :: c in s.candidates <==> IsCandidate(c, jobs, nodes, gap)
    ensures s.blocked == [] || s.candidates == [] <==> forall c :: !IsCandidate(c, jobs, nodes, gap)
  {
    hide IsBlocked;
    if s.candidates != [] {
      assert s.candidates[0] in s.candidates;
      assert s.candidates[0].target in s.blocked;
    }
  }

  lemma FirstIsMostUrgent(blocked: seq<Job>)
    requires SortedBy(MoreUrgent, blocked) && blocked != []
    ensures blocked[0] in blocked && forall j :: j in blocked && j != blocked[0] ==> MoreUrgent(blocked[0], j)
  {
    hide MoreUrgent;
    forall j | j in blocked && j != blocked[0]
      ensures MoreUrgent(blocked[0], j)
    {
      var i :| 0 <= i < |blocked| && blocked[i] == j;
    }
  }

  /** On a snapshot of the cluster, the decision is the best pick and unblocks the target if it frees enough. */
  lemma DecisionIsBest(jobs: seq<Job>, nodes: seq<Node>, gap: int, s: Snapshot, all: seq<Candidate>,
                       chosen: seq<Candidate>, node: nat, limit: int)
    requires forall j :: j in s.blocked ==> IsBlocked(j, jobs, nodes)
    requires forall c :: c in s.candidates <==> IsCandidate(c, jobs, nodes, gap)
    requires s.blocked != [] && Shortlist(all, s, s.blocked[0].id, node) && DistinctIds(jobs)
    requires Picked(all, chosen, s.blocked[0].mps, limit) && chosen != []
    requires chosen == Taken(all, s.blocked[0].mps, limit)
    ensures BestPick(Victims(chosen), s.blocked[0], node, jobs, gap)
    ensures Unblocks(nodes, node, Victims(chosen), s.blocked[0])
    ensures IdsOf(Victims(chosen)) == Elems(VictimList(chosen)) && Distinct(VictimList(chosen))
    ensures |Victims(chosen)| == |chosen| == |VictimList(chosen)| && Known(nodes, node)
    ensures |chosen| == Stop(Once(ShortlistOf(jobs, s.blocked[0], node, gap)), s.blocked[0].mps, limit)
  {
    hide IsCandidate, IsBlocked, DistinctIds, ListsEligible, Unblocks, Known, Once, OnTop, Descending, DistinctVictims,
         VictimIds, Freed, ShortlistOf;
    var target := s.blocked[0];
    assert target in s.blocked && all != [];
    ShortlistIsEligible(jobs, nodes, gap, s, all, node);
    PickIsBest(all, chosen, target, node, jobs, gap, limit);
    RequeueUnblocks(nodes, node, Victims(chosen), target);
    ShortlistLists(jobs, target, node, gap);
    SameNeeded(all, ShortlistOf(jobs, target, node, gap), target, node, jobs, gap, target.mps);
  }

  lemma BlockedFitsNowhere(target: Job, jobs: seq<Job>, nodes: seq<Node>)
    requires IsBlocked(target, jobs, nodes)
    ensures !FitsAnywhere(target, nodes)
  {
  }

  // ----- The minimum set is not promised -----

  const HEAD := Job(0, Pending, 100, 50, [], 0.0, 0.0)
  const LEFT := Job(1, Running, 0, 30, [0], 0.0, 0.0)
  const RIGHT := Job(2, Running, 0, 30, [0], 0.0, 0.0)
  const THIRD := Job(3, Running, 0, 30, [0], 0.0, 0.0)
  const BIG := Job(4, Running, 0, 60, [1], 0.0, 0.0)

  /** A tick over fresh components. */
  method FirstTick(jobs: seq<Job>, nodes: seq<Node>) returns (r: Outcome, ghost target: Job, ghost victims: set<Job>)
    requires DistinctIds(jobs) && NoRepeats(jobs) && (exists c :: IsCandidate(c, jobs, nodes, 0))
    requires forall j :: IsBlocked(j, jobs, nodes) <==> j == HEAD
    requires exists v, n :: Known(nodes, n) && Eligible(v, HEAD, n, jobs, 0)
    ensures r.verdict.Requeue? && target == HEAD && |r.verdict.decision.victims| == |victims|
    ensures BestPick(victims, HEAD, r.verdict.decision.node, jobs, 0) && Known(nodes, r.verdict.decision.node)
    ensures |victims| == Stop(Once(ShortlistOf(jobs, HEAD, r.verdict.decision.node, 0)), 50, 4)
    ensures MostToGive(jobs, HEAD, 0, nodes, r.verdict.decision.node)
  {
    hide BestPick, FitsAnywhere, AfterRequeue, Worth, Stop, Once, ShortlistOf, MostToGive, HoldTogether, UnblocksWithin,
         FewestOverall, IsCandidate, IsBlocked, Known, Eligible, DistinctIds, NoRepeats;
    var detector := new Detector(0);
    var decider := new Decider(60.0, 5, 4);
    var reconciler := new Reconciler(detector, decider, false, (n: nat, id: nat) => true);
    r, target, victims := reconciler.Reconcile(jobs, nodes, 0.0);
  }

  /** A job of 50 slots waits for a node with 40 free and two jobs of 30 on it. Requeuing one of them would do;
      a tick requeues both. */
  method TwoWhereOneWouldDo() returns (r: Outcome, ghost victims: set<Job>)
    ensures r.verdict.Requeue? && |r.verdict.decision.victims| == |victims| == 2
    ensures FitsAnywhere(HEAD, AfterRequeue([Node(0, 40)], {LEFT}))
    ensures !FewestOverall(victims, HEAD, [HEAD, LEFT, RIGHT], [Node(0, 40)], 0)
  {
    hide BestPick, FitsAnywhere, AfterRequeue, Stop, Once, ShortlistOf, MostToGive, Known, DistinctIds, NoRepeats;
    var jobs, nodes := [HEAD, LEFT, RIGHT], [Node(0, 40)];
    OnlyHeadBlocked(jobs, nodes);
    ghost var target;
    r, target, victims := FirstTick(jobs, nodes);
    ghost var node := r.verdict.decision.node;
    SomeVictim(victims, HEAD, node, jobs, 0);
    TwoTaken(jobs, node);
    OneWouldDo(nodes, 0, LEFT);
    assert AllOutweighed({LEFT}, HEAD, jobs, 0);
  }

  /** A job of 50 slots waits. One node has 10 free and three jobs of 30 on it, the other a single job of 60.
      A tick goes for the first, which has more to give, and requeues two; the one on the other would do. */
  method OneElsewhereWouldDo() returns (r: Outcome, ghost victims: set<Job>)
    ensures r.verdict.Requeue? && r.verdict.decision.node == 0 && |r.verdict.decision.victims| == |victims| == 2
    ensures FitsAnywhere(HEAD, AfterRequeue([Node(0, 10), Node(1, 0)], {BIG}))
    ensures !FewestOverall(victims, HEAD, [HEAD, LEFT, RIGHT, THIRD, BIG], [Node(0, 10), Node(1, 0)], 0)
  {
    hide BestPick, FitsAnywhere, AfterRequeue, Stop, Once, ShortlistOf, MostToGive, Known, DistinctIds, NoRepeats;
    var jobs, nodes := [HEAD, LEFT, RIGHT, THIRD, BIG], [Node(0, 10), Node(1, 0)];
    OnlyHeadBlocked(jobs, nodes);
    ghost var target;
    r, target, victims := FirstTick(jobs, nodes);
    ghost var node := r.verdict.decision.node;
    SomeVictim(victims, HEAD, node, jobs, 0);
    MoreOnFirst(jobs, nodes, node);
    TwoTaken(jobs, node);
    OneWouldDo(nodes, 1, BIG);
    assert AllOutweighed({BIG}, HEAD, jobs, 0);
  }

  lemma SomeVictim(victims: set<Job>, target: Job, node: nat, jobs: seq<Job>, gap: int)
    requires BestPick(victims, target, node, jobs, gap)
    ensures exists v :: v in victims && Eligible(v, target, node, jobs, gap)
  {
    hide Eligible;
    var v :| v in victims;
  }

  lemma OnlyHeadBlocked(jobs: seq<Job>, nodes: seq<Node>)
    requires || (jobs == [HEAD, LEFT, RIGHT] && nodes == [Node(0, 40)])
             || (jobs == [HEAD, LEFT, RIGHT, THIRD, BIG] && nodes == [Node(0, 10), Node(1, 0)])
    ensures forall j :: IsBlocked(j, jobs, nodes) <==> j == HEAD
    ensures exists v, n :: Known(nodes, n) && Eligible(v, HEAD, n, jobs, 0)
    ensures exists c :: IsCandidate(c, jobs, nodes, 0)
    ensures DistinctIds(jobs) && NoRepeats(jobs)
  {
    assert jobs[0] == HEAD && jobs[1] == LEFT && nodes[0].id == 0;
    assert Known(nodes, 0) && Eligible(LEFT, HEAD, 0, jobs, 0);
    assert IsCandidate(Candidate(LEFT, HEAD, 0, 30), jobs, nodes, 0);
  }

  lemma OneWouldDo(nodes: seq<Node>, i: nat, one: Job)
    requires i < |nodes| && nodes[i].id in one.nodes && nodes[i].freeMps + one.mps >= 50
    ensures FitsAnywhere(HEAD, AfterRequeue(nodes, {one}))
  {
    WorthOfSingle(one);
    FitsOnNode(nodes, i, {one}, HEAD);
  }

  lemma WorthOfSingle(one: Job)
    ensures Worth({one}) == one.mps
  {
    WorthOfOne({}, one);
    NoWorth([]);
    assert {} + {one} == {one};
  }

  /** Two victims of 30 slots each are taken for a request of 50, if there are as many on the node. */
  lemma TwoTaken(jobs: seq<Job>, node: nat)
    requires jobs == [HEAD, LEFT, RIGHT] || jobs == [HEAD, LEFT, RIGHT, THIRD, BIG]
    requires node == 0 || jobs == [HEAD, LEFT, RIGHT]
    requires exists v :: Eligible(v, HEAD, node, jobs, 0)
    ensures Stop(Once(ShortlistOf(jobs, HEAD, node, 0)), 50, 4) == 2
  {
    hide Once, ShortlistOf, Outweighs, Stop;
    var all := ShortlistOf(jobs, HEAD, node, 0);
    ShortlistLists(jobs, HEAD, node, 0);
    assert node == 0;
    OnNodeZero(jobs);
    StopsAtTwo(all);
  }

  lemma OnNodeZero(jobs: seq<Job>)
    requires jobs == [HEAD, LEFT, RIGHT] || jobs == [HEAD, LEFT, RIGHT, THIRD, BIG]
    ensures Eligible(LEFT, HEAD, 0, jobs, 0) && Eligible(RIGHT, HEAD, 0, jobs, 0)
    ensures forall v :: Eligible(v, HEAD, 0, jobs, 0) ==> v.mps == 30
  {
    assert jobs[1] == LEFT && jobs[2] == RIGHT;
  }

  lemma StopsAtTwo(all: seq<Candidate>)
    requires {1, 2} <= VictimIds(all) && forall c :: c in all ==> c.slots == 30
    ensures Stop(Once(all), 50, 4) == 2
  {
    var once := Once(all);
    OnceListed(all);
    hide Once;
    var c :| c in once && c.victim.id == 1;
    var d :| d in once && d.victim.id == 2;
    assert |once| >= 2;
    assert once[..1] == [once[0]] && [once[0]][..0] == [] && once[0] in all;
    assert once[..2] == [once[0], once[1]] && [once[0], once[1]][..1] == [once[0]] && once[1] in all;
    assert Freed([once[0]]) == 30 && Freed([once[0], once[1]]) == 60;
  }

  lemma {:induction false} OnceListed(cs: seq<Candidate>)
    ensures forall c :: c in Once(cs) ==> c in cs
  {
    if cs != [] {
      OnceListed(cs[..|cs| - 1]);
    }
  }

  /** The first node has 90 slots to give, the second 60. */
  lemma MoreOnFirst(jobs: seq<Job>, nodes: seq<Node>, node: nat)
    requires jobs == [HEAD, LEFT, RIGHT, THIRD, BIG] && nodes == [Node(0, 10), Node(1, 0)]
    requires MostToGive(jobs, HEAD, 0, nodes, node) && Known(nodes, node)
    ensures node == 0
  {
    hide Worth;
    assert nodes[0].id == 0 && Known(nodes, 0);
    assert jobs[1] == LEFT && jobs[2] == RIGHT && jobs[3] == THIRD && jobs[4] == BIG;
    assert EligibleOn(jobs, HEAD, 0, 0) == {LEFT} + {RIGHT} + {THIRD};
    assert EligibleOn(jobs, HEAD, 1, 0) == {BIG};
    WorthOfSingle(BIG);
    WorthOfSingle(LEFT);
    WorthOfOne({LEFT}, RIGHT);
    WorthOfOne({LEFT} + {RIGHT}, THIRD);
  }

  // ----- A minimum interval that is not honoured -----

  /** Told to leave two hours between decisions, the decider makes the second one an hour and forty seconds after
      the first: it has forgotten the first. */
  method TooSoon() returns (first: Outcome, second: Outcome, ghost log: seq<real>)
    ensures first.verdict.Requeue? && second.verdict.Requeue?
    ensures log == [0.0, 3640.0]
  {
    hide BestPick, FitsAnywhere, AfterRequeue, Worth, Stop, Once, ShortlistOf, MostToGive, HoldTogether, UnblocksWithin,
         FewestOverall, IsCandidate, IsBlocked, Known, Eligible, DistinctIds, NoRepeats;
    var detector := new Detector(0);
    var decider := new Decider(7200.0, 5, 4);
    var reconciler := new Reconciler(detector, decider, false, (n: nat, id: nat) => true);
    var jobs, nodes := [HEAD, LEFT, RIGHT], [Node(0, 40)];
    OnlyHeadBlocked(jobs, nodes);
    ghost var t, v;
    first, t, v := reconciler.Reconcile(jobs, nodes, 0.0);
    assert Recent(decider.history, 40.0) == [] by {
      OldForgotten(decider.history, decider.log, decider.clock);
    }
    second, t, v := reconciler.Reconcile(jobs, nodes, 3640.0);
    log := decider.log;
  }

  lemma OldForgotten(history: seq<real>, log: seq<real>, clock: real)
    requires Remembers(history, log, clock) && log == [0.0]
    ensures Recent(history, 40.0) == []
  {
    assert history == [0.0] || history == [];
  }
}
