/** Ranking the pending queue with an untrusted policy that only ever sees the oldest sixteen jobs. */
module RankPending {
  import opened Wrappers
  import opened Sorting
  import opened Sums

  const TOP_K := 16

  datatype Job = Job(id: nat, submit: real, mps: nat, gpuType: Option<nat>, requiredNodes: set<nat>)

  datatype Node = Node(name: nat, freeMps: int, gpuType: nat, available: bool)

  /** The policy's answer, as far as it can be read at all. */
  datatype Act = Act(selected: Option<nat>, nodeJ: Option<int>, action: int)

  datatype Failure = DeadlineExceeded | PolicyUnavailable | NoFeasibleAction | UnknownNode(name: nat)

  type Free = map<nat, int>

  predicate SubmitLe(a: Job, b: Job) {
    a.submit <= b.submit
  }

  function OldestFirst(jobs: seq<Job>): seq<Job> {
    Sort(SubmitLe, jobs)
  }

  function Window(sorted: seq<Job>): seq<Job> {
    sorted[..if |sorted| < TOP_K then |sorted| else TOP_K]
  }

  ghost predicate DistinctIds(jobs: seq<Job>) {
    forall i, j :: 0 <= i < j < |jobs| ==> jobs[i].id != jobs[j].id
  }

  function Ids(jobs: seq<Job>): (r: seq<nat>)
    ensures |r| == |jobs| && forall i :: 0 <= i < |r| ==> r[i] == jobs[i].id
  {
    seq(|jobs|, i requires 0 <= i < |jobs| => jobs[i].id)
  }

  /** Nodes a job may run on at all. */
  predicate Allowed(job: Job, node: Node) {
    && node.available && (job.gpuType.None? || job.gpuType.value == node.gpuType)
    && (job.requiredNodes == {} || node.name in job.requiredNodes)
  }

  function FreeOf(node: Node, free: Free): int {
    if node.name in free then free[node.name] else node.freeMps
  }

  // ----- Taking a job out of the queue -----

  lemma {:induction false} InsertThenRemove(x: Job, jobs: seq<Job>)
    requires x !in jobs
    ensures Remove(Insert(SubmitLe, x, jobs), x) == jobs
  {
    if jobs != [] && !SubmitLe(x, jobs[0]) {
      InsertThenRemove(x, jobs[1..]);
    }
  }

  lemma {:induction false} RemoveInsertCommute(x: Job, y: Job, jobs: seq<Job>)
    requires x != y && SortedBy(SubmitLe, jobs)
    ensures Remove(Insert(SubmitLe, y, jobs), x) == Insert(SubmitLe, y, Remove(jobs, x))
  {
    if jobs != [] && !SubmitLe(y, jobs[0]) {
      RemoveInsertCommute(x, y, jobs[1..]);
    }
  }

  /** The sort is stable: taking a job out of the queue takes it out of the sorted queue, and leaves
      all others in the order they were. */
  lemma {:induction false} RemoveSorted(jobs: seq<Job>, job: Job)
    requires Distinct(jobs)
    ensures OldestFirst(Remove(jobs, job)) == Remove(OldestFirst(jobs), job)
  {
    if jobs != [] {
      var tail := jobs[1..];
      RemoveSorted(tail, job);
      if jobs[0] == job {
        PermutesElems(tail, OldestFirst(tail));
        InsertThenRemove(job, OldestFirst(tail));
      } else {
        RemoveInsertCommute(job, jobs[0], OldestFirst(tail));
      }
    }
  }

  // ----- How far a job can be bypassed -----

  /** The queue `now` is the queue `was` with at most n jobs taken out: every job has moved up by at most
      n places. */
  ghost predicate MovedUp(was: seq<Job>, now: seq<Job>, n: nat) {
    forall r :: 0 <= r < |now| ==> exists k :: r <= k <= r + n && k < |was| && was[k] == now[r]
  }

  lemma {:induction false} RemoveMovesUp(jobs: seq<Job>, job: Job, r: nat)
    requires r < |Remove(jobs, job)|
    ensures r < |jobs| && (Remove(jobs, job)[r] == jobs[r] || (r + 1 < |jobs| && Remove(jobs, job)[r] == jobs[r + 1]))
  {
    if jobs[0] != job && r > 0 {
      RemoveMovesUp(jobs[1..], job, r - 1);
    }
  }

  lemma MovesUpOnce(was: seq<Job>, now: seq<Job>, n: nat, job: Job)
    requires MovedUp(was, now, n)
    ensures MovedUp(was, Remove(now, job), n + 1)
  {
    var next := Remove(now, job);
    forall r | 0 <= r < |next|
      ensures exists k :: r <= k <= r + n + 1 && k < |was| && was[k] == next[r]
    {
      RemoveMovesUp(now, job, r);
      var at: nat := if next[r] == now[r] then r else r + 1;
      assert next[r] == now[at];
      var k :| at <= k <= at + n && k < |was| && was[k] == now[at];
    }
  }

  ghost predicate Within(queue: seq<Job>, bound: int, job: Job) {
    exists k :: 0 <= k <= bound && k < |queue| && queue[k] == job
  }

  /** The job at position i of the ranking was at most 15 places further back in the queue. */
  ghost predicate BoundedBypass(queue: seq<Job>, ranked: seq<Job>) {
    forall i :: 0 <= i < |ranked| ==> Within(queue, i + TOP_K - 1, ranked[i])
  }

  // ----- One pick -----

  /** The job is in the window, may run on the node, and fits what is left there. */
  predicate Fits(window: seq<Job>, nodes: seq<Node>, free: Free, job: Job, n: nat) {
    job in window && n < |nodes| && Allowed(job, nodes[n]) && FreeOf(nodes[n], free) >= job.mps
  }

  method PolicyPick(remaining: seq<Job>, window: seq<Job>, nodes: seq<Node>, free: Free, act: Act)
    returns (pick: Option<(Job, nat)>)
    ensures pick.Some? ==> Fits(window, nodes, free, pick.value.0, pick.value.1) && pick.value.0 in remaining
    ensures pick.Some? ==> act.selected == Some(pick.value.0.id) && act.nodeJ == Some(pick.value.1)
    ensures pick.None? ==> forall job :: job in remaining && act.selected == Some(job.id) && DistinctIds(remaining) ==>
              act.nodeJ.None? || act.nodeJ.value < 0 || !Fits(window, nodes, free, job, act.nodeJ.value)
  {
    pick := None;
    if act.selected.Some? && act.nodeJ.Some? && 0 <= act.nodeJ.value < |nodes| {
      for i := 0 to |remaining|
        invariant pick.None?
        invariant forall j :: 0 <= j < i && remaining[j].id == act.selected.value ==>
          !Fits(window, nodes, free, remaining[j], act.nodeJ.value)
      {
        if remaining[i].id == act.selected.value && Fits(window, nodes, free, remaining[i], act.nodeJ.value) {
          return Some((remaining[i], act.nodeJ.value));
        }
      }
    }
  }

  /** Without a usable answer: the oldest job in the window that fits, on the first node it fits. */
  method OldestFit(sorted: seq<Job>, nodes: seq<Node>, free: Free) returns (pick: Option<(Job, nat)>)
    ensures pick.Some? ==> FirstFit(Window(sorted), nodes, free, pick.value.0, pick.value.1)
    ensures pick.None? ==> forall job, n: nat :: job in Window(sorted) && n < |nodes| && Allowed(job, nodes[n]) ==>
              LeftOn(nodes[n], free) < job.mps
  {
    var window := Window(sorted);
    for i := 0 to |window|
      invariant forall k, n: nat :: 0 <= k < i && n < |nodes| && Allowed(window[k], nodes[n]) ==>
        LeftOn(nodes[n], free) < window[k].mps
    {
      for n := 0 to |nodes|
        invariant forall m: nat :: m < n && Allowed(window[i], nodes[m]) ==> LeftOn(nodes[m], free) < window[i].mps
      {
        if Allowed(window[i], nodes[n]) && LeftOn(nodes[n], free) >= window[i].mps {
          assert Fitting(window[i], nodes[n], free);
          return Some((window[i], n));
        }
      }
    }
    return None;
  }

  predicate Fitting(job: Job, node: Node, free: Free) {
    Allowed(job, node) && LeftOn(node, free) >= job.mps
  }

  /** The job fits the node, no job before it in the window fits anywhere, and it fits no earlier node. */
  ghost predicate FirstFit(window: seq<Job>, nodes: seq<Node>, free: Free, job: Job, n: nat) {
    && n < |nodes| && Fitting(job, nodes[n], free) && (forall m: nat :: m < n ==> !Fitting(job, nodes[m], free))
    && exists i :: 0 <= i < |window| && window[i] == job
         && forall k, m: nat :: 0 <= k < i && m < |nodes| ==> !Fitting(window[k], nodes[m], free)
  }

  function LeftOn(node: Node, free: Free): int {
    if node.name in free then free[node.name] else 0
  }

  // ----- The ranking -----

  /** MPS the first picks take on one node. */
  function Load(picks: seq<Job>, hosts: seq<nat>, name: nat): nat
    requires |picks| == |hosts|
  {
    if picks == [] then 0
    else
      var m := |picks| - 1;
      Load(picks[..m], hosts[..m], name) + if hosts[m] == name then picks[m].mps else 0
  }

  /** The jobs picked fit all at once: each on a node it may use, and no node lends more than it had. */
  ghost predicate Packed(nodes: seq<Node>, free: Free, picks: seq<Job>, hosts: seq<nat>) {
    && |picks| == |hosts|
    && (forall i :: 0 <= i < |picks| ==>
          hosts[i] in free && exists node :: node in nodes && node.name == hosts[i] && Allowed(picks[i], node))
    && (forall name :: name in free ==> Load(picks, hosts, name) <= free[name] || Load(picks, hosts, name) == 0)
  }

  ghost predicate Tracked(free: Free, left: Free, picks: seq<Job>, hosts: seq<nat>) {
    && |picks| == |hosts| && left.Keys == free.Keys
    && forall name :: name in free ==> left[name] == free[name] - Load(picks, hosts, name)
  }

  lemma TakeTracked(nodes: seq<Node>, free: Free, left: Free, picks: seq<Job>, hosts: seq<nat>, job: Job, n: nat)
    requires Tracked(free, left, picks, hosts) && Packed(nodes, free, picks, hosts)
    requires n < |nodes| && Allowed(job, nodes[n]) && nodes[n].name in free && left[nodes[n].name] >= job.mps
    ensures var left' := left[nodes[n].name := left[nodes[n].name] - job.mps];
      && Tracked(free, left', picks + [job], hosts + [nodes[n].name])
      && Packed(nodes, free, picks + [job], hosts + [nodes[n].name])
  {
    var host := nodes[n].name;
    assert (picks + [job])[..|picks|] == picks && (hosts + [host])[..|hosts|] == hosts;
  }

  /** Every pick was the policy's own answer, and if it stopped picking it said so. */
  ghost predicate FollowsPolicy(post: nat -> Option<Act>, nodes: seq<Node>, ranked: seq<Job>, picks: nat,
                                hosts: seq<nat>) {
    && picks <= |ranked| && AllChosen(post, nodes, ranked[..picks], hosts)
    && (picks < |ranked| ==> post(picks).Some? && DoesNothing(post(picks).value, |nodes|))
  }

  predicate DoesNothing(act: Act, nNodes: nat) {
    act.selected.None? && act.action == TOP_K * nNodes
  }

  ghost predicate AllChosen(post: nat -> Option<Act>, nodes: seq<Node>, picks: seq<Job>, hosts: seq<nat>) {
    |picks| == |hosts| && forall i: nat :: i < |picks| ==> Chose(post(i), nodes, picks[i], hosts[i])
  }

  lemma ChosenNext(post: nat -> Option<Act>, nodes: seq<Node>, picks: seq<Job>, hosts: seq<nat>, job: Job, host: nat)
    requires AllChosen(post, nodes, picks, hosts) && Chose(post(|picks|), nodes, job, host)
    ensures AllChosen(post, nodes, picks + [job], hosts + [host])
  {
  }

  /** The answer names the job and the node. */
  predicate Chose(answer: Option<Act>, nodes: seq<Node>, job: Job, host: nat) {
    && answer.Some? && answer.value.selected == Some(job.id) && answer.value.nodeJ.Some?
    && 0 <= answer.value.nodeJ.value < |nodes| && nodes[answer.value.nodeJ.value].name == host
  }

  // ----- When the ranking fails -----

  /** The queue without the jobs ranked so far ... */
  function Rest(pending: seq<Job>, ranked: seq<Job>): seq<Job> {
    if ranked == [] then pending else Remove(Rest(pending, ranked[..|ranked| - 1]), ranked[|ranked| - 1])
  }

  /** ... and what they have left free. */
  function Left(free: Free, ranked: seq<Job>, hosts: seq<nat>): Free
    requires |ranked| == |hosts|
  {
    map name | name in free :: free[name] - Load(ranked, hosts, name)
  }

  /** The answer names a waiting job of the window and a node it may use and fits, one that is accounted for. */
  ghost predicate Usable(answer: Act, pending: seq<Job>, free: Free, nodes: seq<Node>, ranked: seq<Job>,
                         hosts: seq<nat>)
    requires |ranked| == |hosts|
  {
    var rest := Rest(pending, ranked);
    exists job :: job in rest && answer.selected == Some(job.id) && answer.nodeJ.Some? && answer.nodeJ.value >= 0
      && Fits(Window(OldestFirst(rest)), nodes, Left(free, ranked, hosts), job, answer.nodeJ.value)
      && nodes[answer.nodeJ.value].name in free
  }

  /** A policy that, asked while jobs are waiting, always answers with a feasible choice or the no-op. */
  ghost predicate WellBehaved(post: nat -> Option<Act>, pending: seq<Job>, free: Free, nodes: seq<Node>) {
    forall ranked, hosts :: AllChosen(post, nodes, ranked, hosts) && Rest(pending, ranked) != [] ==>
      Answers(post, pending, free, nodes, ranked, hosts)
  }

  ghost predicate Answers(post: nat -> Option<Act>, pending: seq<Job>, free: Free, nodes: seq<Node>,
                          ranked: seq<Job>, hosts: seq<nat>)
    requires |ranked| == |hosts|
  {
    var answer := post(|ranked|);
    answer.Some? && (DoesNothing(answer.value, |nodes|) || Usable(answer.value, pending, free, nodes, ranked, hosts))
  }

  /** Why a ranking ends in an error, once it has ranked some jobs: the deadline has passed; in strict mode the
      policy does not answer, or not with anything feasible; or a node is not accounted for. */
  ghost predicate Fails(e: Failure, strict: bool, post: nat -> Option<Act>, late: nat -> bool, pending: seq<Job>,
                        free: Free, nodes: seq<Node>, ranked: seq<Job>, hosts: seq<nat>) {
    && |ranked| == |hosts| && Rest(pending, ranked) != []
    && match e
       case DeadlineExceeded => late(|ranked|)
       case PolicyUnavailable => strict && post(|ranked|).None?
       case NoFeasibleAction =>
         strict && post(|ranked|).Some? && !Answers(post, pending, free, nodes, ranked, hosts)
       case UnknownNode(name) =>
         && name !in free && (exists n :: n in nodes && n.name == name)
         && (strict ==> !Answers(post, pending, free, nodes, ranked, hosts))
  }

  lemma NotUsable(answer: Act, pending: seq<Job>, free: Free, nodes: seq<Node>, ranked: seq<Job>, hosts: seq<nat>)
    requires |ranked| == |hosts| && DistinctIds(Rest(pending, ranked))
    requires forall job :: job in Rest(pending, ranked) && answer.selected == Some(job.id) ==>
               answer.nodeJ.None? || answer.nodeJ.value < 0
               || !Fits(Window(OldestFirst(Rest(pending, ranked))), nodes, Left(free, ranked, hosts), job,
                        answer.nodeJ.value)
    ensures !Usable(answer, pending, free, nodes, ranked, hosts)
  {
    hide Fits, Left, OldestFirst;
  }

  /** A node that is not accounted for makes the choice useless. */
  lemma NotCounted(answer: Act, pending: seq<Job>, free: Free, nodes: seq<Node>, ranked: seq<Job>, hosts: seq<nat>)
    requires |ranked| == |hosts| && answer.selected.Some? && answer.nodeJ.Some?
    requires 0 <= answer.nodeJ.value < |nodes| && nodes[answer.nodeJ.value].name !in free
    ensures !Usable(answer, pending, free, nodes, ranked, hosts) && !DoesNothing(answer, |nodes|)
  {
    hide Rest, Left, OldestFirst;
  }

  lemma SilentPolicy(post: nat -> Option<Act>, late: nat -> bool, pending: seq<Job>, free: Free, nodes: seq<Node>,
                     ranked: seq<Job>, hosts: seq<nat>)
    requires |ranked| == |hosts| && post(|ranked|).None? && Rest(pending, ranked) != []
    requires AllChosen(post, nodes, ranked, hosts)
    ensures Fails(PolicyUnavailable, true, post, late, pending, free, nodes, ranked, hosts)
    ensures !WellBehaved(post, pending, free, nodes)
  {
    hide Rest, AllChosen, Usable;
    assert !Answers(post, pending, free, nodes, ranked, hosts);
  }

  lemma UselessAnswer(e: Failure, post: nat -> Option<Act>, late: nat -> bool, pending: seq<Job>, free: Free,
                      nodes: seq<Node>, ranked: seq<Job>, hosts: seq<nat>)
    requires |ranked| == |hosts| && post(|ranked|).Some? && Rest(pending, ranked) != []
    requires AllChosen(post, nodes, ranked, hosts) && !DoesNothing(post(|ranked|).value, |nodes|)
    requires !Usable(post(|ranked|).value, pending, free, nodes, ranked, hosts)
    requires e.NoFeasibleAction? || (e.UnknownNode? && e.name !in free && exists n :: n in nodes && n.name == e.name)
    ensures Fails(e, true, post, late, pending, free, nodes, ranked, hosts)
    ensures !WellBehaved(post, pending, free, nodes)
  {
    hide Rest, AllChosen, Usable, DoesNothing;
    assert !Answers(post, pending, free, nodes, ranked, hosts);
  }

  lemma RestNext(pending: seq<Job>, ranked: seq<Job>, job: Job)
    ensures Rest(pending, ranked + [job]) == Remove(Rest(pending, ranked), job)
  {
    assert (ranked + [job])[..|ranked|] == ranked;
  }

  /** Rank the queue. In strict mode every doubtful answer is an error; otherwise the oldest job that
      fits is taken instead. */
  method Rank(pending: seq<Job>, free: Free, nodes: seq<Node>, strict: bool, post: nat -> Option<Act>,
              late: nat -> bool)
    returns (r: Result<seq<nat>, Failure>, ghost ranked: seq<Job>, ghost picks: nat, ghost hosts: seq<nat>)
    requires DistinctIds(pending)
    ensures r.Ok? ==> Permutes(pending, ranked) && r.value == Ids(ranked)
    ensures r.Ok? ==> BoundedBypass(OldestFirst(pending), ranked)
    ensures r.Ok? ==> picks <= |ranked| && Packed(nodes, free, ranked[..picks], hosts)
    ensures r.Ok? && strict ==> FollowsPolicy(post, nodes, ranked, picks, hosts)
    ensures r.Err? ==> Fails(r.error, strict, post, late, pending, free, nodes, ranked, hosts)
    ensures r.Err? && strict ==> AllChosen(post, nodes, ranked, hosts)
    ensures strict && (forall k :: !late(k)) && WellBehaved(post, pending, free, nodes) ==> r.Ok?
    ensures !strict && (forall k :: !late(k)) && (forall n :: n in nodes ==> n.name in free) ==> r.Ok?
    ensures (forall n :: n in nodes ==> n.name in free) ==> !(r.Err? && r.error.UnknownNode?)
  {
    hide Ranking, Queued, Packed, BoundedBypass, DistinctIds, Ids, OldestFirst, Remove, Allowed, Permutes, AllChosen,
         DoesNothing, Rest, Usable, Answers, WellBehaved, Left, Window, MovedUp;
    var remaining, left, order: seq<nat> := pending, free, [];
    ranked, hosts, picks := [], [], 0;
    var round := 0;
    NothingRanked(pending, free, nodes, post);
    while remaining != []
      invariant |ranked| == |hosts| == picks == round && order == Ids(ranked)
      invariant strict ==> AllChosen(post, nodes, ranked, hosts)
      invariant Ranking(pending, free, nodes, ranked, hosts, remaining, left)
      decreases |remaining|
    {
      RankingParts(pending, free, nodes, ranked, hosts, remaining, left);
      if late(round) {
        return Err(DeadlineExceeded), ranked, picks, hosts;
      }
      var sorted := OldestFirst(remaining);
      var answer := post(round);
      round := round + 1;
      if answer.None? && strict {
        SilentPolicy(post, late, pending, free, nodes, ranked, hosts);
        return Err(PolicyUnavailable), ranked, picks, hosts;
      }
      var act := if answer.Some? then answer.value else Act(None, None, -1);
      var pick := NextPick(remaining, sorted, nodes, left, act, strict);
      if pick.None? {
        if strict && !DoesNothing(act, |nodes|) {
          NotUsable(act, pending, free, nodes, ranked, hosts);
          UselessAnswer(NoFeasibleAction, post, late, pending, free, nodes, ranked, hosts);
          return Err(NoFeasibleAction), ranked, picks, hosts;
        }
        AppendRest(pending, ranked, remaining);
        IdsConcat(ranked, sorted);
        assert (ranked + sorted)[..picks] == ranked;
        order := order + Ids(sorted);
        ranked := ranked + sorted;
        return Ok(order), ranked, picks, hosts;
      }
      var job, host := pick.value.0, nodes[pick.value.1].name;
      if host !in left {
        if strict {
          NotCounted(act, pending, free, nodes, ranked, hosts);
          UselessAnswer(UnknownNode(host), post, late, pending, free, nodes, ranked, hosts);
        }
        return Err(UnknownNode(host)), ranked, picks, hosts;
      }
      if strict {
        ChosenNext(post, nodes, ranked, hosts, job, host);
      }
      RankOneMore(pending, free, nodes, ranked, hosts, remaining, left, job, pick.value.1);
      order := order + [job.id];
      left := left[host := left[host] - job.mps];
      remaining := Remove(remaining, job);
      ranked, hosts, picks := ranked + [job], hosts + [host], picks + 1;
    }
    RankingParts(pending, free, nodes, ranked, hosts, remaining, left);
    AllRanked(pending, ranked);
    assert ranked[..picks] == ranked;
    return Ok(order), ranked, picks, hosts;
  }

  /** The job is in the window, and the node takes it as far as its slots are accounted for. */
  predicate Takes(window: seq<Job>, nodes: seq<Node>, free: Free, job: Job, n: nat) {
    job in window && n < |nodes| && Allowed(job, nodes[n]) && (nodes[n].name in free ==> free[nodes[n].name] >= job.mps)
  }

  /** The policy's pick, or else, unless it must be the policy's, the oldest that fits. */
  method NextPick(remaining: seq<Job>, sorted: seq<Job>, nodes: seq<Node>, free: Free, act: Act, strict: bool)
    returns (pick: Option<(Job, nat)>)
    ensures pick.Some? ==> Takes(Window(sorted), nodes, free, pick.value.0, pick.value.1)
    ensures pick.Some? && strict ==> act.selected == Some(pick.value.0.id) && act.nodeJ == Some(pick.value.1)
    ensures pick.None? && strict && DistinctIds(remaining) ==>
      forall job :: job in remaining && act.selected == Some(job.id) ==>
        act.nodeJ.None? || act.nodeJ.value < 0 || !Fits(Window(sorted), nodes, free, job, act.nodeJ.value)
    ensures pick.None? && !strict ==>
      forall job, n: nat :: job in Window(sorted) && n < |nodes| && Allowed(job, nodes[n]) ==>
        LeftOn(nodes[n], free) < job.mps
  {
    hide Allowed, DistinctIds, Window;
    pick := PolicyPick(remaining, Window(sorted), nodes, free, act);
    if pick.None? && !strict {
      pick := OldestFit(sorted, nodes, free);
    }
  }

  /** Between two picks. */
  ghost predicate Ranking(pending: seq<Job>, free: Free, nodes: seq<Node>, ranked: seq<Job>, hosts: seq<nat>,
                          remaining: seq<Job>, left: Free) {
    && Tracked(free, left, ranked, hosts) && Packed(nodes, free, ranked, hosts)
    && Queued(pending, ranked, remaining) && remaining == Rest(pending, ranked)
  }

  lemma RankingParts(pending: seq<Job>, free: Free, nodes: seq<Node>, ranked: seq<Job>, hosts: seq<nat>,
                     remaining: seq<Job>, left: Free)
    requires Ranking(pending, free, nodes, ranked, hosts, remaining, left)
    ensures |ranked| == |hosts| && Packed(nodes, free, ranked, hosts) && Queued(pending, ranked, remaining)
    ensures remaining == Rest(pending, ranked) && DistinctIds(remaining)
    ensures left == Left(free, ranked, hosts) && left.Keys == free.Keys
  {
    hide Packed, Rest, MovedUp, BoundedBypass, DistinctIds;
    assert left == Left(free, ranked, hosts);
  }

  lemma RankOneMore(pending: seq<Job>, free: Free, nodes: seq<Node>, ranked: seq<Job>, hosts: seq<nat>,
                    remaining: seq<Job>, left: Free, job: Job, n: nat)
    requires Ranking(pending, free, nodes, ranked, hosts, remaining, left)
    requires Takes(Window(OldestFirst(remaining)), nodes, left, job, n) && nodes[n].name in left
    ensures job in remaining && |Remove(remaining, job)| < |remaining|
    ensures var host := nodes[n].name;
      Ranking(pending, free, nodes, ranked + [job], hosts + [host], Remove(remaining, job),
              left[host := left[host] - job.mps])
    ensures Ids(ranked + [job]) == Ids(ranked) + [job.id]
  {
    RankingParts(pending, free, nodes, ranked, hosts, remaining, left);
    hide Queued, Packed, Tracked, OldestFirst, Remove, Rest, Window, Ids, Left;
    WindowOfRemaining(remaining, job);
    PickBound(pending, ranked, remaining, job);
    TakeTracked(nodes, free, left, ranked, hosts, job, n);
    RestNext(pending, ranked, job);
    IdsConcat(ranked, [job]);
    IdsOne(job);
    RemoveElems(remaining, job);
  }

  /** Between two picks: the jobs ranked and those remaining make up the queue, and neither has moved
      further than it may. */
  ghost predicate Queued(pending: seq<Job>, ranked: seq<Job>, remaining: seq<Job>) {
    && multiset(pending) == multiset(ranked) + multiset(remaining) && DistinctIds(remaining)
    && MovedUp(OldestFirst(pending), OldestFirst(remaining), |ranked|)
    && BoundedBypass(OldestFirst(pending), ranked)
  }

  lemma NothingRanked(pending: seq<Job>, free: Free, nodes: seq<Node>, post: nat -> Option<Act>)
    requires DistinctIds(pending)
    ensures Ranking(pending, free, nodes, [], [], pending, free) && Ids([]) == [] && AllChosen(post, nodes, [], [])
  {
    hide OldestFirst;
    Untaken(pending);
  }

  lemma AllRanked(pending: seq<Job>, ranked: seq<Job>)
    requires Queued(pending, ranked, [])
    ensures Permutes(pending, ranked) && BoundedBypass(OldestFirst(pending), ranked)
  {
    hide OldestFirst, BoundedBypass, MovedUp;
    assert multiset(pending) == multiset(ranked) + multiset{};
  }

  lemma IdsConcat(a: seq<Job>, b: seq<Job>)
    ensures Ids(a + b) == Ids(a) + Ids(b)
  {
  }

  lemma IdsOne(job: Job)
    ensures Ids([job]) == [job.id]
  {
  }

  lemma WindowOfRemaining(remaining: seq<Job>, job: Job)
    requires job in Window(OldestFirst(remaining))
    ensures job in remaining
  {
    PermutesElems(remaining, OldestFirst(remaining));
  }

  lemma Untaken(pending: seq<Job>)
    ensures MovedUp(OldestFirst(pending), OldestFirst(pending), 0)
  {
    var s := OldestFirst(pending);
    forall r | 0 <= r < |s|
      ensures exists k :: r <= k <= r && k < |s| && s[k] == s[r]
    {
      assert r <= r <= r && s[r] == s[r];
    }
  }

  lemma AppendRest(pending: seq<Job>, ranked: seq<Job>, remaining: seq<Job>)
    requires Queued(pending, ranked, remaining)
    ensures Permutes(pending, ranked + OldestFirst(remaining))
    ensures BoundedBypass(OldestFirst(pending), ranked + OldestFirst(remaining))
  {
    SortPermutes(remaining);
    hide OldestFirst;
    assert multiset(ranked + OldestFirst(remaining)) == multiset(ranked) + multiset(OldestFirst(remaining));
    BypassRest(OldestFirst(pending), ranked, OldestFirst(remaining));
  }

  lemma SortPermutes(jobs: seq<Job>)
    ensures multiset(OldestFirst(jobs)) == multiset(jobs)
  {
  }

  lemma BypassRest(queue: seq<Job>, ranked: seq<Job>, rest: seq<Job>)
    requires MovedUp(queue, rest, |ranked|) && BoundedBypass(queue, ranked)
    ensures BoundedBypass(queue, ranked + rest)
  {
    var all := ranked + rest;
    forall i | 0 <= i < |all|
      ensures Within(queue, i + TOP_K - 1, all[i])
    {
      if i < |ranked| {
        assert all[i] == ranked[i];
      } else {
        var r := i - |ranked|;
        assert all[i] == rest[r];
        var k :| r <= k <= r + |ranked| && k < |queue| && queue[k] == rest[r];
        assert queue[k] == all[i];
      }
    }
  }

  lemma PickBound(pending: seq<Job>, ranked: seq<Job>, remaining: seq<Job>, job: Job)
    requires Queued(pending, ranked, remaining) && job in Window(OldestFirst(remaining)) && job in remaining
    ensures Queued(pending, ranked + [job], Remove(remaining, job)) && |Remove(remaining, job)| == |remaining| - 1
  {
    hide OldestFirst, Remove, MovedUp, BoundedBypass, Window;
    RemoveElems(remaining, job);
    RemoveDistinct(remaining, job);
    RemoveSorted(remaining, job);
    MovesUpOnce(OldestFirst(pending), OldestFirst(remaining), |ranked|, job);
    BypassOne(OldestFirst(pending), ranked, OldestFirst(remaining), job);
  }

  lemma BypassOne(queue: seq<Job>, ranked: seq<Job>, rest: seq<Job>, job: Job)
    requires MovedUp(queue, rest, |ranked|) && BoundedBypass(queue, ranked) && job in Window(rest)
    ensures BoundedBypass(queue, ranked + [job])
  {
    var r :| 0 <= r < |Window(rest)| && Window(rest)[r] == job;
    var k :| r <= k <= r + |ranked| && k < |queue| && queue[k] == rest[r];
    var all := ranked + [job];
    forall i | 0 <= i < |all|
      ensures Within(queue, i + TOP_K - 1, all[i])
    {
      if i < |ranked| {
        assert all[i] == ranked[i];
      }
    }
  }

  lemma {:induction false} RemoveDistinct(jobs: seq<Job>, job: Job)
    requires DistinctIds(jobs)
    ensures DistinctIds(Remove(jobs, job)) && Distinct(jobs) && forall j :: j in Remove(jobs, job) ==> j in jobs
  {
    if jobs != [] && jobs[0] != job {
      RemoveDistinct(jobs[1..], job);
      var rest := Remove(jobs[1..], job);
      forall i | 0 <= i < |rest|
        ensures rest[i].id != jobs[0].id
      {
        assert rest[i] in jobs[1..];
      }
    }
  }
}
