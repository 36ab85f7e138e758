/** The fragmentation reconciler: which pending jobs fit nowhere, whom to requeue for the first of them,
    and how often that may happen. */
module Fragmentation {
  import opened Wrappers
  import opened Sums
  import opened Sorting

  datatype Phase = Pending | Running | Other

  datatype Job = Job(id: nat, phase: Phase, priority: int, mps: nat, nodes: seq<nat>, submit: real, runtime: real)

  datatype Node = Node(id: nat, freeMps: int)

  datatype Candidate = Candidate(victim: Job, target: Job, node: nat, slots: nat)

  datatype Snapshot = Snapshot(blocked: seq<Job>, candidates: seq<Candidate>)

  // ----- The detector -----

  predicate FitsAnywhere(job: Job, nodes: seq<Node>) {
    exists n :: n in nodes && n.freeMps >= job.mps
  }

  predicate Known(nodes: seq<Node>, id: nat) {
    exists n :: n in nodes && n.id == id
  }

  predicate Outweighs(target: Job, victim: Job, gap: int) {
    target.priority - victim.priority > gap
  }

  predicate IsBlocked(job: Job, jobs: seq<Job>, nodes: seq<Node>) {
    job in jobs && job.phase.Pending? && !FitsAnywhere(job, nodes)
  }

  /** A running job of lower priority, by more than the gap, on a known node. */
  predicate IsCandidate(c: Candidate, jobs: seq<Job>, nodes: seq<Node>, gap: int) {
    && IsBlocked(c.target, jobs, nodes)
    && c.victim in jobs && c.victim.phase.Running? && c.node in c.victim.nodes && Known(nodes, c.node)
    && Outweighs(c.target, c.victim, gap) && c.slots == c.victim.mps
  }

  predicate MoreUrgent(a: Job, b: Job) {
    || a.priority > b.priority
    || (a.priority == b.priority && (a.submit < b.submit || (a.submit == b.submit && a.id <= b.id)))
  }

  predicate LessValuable(a: Job, b: Job) {
    || a.priority < b.priority
    || (a.priority == b.priority && (a.runtime > b.runtime || (a.runtime == b.runtime && a.id <= b.id)))
  }

  function Where(jobs: seq<Job>, keep: Job -> bool): (r: seq<Job>)
    ensures forall j :: j in r <==> j in jobs && keep(j)
  {
    if jobs == [] then []
    else
      assert jobs == [jobs[0]] + jobs[1..];
      if keep(jobs[0]) then [jobs[0]] + Where(jobs[1..], keep) else Where(jobs[1..], keep)
  }

  lemma {:induction false} WhereDistinct(jobs: seq<Job>, keep: Job -> bool)
    requires Distinct(jobs)
    ensures Distinct(Where(jobs, keep))
  {
    if jobs != [] {
      WhereDistinct(jobs[1..], keep);
      assert jobs[0] !in jobs[1..];
    }
  }

  lemma ConcatDistinct<T>(xs: seq<T>, ys: seq<T>)
    requires Distinct(xs) && Distinct(ys) && forall x :: x in xs ==> x !in ys
    ensures Distinct(xs + ys)
  {
    var zs := xs + ys;
    forall i, j | 0 <= i < j < |zs|
      ensures zs[i] != zs[j]
    {
      if i < |xs| <= j {
        assert xs[i] in xs && ys[j - |xs|] in ys;
      }
    }
  }

  /** No job is listed twice, and none names a node twice. */
  ghost predicate NoRepeats(jobs: seq<Job>) {
    Distinct(jobs) && forall j :: j in jobs ==> Distinct(j.nodes)
  }

  type Grouping = map<nat, seq<Job>>

  ghost predicate GroupsDistinct(byNode: Grouping) {
    forall n :: n in byNode ==> Distinct(byNode[n])
  }

  ghost predicate InGroup(byNode: Grouping, v: Job, n: nat) {
    n in byNode && v in byNode[n]
  }

  /** Running jobs by the nodes they are on. */
  method GroupByNode(running: seq<Job>) returns (byNode: Grouping)
    ensures forall v, n :: InGroup(byNode, v, n) <==> v in running && n in v.nodes
    ensures NoRepeats(running) ==> GroupsDistinct(byNode)
  {
    hide InGroup, NoRepeats, GroupsDistinct;
    byNode := map[];
    NoGroups();
    for i := 0 to |running|
      invariant forall v, n :: InGroup(byNode, v, n) <==> v in running[..i] && n in v.nodes
      invariant NoRepeats(running) ==> GroupsDistinct(byNode)
    {
      var r := running[i];
      for k := 0 to |r.nodes|
        invariant forall v, n :: InGroup(byNode, v, n) <==>
          (v in running[..i] && n in v.nodes) || (v == r && n in r.nodes[..k])
        invariant NoRepeats(running) ==> GroupsDistinct(byNode)
      {
        AddToGroup(byNode, r, r.nodes[k]);
        if NoRepeats(running) {
          NewToGroup(running, i, k);
          GroupStaysDistinct(byNode, r, r.nodes[k]);
        }
        assert r.nodes[..k + 1] == r.nodes[..k] + [r.nodes[k]];
        ghost var before := byNode;
        byNode := Joined(byNode, r, r.nodes[k]);
        forall v, n
          ensures InGroup(byNode, v, n) <==> (v in running[..i] && n in v.nodes) || (v == r && n in r.nodes[..k + 1])
        {
          assert InGroup(byNode, v, n) <==> InGroup(before, v, n) || (v == r && n == r.nodes[k]);
        }
      }
      assert r.nodes[..|r.nodes|] == r.nodes && running[..i + 1] == running[..i] + [r];
    }
    assert running[..|running|] == running;
  }

  function Joined(byNode: Grouping, r: Job, n: nat): Grouping {
    byNode[n := (if n in byNode then byNode[n] else []) + [r]]
  }

  lemma NoGroups()
    ensures forall v, n :: !InGroup(map[], v, n)
    ensures GroupsDistinct(map[])
  {
  }

  lemma NewToGroup(running: seq<Job>, i: nat, k: nat)
    requires NoRepeats(running) && i < |running| && k < |running[i].nodes|
    ensures running[i] !in running[..i] && running[i].nodes[k] !in running[i].nodes[..k]
  {
    assert running[i] in running;
  }

  lemma GroupStaysDistinct(byNode: Grouping, r: Job, n: nat)
    requires GroupsDistinct(byNode) && !InGroup(byNode, r, n)
    ensures GroupsDistinct(Joined(byNode, r, n))
  {
    if n in byNode {
      ConcatDistinct(byNode[n], [r]);
    }
  }

  lemma AddToGroup(byNode: Grouping, r: Job, n: nat)
    ensures forall v, m :: InGroup(Joined(byNode, r, n), v, m) <==> InGroup(byNode, v, m) || (v == r && m == n)
  {
    var here := (if n in byNode then byNode[n] else []) + [r];
    var more := Joined(byNode, r, n);
    forall v, m
      ensures InGroup(more, v, m) <==> InGroup(byNode, v, m) || (v == r && m == n)
    {
      if m == n {
        assert more[m] == here;
        assert v in here <==> v == r || (n in byNode && v in byNode[n]);
      } else {
        assert m in more ==> more[m] == byNode[m];
      }
    }
  }

  /** The victims of one node, in order, as candidates for one target. */
  function Listed(target: Job, n: nat, victims: seq<Job>): (cs: seq<Candidate>)
    ensures |cs| == |victims|
    ensures forall k :: 0 <= k < |cs| ==> cs[k] == Candidate(victims[k], target, n, victims[k].mps)
    ensures forall c :: c in cs <==>
      c.target == target && c.node == n && c.victim in victims && c.slots == c.victim.mps
  {
    if victims == [] then []
    else
      var m := |victims| - 1;
      assert victims == victims[..m] + [victims[m]];
      Listed(target, n, victims[..m]) + [Candidate(victims[m], target, n, victims[m].mps)]
  }

  lemma ListedDistinct(target: Job, n: nat, victims: seq<Job>)
    requires Distinct(victims)
    ensures Distinct(Listed(target, n, victims))
  {
  }

  /** The candidates one target and one node give rise to. */
  predicate From(c: Candidate, target: Job, n: nat, occupants: seq<Job>, nodes: seq<Node>, gap: int) {
    && c.target == target && c.node == n && c.victim in occupants && Known(nodes, n)
    && Outweighs(target, c.victim, gap) && c.slots == c.victim.mps
  }

  class Detector {
    const gap: int

    constructor (gap: int)
      ensures this.gap == gap
    {
      this.gap := gap;
    }

    /** Blocked jobs, most urgent first; and exactly the victims that may be requeued for them. */
    method TakeSnapshot(jobs: seq<Job>, nodes: seq<Node>) returns (s: Snapshot)
      ensures forall j :: j in s.blocked <==> IsBlocked(j, jobs, nodes)
      ensures SortedBy(MoreUrgent, s.blocked)
      ensures Permutes(Where(jobs, (j: Job) => j.phase.Pending? && !FitsAnywhere(j, nodes)), s.blocked)
      ensures forall c :: c in s.candidates <==> IsCandidate(c, jobs, nodes, gap)
      ensures NoRepeats(jobs) ==> Distinct(s.candidates)
    {
      hide FitsAnywhere, Known, Outweighs, MoreUrgent, Distinct;
      var pending := Where(jobs, (j: Job) => j.phase.Pending? && !FitsAnywhere(j, nodes));
      var blocked := Sort(MoreUrgent, pending);
      MostUrgentOrders();
      PermutesElems(pending, blocked);
      if NoRepeats(jobs) {
        WhereDistinct(jobs, (j: Job) => j.phase.Pending? && !FitsAnywhere(j, nodes));
        PermutesDistinct(pending, blocked);
      }
      var candidates := AllVictims(blocked, jobs, nodes);
      s := Snapshot(blocked, candidates);
    }

    /** The victims for every blocked target, target by target. */
    method AllVictims(blocked: seq<Job>, jobs: seq<Job>, nodes: seq<Node>) returns (candidates: seq<Candidate>)
      requires forall j :: j in blocked <==> IsBlocked(j, jobs, nodes)
      ensures forall c :: c in candidates <==> IsCandidate(c, jobs, nodes, gap)
      ensures NoRepeats(jobs) && Distinct(blocked) ==> Distinct(candidates)
    {
      hide IsBlocked, Known, Outweighs, Distinct;
      if NoRepeats(jobs) {
        WhereDistinct(jobs, (j: Job) => j.phase.Running?);
      }
      var running := Where(jobs, (j: Job) => j.phase.Running?);
      var byNode := GroupByNode(running);
      candidates := [];
      NothingDistinct();
      for i := 0 to |blocked|
        invariant forall c :: c in candidates <==> IsCandidate(c, jobs, nodes, gap) && c.target in blocked[..i]
        invariant NoRepeats(jobs) && Distinct(blocked) ==> Distinct(candidates)
      {
        assert blocked[..i + 1] == blocked[..i] + [blocked[i]] && blocked[i] in blocked;
        var more := VictimsFor(blocked[i], running, byNode, jobs, nodes);
        if NoRepeats(jobs) && Distinct(blocked) {
          NotBefore(blocked, i);
          ConcatDistinct(candidates, more);
        }
        candidates := candidates + more;
      }
      assert blocked[..|blocked|] == blocked;
    }

    /** All victims for one blocked target, node by node. */
    method VictimsFor(target: Job, ghost running: seq<Job>, byNode: Grouping, ghost jobs: seq<Job>, nodes: seq<Node>)
      returns (found: seq<Candidate>)
      requires IsBlocked(target, jobs, nodes)
      requires forall v, n :: InGroup(byNode, v, n) <==> v in running && n in v.nodes
      requires forall v :: v in running <==> v in jobs && v.phase.Running?
      ensures forall c :: c in found <==> IsCandidate(c, jobs, nodes, gap) && c.target == target
      ensures GroupsDistinct(byNode) ==> Distinct(found)
    {
      hide FitsAnywhere, Known, Outweighs, Distinct;
      found := [];
      NothingDistinct();
      var ids := byNode.Keys;
      while ids != {}
        invariant ids <= byNode.Keys
        invariant forall c :: c in found <==>
          c.node in byNode && c.node !in ids && From(c, target, c.node, byNode[c.node], nodes, gap)
        invariant GroupsDistinct(byNode) ==> Distinct(found)
        decreases ids
      {
        var n :| n in ids;
        ids := ids - {n};
        var more := VictimsOn(target, n, byNode[n], nodes);
        if GroupsDistinct(byNode) {
          ConcatDistinct(found, more);
        }
        found := found + more;
      }
      forall c ensures c in found <==> IsCandidate(c, jobs, nodes, gap) && c.target == target {
        assert InGroup(byNode, c.victim, c.node) <==> c.victim in running && c.node in c.victim.nodes;
      }
    }

    /** One node's victims for one blocked target. That the target already fits there cannot be. */
    method VictimsOn(target: Job, n: nat, occupants: seq<Job>, nodes: seq<Node>) returns (more: seq<Candidate>)
      requires !FitsAnywhere(target, nodes)
      ensures forall c :: c in more <==> From(c, target, n, occupants, nodes, gap)
      ensures forall i, j :: 0 <= i < j < |more| ==> LessValuable(more[i].victim, more[j].victim)
      ensures Distinct(occupants) ==> Distinct(more)
    {
      hide Outweighs, LessValuable, Known, Distinct;
      more := [];
      NothingDistinct();
      var node := Find(nodes, n);
      if node.Some? {
        var deficit := target.mps - node.value.freeMps;
        assert deficit > 0;
        if deficit > 0 {
          var eligible := Where(occupants, (v: Job) => Outweighs(target, v, gap));
          var victims := Sort(LessValuable, eligible);
          more := AsCandidates(target, n, victims);
          VictimsListed(occupants, eligible, victims, target, n);
        }
      }
    }

    /** One candidate for each victim. */
    method AsCandidates(target: Job, n: nat, victims: seq<Job>) returns (more: seq<Candidate>)
      ensures more == Listed(target, n, victims)
    {
      more := [];
      for i := 0 to |victims|
        invariant more == Listed(target, n, victims[..i])
      {
        assert victims[..i + 1][..i] == victims[..i];
        more := more + [Candidate(victims[i], target, n, victims[i].mps)];
      }
      assert victims[..|victims|] == victims;
    }

    lemma VictimsListed(occupants: seq<Job>, eligible: seq<Job>, victims: seq<Job>, target: Job, n: nat)
      requires eligible == Where(occupants, (v: Job) => Outweighs(target, v, gap))
      requires victims == Sort(LessValuable, eligible)
      ensures forall v :: v in victims <==> v in occupants && Outweighs(target, v, gap)
      ensures SortedBy(LessValuable, victims)
      ensures Distinct(occupants) ==> Distinct(Listed(target, n, victims))
    {
      hide Outweighs, LessValuable, Distinct, SortedBy;
      LeastValuableOrders();
      PermutesElems(eligible, victims);
      if Distinct(occupants) {
        WhereDistinct(occupants, (v: Job) => Outweighs(target, v, gap));
        PermutesDistinct(eligible, victims);
        ListedDistinct(target, n, victims);
      }
    }
  }

  lemma NothingDistinct()
    ensures Distinct<Candidate>([])
  {
  }

  lemma NotBefore(blocked: seq<Job>, i: nat)
    requires Distinct(blocked) && i < |blocked|
    ensures blocked[i] !in blocked[..i]
  {
  }

  method Find(nodes: seq<Node>, id: nat) returns (r: Option<Node>)
    ensures r.Some? ==> r.value in nodes && r.value.id == id
    ensures r.Some? <==> Known(nodes, id)
  {
    r := None;
    for i := 0 to |nodes|
      invariant r.Some? ==> r.value in nodes && r.value.id == id
      invariant r.None? ==> forall k :: 0 <= k < i ==> nodes[k].id != id
    {
      if nodes[i].id == id {
        r := Some(nodes[i]);
      }
    }
  }

  // ----- The decider: whom to requeue -----

  function Freed(cs: seq<Candidate>): nat {
    if cs == [] then 0 else Freed(cs[..|cs| - 1]) + cs[|cs| - 1].slots
  }

  ghost function VictimIds(cs: seq<Candidate>): set<nat> {
    set c | c in cs :: c.victim.id
  }

  predicate LargestFirst(a: Candidate, b: Candidate) {
    a.slots > b.slots || (a.slots == b.slots && a.victim.priority <= b.victim.priority)
  }

  function Select(cs: seq<Candidate>, keep: Candidate -> bool): (r: seq<Candidate>)
    ensures forall c :: c in r <==> c in cs && keep(c)
    ensures SortedBy(LargestFirst, cs) ==> SortedBy(LargestFirst, r)
  {
    if cs == [] then []
    else
      assert cs == [cs[0]] + cs[1..];
      var rest := Select(cs[1..], keep);
      assert SortedBy(LargestFirst, cs) ==> SortedBy(LargestFirst, cs[1..]);
      assert forall c :: c in rest ==> c in cs[1..];
      assert SortedBy(LargestFirst, cs) ==> forall c :: c in rest ==> LargestFirst(cs[0], c);
      if keep(cs[0]) then [cs[0]] + rest else rest
  }

  /** Every victim is listed with what requeuing it frees. */
  ghost predicate OneSizeEach(cs: seq<Candidate>) {
    forall c, d :: c in cs && d in cs && c.victim.id == d.victim.id ==> c.slots == d.slots
  }

  /** What requeuing each victim frees. */
  ghost function Sizes(cs: seq<Candidate>): (m: map<nat, int>)
    ensures m.Keys == VictimIds(cs)
  {
    if cs == [] then map[]
    else
      assert cs == cs[..|cs| - 1] + [cs[|cs| - 1]];
      Sizes(cs[..|cs| - 1])[cs[|cs| - 1].victim.id := cs[|cs| - 1].slots]
  }

  lemma {:induction false} SizeOf(cs: seq<Candidate>, c: Candidate)
    requires OneSizeEach(cs) && c in cs
    ensures c.victim.id in Sizes(cs) && Sizes(cs)[c.victim.id] == c.slots
  {
    var m := |cs| - 1;
    assert cs == cs[..m] + [cs[m]];
    if c.victim.id != cs[m].victim.id {
      assert OneSizeEach(cs[..m]);
      SizeOf(cs[..m], c);
    }
  }

  ghost predicate DistinctVictims(cs: seq<Candidate>) {
    forall i, j :: 0 <= i < j < |cs| ==> cs[i].victim.id != cs[j].victim.id
  }

  /** What a list of distinct victims frees is the sum of their sizes. */
  lemma {:induction false} FreedIsSum(all: seq<Candidate>, cs: seq<Candidate>)
    requires OneSizeEach(all) && DistinctVictims(cs) && forall c :: c in cs ==> c in all
    ensures VictimIds(cs) <= VictimIds(all) && |VictimIds(cs)| == |cs|
    ensures Sum(Restrict(Sizes(all), VictimIds(cs))) == Freed(cs)
  {
    hide OneSizeEach, Sum, VictimIds, Sizes;
    if cs == [] {
      NoVictims(all);
    } else {
      var m := |cs| - 1;
      FreedIsSum(all, cs[..m]);
      SizeOf(all, cs[m]);
      LastVictim(cs);
      SumRestrictAdd(Sizes(all), VictimIds(cs[..m]), cs[m].victim.id);
    }
  }

  lemma NoVictims(all: seq<Candidate>)
    ensures VictimIds([]) == {} && Sum(Restrict(Sizes(all), {})) == 0
  {
    assert Restrict(Sizes(all), {}) == map[];
  }

  lemma LastVictim(cs: seq<Candidate>)
    requires cs != []
    ensures VictimIds(cs) == VictimIds(cs[..|cs| - 1]) + {cs[|cs| - 1].victim.id}
    ensures DistinctVictims(cs) ==> cs[|cs| - 1].victim.id !in VictimIds(cs[..|cs| - 1])
  {
    assert cs == cs[..|cs| - 1] + [cs[|cs| - 1]];
  }

  /** No victim passed over is larger than one taken. */
  ghost predicate OnTop(all: seq<Candidate>, chosen: seq<Candidate>) {
    forall c, k :: c in all && c.victim.id !in VictimIds(chosen) && 0 <= k < |chosen| ==> c.slots <= chosen[k].slots
  }

  ghost predicate Descending(chosen: seq<Candidate>) {
    forall i, j :: 0 <= i < j < |chosen| ==> chosen[j].slots <= chosen[i].slots
  }

  /** How the walk over the candidates of one node, largest first, ends: it took distinct victims off the
      top of the list, was still short of the request before the last one, and stopped because it had
      enough, had taken as many as it may, or had taken all. */
  ghost predicate Picked(all: seq<Candidate>, chosen: seq<Candidate>, request: nat, limit: int) {
    && DistinctVictims(chosen) && (forall c :: c in chosen ==> c in all)
    && OnTop(all, chosen) && Descending(chosen)
    && (chosen == [] <==> all == [])
    && (|chosen| > 1 ==> Freed(chosen[..|chosen| - 1]) < request && |chosen| <= limit)
    && (Freed(chosen) >= request || |chosen| >= limit || VictimIds(chosen) == VictimIds(all))
  }

  /** Halfway through the walk: the first i candidates have been seen, and none is taken twice. */
  ghost predicate Walked(all: seq<Candidate>, chosen: seq<Candidate>, i: nat) {
    && i <= |all| && VictimIds(chosen) == VictimIds(all[..i]) && (chosen == [] <==> i == 0)
    && chosen == Once(all[..i])
    && DistinctVictims(chosen) && Descending(chosen) && forall c :: c in chosen ==> c in all[..i]
  }

  /** Every victim once, at its first place in the list. */
  ghost function Once(cs: seq<Candidate>): (r: seq<Candidate>)
    ensures VictimIds(r) == VictimIds(cs)
  {
    if cs == [] then []
    else
      var m := |cs| - 1;
      var rest := Once(cs[..m]);
      LastVictim(cs);
      LastVictim(rest + [cs[m]]);
      assert (rest + [cs[m]])[..|rest|] == rest;
      if cs[m].victim.id in VictimIds(rest) then rest else rest + [cs[m]]
  }

  /** How many candidates, from the first on and at least one, it takes to free an amount; one more than there
      are if all of them are not enough. */
  function Needed(cs: seq<Candidate>, amount: int): (k: nat)
    ensures 1 <= k <= |cs| + 1 && (k <= |cs| ==> Freed(cs[..k]) >= amount)
    ensures forall i :: 1 <= i < k ==> Freed(cs[..i]) < amount
  {
    if cs == [] then 1
    else
      var m := |cs| - 1;
      var k := Needed(cs[..m], amount);
      assert cs[..m + 1] == cs;
      assert forall i :: 0 <= i <= m ==> cs[..m][..i] == cs[..i];
      if k <= m then k else if Freed(cs) >= amount then m + 1 else m + 2
  }

  /** Where the walk stops: when the request is reached, when no more may be taken, or at the end. */
  function Stop(cs: seq<Candidate>, request: nat, limit: int): (k: nat)
    ensures k <= |cs| && (k == 0 <==> cs == [])
  {
    var most := if 1 < limit < |cs| then limit else if limit <= 1 < |cs| then 1 else |cs|;
    if Needed(cs, request) < most then Needed(cs, request) else most
  }

  /** The victims the decider takes from a shortlist. */
  ghost function Taken(all: seq<Candidate>, request: nat, limit: int): seq<Candidate> {
    Once(all)[..Stop(Once(all), request, limit)]
  }

  method PickVictims(all: seq<Candidate>, request: nat, limit: int) returns (chosen: seq<Candidate>, freed: nat)
    requires SortedBy(LargestFirst, all)
    ensures Picked(all, chosen, request, limit) && freed == Freed(chosen)
    ensures chosen == Taken(all, request, limit)
  {
    hide Walked, VictimIds, OnTop, Descending, DistinctVictims, Taken, Once;
    chosen, freed := [], 0;
    var seen: set<nat> := {};
    var i := 0;
    WalkStarts(all);
    while i < |all|
      invariant i <= |all| && Walked(all, chosen, i) && seen == VictimIds(chosen) && freed == Freed(chosen)
      invariant chosen != [] ==> freed < request && |chosen| < limit
    {
      var c := all[i];
      WalkOn(all, chosen, i);
      i := i + 1;
      if c.victim.id !in seen {
        assert (chosen + [c])[..|chosen|] == chosen;
        chosen := chosen + [c];
        seen := seen + {c.victim.id};
        freed := freed + c.slots;
        if freed >= request || |chosen| >= limit {
          WalkDone(all, chosen, i);
          WalkTakes(all, chosen, i, request, limit);
          return;
        }
      }
    }
    WalkDone(all, chosen, i);
    ShortOfAll(chosen);
    WalkTakes(all, chosen, i, request, limit);
  }

  lemma {:induction false} OncePrefix(cs: seq<Candidate>, i: nat)
    requires i <= |cs|
    ensures Once(cs[..i]) <= Once(cs)
  {
    hide VictimIds;
    if i == |cs| {
      assert cs[..i] == cs;
    } else {
      OncePrefix(cs[..|cs| - 1], i);
      assert cs[..|cs| - 1][..i] == cs[..i];
    }
  }

  lemma {:induction false} FreedGrows(cs: seq<Candidate>, i: nat)
    requires i <= |cs|
    ensures Freed(cs[..i]) <= Freed(cs)
  {
    if i == |cs| {
      assert cs[..i] == cs;
    } else {
      FreedGrows(cs[..|cs| - 1], i);
      assert cs[..|cs| - 1][..i] == cs[..i];
    }
  }

  /** The walk has taken the first victims of the list, as many as `Stop` says. */
  lemma WalkTakes(all: seq<Candidate>, chosen: seq<Candidate>, i: nat, request: nat, limit: int)
    requires Walked(all, chosen, i)
    requires |chosen| > 1 ==> Freed(chosen[..|chosen| - 1]) < request && |chosen| <= limit
    requires Freed(chosen) >= request || |chosen| >= limit || i == |all|
    requires chosen == [] ==> all == []
    ensures chosen == Taken(all, request, limit)
  {
    hide VictimIds, DistinctVictims, Descending, Freed, Once;
    var once := Once(all);
    OncePrefix(all, i);
    assert i == |all| ==> all[..i] == all;
    assert chosen == once[..|chosen|];
    forall k | 1 <= k < |chosen|
      ensures Freed(once[..k]) < request
    {
      FreedGrows(chosen[..|chosen| - 1], k);
      assert chosen[..|chosen| - 1][..k] == once[..k];
    }
  }

  lemma ShortOfAll(chosen: seq<Candidate>)
    ensures chosen != [] ==> Freed(chosen[..|chosen| - 1]) <= Freed(chosen)
  {
  }

  lemma WalkStarts(all: seq<Candidate>)
    ensures Walked(all, [], 0) && VictimIds([]) == {}
  {
  }

  lemma WalkOn(all: seq<Candidate>, chosen: seq<Candidate>, i: nat)
    requires Walked(all, chosen, i) && i < |all| && SortedBy(LargestFirst, all)
    ensures VictimIds(chosen + [all[i]]) == VictimIds(chosen) + {all[i].victim.id}
    ensures Walked(all, if all[i].victim.id in VictimIds(chosen) then chosen else chosen + [all[i]], i + 1)
  {
    hide SortedBy, DistinctVictims, Descending, LargestFirst;
    var c := all[i];
    LastVictim(all[..i + 1]);
    assert all[..i + 1][..i] == all[..i];
    LastVictim(chosen + [c]);
    assert (chosen + [c])[..|chosen|] == chosen;
    TakenAreLarger(all, chosen, i);
    if c.victim.id !in VictimIds(chosen) {
      StillDistinct(chosen, c);
      StillDescending(chosen, c);
    }
    assert all[..i + 1] == all[..i] + [c];
  }

  lemma StillDistinct(chosen: seq<Candidate>, c: Candidate)
    requires DistinctVictims(chosen) && c.victim.id !in VictimIds(chosen)
    ensures DistinctVictims(chosen + [c])
  {
    forall k | 0 <= k < |chosen| ensures chosen[k].victim.id in VictimIds(chosen) {
      assert chosen[k] in chosen;
    }
  }

  lemma StillDescending(chosen: seq<Candidate>, c: Candidate)
    requires Descending(chosen) && forall k :: 0 <= k < |chosen| ==> c.slots <= chosen[k].slots
    ensures Descending(chosen + [c])
  {
  }

  lemma TakenAreLarger(all: seq<Candidate>, chosen: seq<Candidate>, i: nat)
    requires i <= |all| && SortedBy(LargestFirst, all) && forall c :: c in chosen ==> c in all[..i]
    ensures forall q, k :: i <= q < |all| && 0 <= k < |chosen| ==> all[q].slots <= chosen[k].slots
  {
    forall q, k | i <= q < |all| && 0 <= k < |chosen|
      ensures all[q].slots <= chosen[k].slots
    {
      assert chosen[k] in all[..i];
      var p :| 0 <= p < i && all[..i][p] == chosen[k];
      assert LargestFirst(all[p], all[q]);
    }
  }

  lemma WalkDone(all: seq<Candidate>, chosen: seq<Candidate>, i: nat)
    requires Walked(all, chosen, i) && SortedBy(LargestFirst, all)
    ensures DistinctVictims(chosen) && Descending(chosen) && OnTop(all, chosen)
    ensures forall c :: c in chosen ==> c in all
    ensures chosen == [] <==> i == 0
    ensures i == |all| ==> VictimIds(chosen) == VictimIds(all)
  {
    hide SortedBy, DistinctVictims, Descending, LargestFirst;
    TakenAreLarger(all, chosen, i);
    assert i == |all| ==> all[..i] == all;
    forall c, k | c in all && c.victim.id !in VictimIds(chosen) && 0 <= k < |chosen|
      ensures c.slots <= chosen[k].slots
    {
      var q :| 0 <= q < |all| && all[q] == c;
      SeenBefore(all, i, q);
    }
  }

  lemma SeenBefore(all: seq<Candidate>, i: nat, q: nat)
    requires i <= |all| && q < |all|
    ensures q < i ==> all[q].victim.id in VictimIds(all[..i])
  {
    if q < i {
      assert all[..i][q] == all[q];
    }
  }

  /** Fewest victims: no set of fewer eligible victims on the node frees as much as the target asks for. */
  lemma FewestVictims(all: seq<Candidate>, chosen: seq<Candidate>, request: nat, limit: int, others: set<nat>)
    requires Picked(all, chosen, request, limit) && OneSizeEach(all)
    requires others <= VictimIds(all) && |others| < |chosen| && request > 0
    ensures Sum(Restrict(Sizes(all), others)) < request
  {
    ShorterIsWorse(all, chosen, request, limit, others);
  }

  lemma ShorterIsWorse(all: seq<Candidate>, chosen: seq<Candidate>, request: nat, limit: int, others: set<nat>)
    requires Picked(all, chosen, request, limit) && OneSizeEach(all)
    requires others <= VictimIds(all) && |others| < |chosen|
    ensures Sum(Restrict(Sizes(all), others)) <= Freed(chosen[..|chosen| - 1])
  {
    FirstAreBest(all, chosen, request, limit, |chosen| - 1, others);
  }

  /** What is taken frees most: no set of eligible victims on the node that is no larger frees more, be it
      enough or not. */
  lemma MostFreed(all: seq<Candidate>, chosen: seq<Candidate>, request: nat, limit: int, others: set<nat>)
    requires Picked(all, chosen, request, limit) && OneSizeEach(all)
    requires others <= VictimIds(all) && |others| <= |chosen|
    ensures Sum(Restrict(Sizes(all), others)) <= Freed(chosen)
  {
    FirstAreBest(all, chosen, request, limit, |chosen|, others);
    assert chosen[..|chosen|] == chosen;
  }

  lemma FirstAreBest(all: seq<Candidate>, chosen: seq<Candidate>, request: nat, limit: int, k: nat, others: set<nat>)
    requires Picked(all, chosen, request, limit) && OneSizeEach(all) && k <= |chosen|
    requires others <= VictimIds(all) && |others| <= k
    ensures Sum(Restrict(Sizes(all), others)) <= Freed(chosen[..k])
  {
    hide Sum, Sizes, VictimIds, OneSizeEach, Freed;
    FreedIsSum(all, chosen[..k]);
    TopOfSizes(all, chosen, k);
    TopSetIsBest(Sizes(all), VictimIds(chosen[..k]), others);
  }

  lemma SizesOccur(all: seq<Candidate>, id: nat) returns (c: Candidate)
    requires OneSizeEach(all) && id in VictimIds(all)
    ensures c in all && c.victim.id == id && Sizes(all)[id] == c.slots
  {
    c :| c in all && c.victim.id == id;
    SizeOf(all, c);
  }

  lemma TopOfSizes(all: seq<Candidate>, chosen: seq<Candidate>, k: nat)
    requires OneSizeEach(all) && k <= |chosen| && forall c :: c in chosen ==> c in all
    requires OnTop(all, chosen) && Descending(chosen)
    ensures Outranks(Sizes(all), VictimIds(chosen[..k]))
    ensures forall id :: id in Sizes(all) ==> Sizes(all)[id] >= 0
  {
    hide OneSizeEach, Sizes, Sum;
    var f, top := Sizes(all), chosen[..k];
    forall id | id in f ensures f[id] >= 0 {
      var c := SizesOccur(all, id);
    }
    forall x, y | x in f && x !in VictimIds(top) && y in f && y in VictimIds(top)
      ensures f[x] <= f[y]
    {
      var c := SizesOccur(all, x);
      var d :| d in top && d.victim.id == y;
      var i :| 0 <= i < k && top[i] == d;
      SizeOf(all, d);
      if x in VictimIds(chosen) {
        var e :| e in chosen && e.victim.id == x;
        var j :| 0 <= j < |chosen| && chosen[j] == e;
        SeenBefore(chosen, k, j);
        SizeOf(all, e);
      }
    }
  }

  /** The pick unblocks the target on its node, and no smaller set of eligible victims there would. */
  ghost predicate FewestToUnblock(all: seq<Candidate>, chosen: seq<Candidate>, missing: int) {
    && Freed(chosen) >= missing
    && forall others :: others <= VictimIds(all) && Sum(Restrict(Sizes(all), others)) >= missing ==>
         |others| >= |chosen|
  }

  /** Is the pick a minimum for unblocking its node, too? What is missing there is the target's request less what
      is free there, and the walk goes on until the whole request is freed. So it is exactly when the number of
      largest victims that free what is missing is the number at which the walk stops: at the request, at the
      limit, or at the end of the list. */
  lemma MinimalToUnblock(all: seq<Candidate>, request: nat, limit: int, free: int)
    requires SortedBy(LargestFirst, all) && OneSizeEach(all) && free < request
    requires Picked(all, Taken(all, request, limit), request, limit)
    ensures FewestToUnblock(all, Taken(all, request, limit), request - free)
       <==> Needed(Once(all), request - free) == Stop(Once(all), request, limit)
  {
    hide Sum, Sizes, Picked, VictimIds, Freed, Once;
    var once, chosen, missing := Once(all), Taken(all, request, limit), request - free;
    var k := Needed(once, missing);
    if k == |chosen| {
      forall others: set<nat> | others <= VictimIds(all) && Sum(Restrict(Sizes(all), others)) >= missing
        ensures |others| >= |chosen|
      {
        if |others| < k {
          ShorterIsWorse(all, chosen, request, limit, others);
          assert chosen[..k - 1] == once[..k - 1];
          NothingFreed();
        }
      }
    } else if k < |chosen| {
      FewerFree(all, chosen, request, limit, k);
      assert chosen[..k] == once[..k];
    } else {
      assert chosen == once[..|chosen|];
      NothingFreed();
    }
  }

  lemma NothingFreed()
    ensures Freed([]) == 0
  {
  }

  lemma FewerFree(all: seq<Candidate>, chosen: seq<Candidate>, request: nat, limit: int, k: nat)
    requires Picked(all, chosen, request, limit) && OneSizeEach(all) && k < |chosen|
    ensures VictimIds(chosen[..k]) <= VictimIds(all) && |VictimIds(chosen[..k])| < |chosen|
    ensures Sum(Restrict(Sizes(all), VictimIds(chosen[..k]))) == Freed(chosen[..k])
  {
    FreedIsSum(all, chosen[..k]);
  }

  // ----- The decider: how often -----

  const WINDOW := 3600.0

  function Recent(history: seq<real>, cutoff: real): seq<real> {
    if history == [] then []
    else if history[0] >= cutoff then [history[0]] + Recent(history[1..], cutoff)
    else Recent(history[1..], cutoff)
  }

  /** The rate limit's answer to a history already trimmed. */
  predicate Limited(history: seq<real>, now: real, minInterval: real, maxPerHour: int) {
    (history != [] && now - history[|history| - 1] < minInterval) || |history| >= maxPerHour
  }

  ghost predicate Ascending(log: seq<real>) {
    forall i, j :: 0 <= i < j < |log| ==> log[i] <= log[j]
  }

  lemma {:induction false} AllRecent(log: seq<real>, cutoff: real)
    requires forall i :: 0 <= i < |log| ==> log[i] >= cutoff
    ensures Recent(log, cutoff) == log
  {
    if log != [] {
      AllRecent(log[1..], cutoff);
    }
  }

  lemma {:induction false} RecentIsSuffix(log: seq<real>, cutoff: real) returns (k: nat)
    requires Ascending(log)
    ensures k <= |log| && Recent(log, cutoff) == log[k..]
    ensures forall i :: 0 <= i < k ==> log[i] < cutoff
  {
    if log == [] {
      k := 0;
    } else if log[0] >= cutoff {
      k := 0;
      assert forall i :: 1 <= i < |log| ==> log[i] >= log[0];
      AllRecent(log, cutoff);
    } else {
      var m := RecentIsSuffix(log[1..], cutoff);
      k := m + 1;
      assert forall i :: 1 <= i < k ==> log[i] == log[1..][i - 1];
    }
  }

  /** The history is the part of the log that may still count at time `now`. */
  ghost predicate Remembers(history: seq<real>, log: seq<real>, now: real) {
    && |history| <= |log| && history == log[|log| - |history|..]
    && forall i :: 0 <= i < |log| - |history| ==> log[i] < now - WINDOW
  }

  /** Trimming forgets only what no later decision has to look at. */
  lemma TrimRemembers(history: seq<real>, log: seq<real>, was: real, now: real)
    requires Ascending(log) && Remembers(history, log, was) && was <= now
    ensures Remembers(Recent(history, now - WINDOW), log, now)
  {
    var k := |log| - |history|;
    assert Ascending(history);
    var m := RecentIsSuffix(history, now - WINDOW);
    assert log[k..][m..] == log[k + m..];
    forall i | 0 <= i < k + m
      ensures log[i] < now - WINDOW
    {
      if i >= k {
        assert log[i] == history[i - k];
      }
    }
  }

  /** Whatever decisions lie within one closed window, there are at most `max` of them. */
  ghost predicate AtMostPerWindow(log: seq<real>, max: int) {
    forall i, j :: 0 <= i <= j < |log| && log[j] - log[i] <= WINDOW ==> j - i + 1 <= max
  }

  /** Consecutive decisions are far enough apart, or further than the window. */
  ghost predicate Spaced(log: seq<real>, minInterval: real) {
    forall j :: 0 <= j < |log| - 1 ==> log[j + 1] - log[j] >= minInterval || log[j + 1] - log[j] > WINDOW
  }

  /** A decision after `last` that the limiter lets through now respects the minimum interval. */
  ghost predicate Honoured(last: real, now: real, minInterval: real, maxPerHour: int) {
    !Limited(Recent([last], now - WINDOW), now, minInterval, maxPerHour) ==> now - last >= minInterval
  }

  /** The minimum interval is honoured in every situation exactly when it is at most the window: the limiter
      forgets decisions older than that. */
  lemma SpacingExact(minInterval: real, maxPerHour: int)
    requires maxPerHour >= 1
    ensures (forall last: real, now: real :: last <= now ==> Honoured(last, now, minInterval, maxPerHour))
       <==> minInterval <= WINDOW
  {
    if minInterval > WINDOW {
      var now := (minInterval + WINDOW) / 2.0;
      assert Recent([0.0], now - WINDOW) == [];
      assert !Honoured(0.0, now, minInterval, maxPerHour);
    } else {
      forall last: real, now: real | last <= now
        ensures Honoured(last, now, minInterval, maxPerHour)
      {
        if last >= now - WINDOW {
          assert Recent([last], now - WINDOW) == [last];
        }
      }
    }
  }

  datatype Decision = Decision(victims: seq<nat>, target: nat, node: nat, at: real)

  datatype Verdict = NothingBlocked | RateLimited | NoCandidates | Requeue(decision: Decision)

  function SlotsOn(cs: seq<Candidate>, n: nat): nat {
    if cs == [] then 0
    else SlotsOn(cs[..|cs| - 1], n) + if cs[|cs| - 1].node == n then cs[|cs| - 1].slots else 0
  }

  /** The candidate list of one target on one node, largest first. */
  ghost predicate Shortlist(all: seq<Candidate>, s: Snapshot, target: nat, node: nat) {
    && SortedBy(LargestFirst, all)
    && forall c :: c in all <==> c in s.candidates && c.target.id == target && c.node == node
  }

  function ForTarget(cs: seq<Candidate>, id: nat): (r: seq<Candidate>)
    ensures forall c :: c in r <==> c in cs && c.target.id == id
  {
    if cs == [] then []
    else
      assert cs == cs[..|cs| - 1] + [cs[|cs| - 1]];
      ForTarget(cs[..|cs| - 1], id) + if cs[|cs| - 1].target.id == id then [cs[|cs| - 1]] else []
  }

  /** The node whose candidates free most in all. */
  method BestNode(cs: seq<Candidate>) returns (node: nat)
    requires cs != []
    ensures (exists c :: c in cs && c.node == node) && FreesMost(cs, node)
  {
    node := cs[0].node;
    for i := 0 to |cs|
      invariant (exists c :: c in cs && c.node == node)
      invariant forall k :: 0 <= k < i ==> SlotsOn(cs, cs[k].node) <= SlotsOn(cs, node)
    {
      if SlotsOn(cs, cs[i].node) > SlotsOn(cs, node) {
        node := cs[i].node;
      }
    }
    NoSlotsElsewhere(cs, node);
  }

  /** No other node's candidates free more in all. */
  ghost predicate FreesMost(cs: seq<Candidate>, node: nat) {
    forall n :: SlotsOn(cs, n) <= SlotsOn(cs, node)
  }

  function VictimList(chosen: seq<Candidate>): seq<nat> {
    seq(|chosen|, i requires 0 <= i < |chosen| => chosen[i].victim.id)
  }

  class Decider {
    const minInterval: real
    const maxPerHour: int
    const maxTargets: int
    var history: seq<real>
    ghost var log: seq<real>
    ghost var clock: real

    ghost predicate Valid()
      reads this
    {
      && Ascending(log) && (log != [] ==> log[|log| - 1] <= clock)
      && Remembers(history, log, clock)
      && AtMostPerWindow(log, maxPerHour) && Spaced(log, minInterval)
    }

    constructor (minInterval: real, maxPerHour: int, maxTargets: int)
      ensures Valid() && log == [] && clock == 0.0
      ensures this.minInterval == minInterval && this.maxPerHour == maxPerHour && this.maxTargets == maxTargets
    {
      this.minInterval, this.maxPerHour, this.maxTargets := minInterval, maxPerHour, maxTargets;
      history, log, clock := [], [], 0.0;
    }

    /** Forget old decisions, then see whether another one may be made now. */
    method RateLimit(now: real) returns (limited: bool)
      requires Valid() && now >= clock
      modifies this`history, this`clock
      ensures Valid() && clock == now && history == Recent(old(history), now - WINDOW)
      ensures limited == Limited(history, now, minInterval, maxPerHour)
    {
      hide Remembers, Recent, Spaced, AtMostPerWindow;
      TrimRemembers(history, log, clock, now);
      history := Recent(history, now - WINDOW);
      clock := now;
      limited := Limited(history, now, minInterval, maxPerHour);
    }

    /** Requeue for the most urgent blocked job: the fewest victims, on the node that frees most, whose
        slots add up to the job's request, as far as there are any and the limit allows. */
    method Decide(s: Snapshot, now: real) returns (v: Verdict, ghost all: seq<Candidate>, ghost chosen: seq<Candidate>)
      requires Valid() && now >= clock
      modifies this
      ensures Valid() && log == if v.Requeue? then old(log) + [now] else old(log)
      ensures clock == if v.NothingBlocked? then old(clock) else now
      ensures v.NothingBlocked? <==> s.blocked == [] || s.candidates == []
      ensures v.RateLimited? <==>
        !v.NothingBlocked? && Limited(Recent(old(history), now - WINDOW), now, minInterval, maxPerHour)
      ensures v.NoCandidates? ==> forall c :: c in s.candidates ==> c.target.id != s.blocked[0].id
      ensures v.Requeue? ==> s.blocked != [] && v.decision.target == s.blocked[0].id && v.decision.at == now
      ensures v.Requeue? ==> Shortlist(all, s, v.decision.target, v.decision.node)
      ensures v.Requeue? ==> Picked(all, chosen, s.blocked[0].mps, maxTargets) && chosen != []
      ensures v.Requeue? ==> chosen == Taken(all, s.blocked[0].mps, maxTargets)
      ensures v.Requeue? ==> v.decision.victims == VictimList(chosen)
      ensures v.Requeue? ==> FreesMost(ForTarget(s.candidates, v.decision.target), v.decision.node)
    {
      hide Picked, Shortlist, Remembers, Recent, Spaced, AtMostPerWindow, Ascending, Limited, FreesMost, Taken;
      all, chosen := [], [];
      if s.blocked == [] || s.candidates == [] {
        return NothingBlocked, all, chosen;
      }
      var limited := RateLimit(now);
      if limited {
        return RateLimited, all, chosen;
      }
      var target := s.blocked[0];
      if ForTarget(s.candidates, target.id) == [] {
        return NoCandidates, all, chosen;
      }
      var node, picks;
      node, picks, all := Choose(s, target);
      chosen := picks;
      DecisionKeeps(log, history, now, minInterval, maxPerHour);
      history := history + [now];
      log := log + [now];
      return Requeue(Decision(VictimList(picks), target.id, node, now)), all, chosen;
    }

    /** The victims for one target. */
    method Choose(s: Snapshot, target: Job) returns (node: nat, picks: seq<Candidate>, ghost all: seq<Candidate>)
      requires ForTarget(s.candidates, target.id) != []
      ensures Shortlist(all, s, target.id, node) && Picked(all, picks, target.mps, maxTargets) && picks != []
      ensures picks == Taken(all, target.mps, maxTargets)
      ensures FreesMost(ForTarget(s.candidates, target.id), node)
    {
      hide Picked, SortedBy, FreesMost, Taken;
      var mine := ForTarget(s.candidates, target.id);
      var sorted := Sort(LargestFirst, mine);
      LargestFirstOrders();
      PermutesElems(mine, sorted);
      node := BestNode(mine);
      var best := node;
      var onNode := Select(sorted, (c: Candidate) => c.node == best);
      var freed;
      picks, freed := PickVictims(onNode, target.mps, maxTargets);
      all := onNode;
      PickedSome(all, picks, target.mps, maxTargets);
    }
  }

  lemma MostUrgentOrders()
    ensures TotalPreorder(MoreUrgent)
  {
  }

  lemma LeastValuableOrders()
    ensures TotalPreorder(LessValuable)
  {
  }

  lemma LargestFirstOrders()
    ensures TotalPreorder(LargestFirst)
  {
  }

  lemma PickedSome(all: seq<Candidate>, chosen: seq<Candidate>, request: nat, limit: int)
    requires Picked(all, chosen, request, limit) && all != []
    ensures chosen != []
  {
  }

  lemma {:induction false} NoSlotsOn(cs: seq<Candidate>, n: nat)
    requires forall c :: c in cs ==> c.node != n
    ensures SlotsOn(cs, n) == 0
  {
    if cs != [] {
      NoSlotsOn(cs[..|cs| - 1], n);
      assert cs[|cs| - 1] in cs;
    }
  }

  lemma NoSlotsElsewhere(cs: seq<Candidate>, node: nat)
    requires forall c :: c in cs ==> SlotsOn(cs, c.node) <= SlotsOn(cs, node)
    ensures FreesMost(cs, node)
  {
    forall n ensures SlotsOn(cs, n) <= SlotsOn(cs, node) {
      if forall c :: c in cs ==> c.node != n {
        NoSlotsOn(cs, n);
      } else {
        var c :| c in cs && c.node == n;
      }
    }
  }

  /** A decision that is not rate limited keeps the log within its limits. */
  lemma DecisionKeeps(log: seq<real>, history: seq<real>, now: real, minInterval: real, maxPerHour: int)
    requires Ascending(log) && (log != [] ==> log[|log| - 1] <= now)
    requires Remembers(history, log, now)
    requires AtMostPerWindow(log, maxPerHour) && Spaced(log, minInterval)
    requires !Limited(history, now, minInterval, maxPerHour)
    ensures Ascending(log + [now]) && AtMostPerWindow(log + [now], maxPerHour) && Spaced(log + [now], minInterval)
    ensures Remembers(history + [now], log + [now], now)
  {
    hide AtMostPerWindow, Spaced, Ascending, Remembers;
    NextAscends(log, now);
    NextWithinWindow(log, history, now, maxPerHour);
    NextSpaced(log, history, now, minInterval);
    NextRemembered(log, history, now);
  }

  lemma NextAscends(log: seq<real>, now: real)
    requires Ascending(log) && (log != [] ==> log[|log| - 1] <= now)
    ensures Ascending(log + [now])
  {
    forall i | 0 <= i < |log|
      ensures log[i] <= now
    {
      assert log[i] <= log[|log| - 1];
    }
  }

  /** The decisions of the hour before this one are all remembered, and there is room for one more. */
  lemma NextWithinWindow(log: seq<real>, history: seq<real>, now: real, maxPerHour: int)
    requires AtMostPerWindow(log, maxPerHour) && Remembers(history, log, now) && |history| < maxPerHour
    ensures AtMostPerWindow(log + [now], maxPerHour)
  {
    var next := log + [now];
    forall i, j | 0 <= i <= j < |next| && next[j] - next[i] <= WINDOW
      ensures j - i + 1 <= maxPerHour
    {
      if j < |log| {
        assert next[i] == log[i] && next[j] == log[j];
      } else if i < |log| {
        assert next[i] == log[i] && next[j] == now;
        assert i >= |log| - |history|;
      }
    }
  }

  lemma NextSpaced(log: seq<real>, history: seq<real>, now: real, minInterval: real)
    requires Spaced(log, minInterval) && Remembers(history, log, now)
    requires history != [] ==> now - history[|history| - 1] >= minInterval
    ensures Spaced(log + [now], minInterval)
  {
    var next, n := log + [now], |log|;
    forall j | 0 <= j < n
      ensures next[j + 1] - next[j] >= minInterval || next[j + 1] - next[j] > WINDOW
    {
      assert next[j] == log[j];
      if j < n - 1 {
        assert next[j + 1] == log[j + 1];
      } else if history != [] {
        assert history[|history| - 1] == log[n - |history|..][|history| - 1];
      }
    }
  }

  lemma NextRemembered(log: seq<real>, history: seq<real>, now: real)
    requires Remembers(history, log, now)
    ensures Remembers(history + [now], log + [now], now)
  {
    var k := |log| - |history|;
    assert (log + [now])[k..] == log[k..] + [now];
  }

  /** Any window of an hour sees at most the permitted number of decisions, and consecutive ones keep the
      minimum interval if that is at most an hour. */
  lemma LogWithinLimits(log: seq<real>, minInterval: real, maxPerHour: int, from: real, hits: set<nat>)
    requires Ascending(log) && AtMostPerWindow(log, maxPerHour) && Spaced(log, minInterval)
    requires forall i :: i in hits ==> i < |log| && from <= log[i] <= from + WINDOW
    ensures |hits| <= if maxPerHour > 0 then maxPerHour else 0
    ensures minInterval <= WINDOW ==> forall j :: 0 <= j < |log| - 1 ==> log[j + 1] - log[j] >= minInterval
  {
    if hits != {} {
      var low, high := Ends(hits);
      assert log[high] - log[low] <= WINDOW;
      SpanBounds(hits, low, high);
    }
  }

  lemma {:induction false} Ends(s: set<nat>) returns (low: nat, high: nat)
    requires s != {}
    ensures low in s && high in s && low <= high && forall x :: x in s ==> low <= x <= high
    decreases s
  {
    var x :| x in s;
    var rest := s - {x};
    assert s == rest + {x};
    if rest == {} {
      low, high := x, x;
    } else {
      var a, b := Ends(rest);
      low, high := if x < a then x else a, if x > b then x else b;
    }
  }

  lemma {:induction false} SpanBounds(s: set<nat>, low: nat, high: nat)
    requires low <= high && forall x :: x in s ==> low <= x <= high
    ensures |s| <= high - low + 1
    decreases high - low
  {
    if low == high {
      SubsetCard(s, {low});
    } else {
      SpanBounds(s - {high}, low, high - 1);
    }
  }
}
