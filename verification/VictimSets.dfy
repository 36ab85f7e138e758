/** What a requeue does to the cluster, and how few victims it can take: sets of jobs instead of lists of
    candidates. */
module VictimSets {
  import opened Wrappers
  import opened Sums
  import opened Sorting
  import opened Fragmentation

  /** Who may be requeued on a node for the sake of a target. */
  predicate Eligible(v: Job, target: Job, node: nat, jobs: seq<Job>, gap: int) {
    v in jobs && v.phase.Running? && node in v.nodes && Outweighs(target, v, gap)
  }

  /** MPS slots a set of jobs holds on each node it is on. */
  ghost function Worth(js: set<Job>): int {
    Sum(SlotsOf(js))
  }

  ghost function SlotsOf(js: set<Job>): map<Job, int> {
    map j | j in js :: j.mps
  }

  ghost function IdsOf(js: set<Job>): set<nat> {
    set j | j in js :: j.id
  }

  ghost predicate DistinctIds(jobs: seq<Job>) {
    forall i, j :: 0 <= i < j < |jobs| ==> jobs[i].id != jobs[j].id
  }

  /** The nodes once a set of jobs is gone: each has the slots of those that were on it back. */
  ghost function AfterRequeue(nodes: seq<Node>, gone: set<Job>): (after: seq<Node>)
    ensures |after| == |nodes|
  {
    seq(|nodes|, i requires 0 <= i < |nodes| =>
      nodes[i].(freeMps := nodes[i].freeMps + Worth(set j | j in gone && nodes[i].id in j.nodes)))
  }

  /** Every job that counts is on the shortlist, with what requeuing it frees. */
  ghost predicate Covers(all: seq<Candidate>, js: set<Job>) {
    && (forall j :: j in js ==> exists c :: c in all && c.victim == j && c.slots == j.mps)
    && forall j, k :: j in js && k in js && j != k ==> j.id != k.id
  }

  lemma {:induction false} WorthIsSum(all: seq<Candidate>, js: set<Job>)
    requires OneSizeEach(all) && Covers(all, js)
    ensures Worth(js) == Sum(Restrict(Sizes(all), IdsOf(js)))
    ensures |IdsOf(js)| == |js| && IdsOf(js) <= VictimIds(all)
    decreases js
  {
    hide OneSizeEach, Sizes, Sum, VictimIds, Worth, IdsOf, Restrict;
    if js == {} {
      NoWorth(all);
    } else {
      var j :| j in js;
      var rest := js - {j};
      var c :| c in all && c.victim == j && c.slots == j.mps;
      WorthIsSum(all, rest);
      SizeOf(all, c);
      SizeListed(all, c);
      WorthOfOne(rest, j);
      assert js == rest + {j};
      OneMoreId(js, j);
      SumRestrictAdd(Sizes(all), IdsOf(rest), j.id);
    }
  }

  lemma OneMoreId(js: set<Job>, j: Job)
    requires j in js && forall k :: k in js && k != j ==> k.id != j.id
    ensures IdsOf(js) == IdsOf(js - {j}) + {j.id} && j.id !in IdsOf(js - {j})
  {
    assert js == js - {j} + {j};
  }

  lemma NoWorth(all: seq<Candidate>)
    ensures Worth({}) == 0 && IdsOf({}) == {} && Sum(Restrict(Sizes(all), {})) == 0
  {
    assert Restrict(Sizes(all), {}) == map[];
    assert SlotsOf({}) == map[];
  }

  lemma SizeListed(all: seq<Candidate>, c: Candidate)
    requires c in all
    ensures c.victim.id in VictimIds(all)
  {
  }

  lemma WorthOfOne(js: set<Job>, j: Job)
    requires j !in js
    ensures Worth(js + {j}) == Worth(js) + j.mps
  {
    SumPut(SlotsOf(js), j, j.mps);
    assert SlotsOf(js + {j}) == SlotsOf(js)[j := j.mps];
  }

  ghost function Victims(chosen: seq<Candidate>): set<Job> {
    set c | c in chosen :: c.victim
  }

  // ----- What a snapshot's shortlist is about -----

  /** The shortlist of one target on one node lists exactly the eligible jobs, each with its slots. */
  ghost predicate ListsEligible(all: seq<Candidate>, target: Job, node: nat, jobs: seq<Job>, gap: int) {
    && (forall c :: c in all ==> Eligible(c.victim, target, node, jobs, gap) && c.slots == c.victim.mps)
    && forall v :: Eligible(v, target, node, jobs, gap) ==> exists c :: c in all && c.victim == v && c.slots == v.mps
  }

  lemma SameJob(jobs: seq<Job>, a: Job, b: Job)
    requires DistinctIds(jobs) && a in jobs && b in jobs && a.id == b.id
    ensures a == b
  {
  }

  lemma ShortlistIsEligible(jobs: seq<Job>, nodes: seq<Node>, gap: int, s: Snapshot, all: seq<Candidate>, node: nat)
    requires forall j :: j in s.blocked ==> IsBlocked(j, jobs, nodes)
    requires forall c :: c in s.candidates <==> IsCandidate(c, jobs, nodes, gap)
    requires s.blocked != [] && Shortlist(all, s, s.blocked[0].id, node) && all != [] && DistinctIds(jobs)
    ensures Known(nodes, node) && ListsEligible(all, s.blocked[0], node, jobs, gap)
  {
    hide FitsAnywhere, Outweighs, Known, DistinctIds;
    var target := s.blocked[0];
    assert IsBlocked(target, jobs, nodes);
    forall c | c in all
      ensures IsCandidate(c, jobs, nodes, gap) && c.target == target && c.node == node
    {
      assert c in s.candidates;
      SameJob(jobs, c.target, target);
    }
    assert all[0] in all;
    forall v | Eligible(v, target, node, jobs, gap)
      ensures exists c :: c in all && c.victim == v && c.slots == v.mps
    {
      assert Candidate(v, target, node, v.mps) in s.candidates;
    }
  }

  lemma EligibleFacts(all: seq<Candidate>, target: Job, node: nat, jobs: seq<Job>, gap: int, js: set<Job>)
    requires ListsEligible(all, target, node, jobs, gap) && DistinctIds(jobs)
    requires forall j :: j in js ==> Eligible(j, target, node, jobs, gap)
    ensures OneSizeEach(all) && Covers(all, js)
  {
    hide DistinctIds, Outweighs;
    forall c, d | c in all && d in all && c.victim.id == d.victim.id
      ensures c.slots == d.slots
    {
      SameJob(jobs, c.victim, d.victim);
    }
    forall j, k | j in js && k in js && j != k
      ensures j.id != k.id
    {
      if j.id == k.id {
        SameJob(jobs, j, k);
      }
    }
  }

  // ----- Whom a tick requeues, and what for -----

  /** The victims are eligible, in the order picked, and as few as can free the target's request; and as long
      as that is out of reach, no set of that size frees more. */
  ghost predicate BestPick(victims: set<Job>, target: Job, node: nat, jobs: seq<Job>, gap: int) {
    && victims != {} && (forall v :: v in victims ==> Eligible(v, target, node, jobs, gap))
    && forall rivals: set<Job> :: (forall v :: v in rivals ==> Eligible(v, target, node, jobs, gap)) ==>
         && (|rivals| < |victims| && target.mps > 0 ==> Worth(rivals) < target.mps)
         && (|rivals| <= |victims| ==> Worth(rivals) <= Worth(victims))
  }

  lemma PickIsBest(all: seq<Candidate>, chosen: seq<Candidate>, target: Job, node: nat, jobs: seq<Job>, gap: int,
                   limit: int)
    requires ListsEligible(all, target, node, jobs, gap) && DistinctIds(jobs) && chosen != []
    requires Picked(all, chosen, target.mps, limit)
    ensures BestPick(Victims(chosen), target, node, jobs, gap)
    ensures Worth(Victims(chosen)) == Freed(chosen) && |Victims(chosen)| == |chosen|
    ensures IdsOf(Victims(chosen)) == Elems(VictimList(chosen)) && Distinct(VictimList(chosen))
  {
    hide ListsEligible, DistinctIds, Sum, Sizes, Freed, OneSizeEach, Worth, Restrict, Eligible, Covers, Picked,
         VictimIds, Victims, IdsOf, VictimList;
    var victims := Victims(chosen);
    ChosenFacts(all, chosen, target, node, jobs, gap, limit);
    EligibleFacts(all, target, node, jobs, gap, victims);
    WorthIsSum(all, victims);
    PickedSum(all, chosen, target.mps, limit);
    forall rivals: set<Job> | forall v :: v in rivals ==> Eligible(v, target, node, jobs, gap)
      ensures |rivals| < |victims| && target.mps > 0 ==> Worth(rivals) < target.mps
      ensures |rivals| <= |victims| ==> Worth(rivals) <= Worth(victims)
    {
      EligibleFacts(all, target, node, jobs, gap, rivals);
      RivalsLose(all, chosen, target.mps, limit, rivals);
    }
  }

  lemma PickedSum(all: seq<Candidate>, chosen: seq<Candidate>, request: nat, limit: int)
    requires Picked(all, chosen, request, limit) && OneSizeEach(all)
    ensures VictimIds(chosen) <= VictimIds(all) && |VictimIds(chosen)| == |chosen|
    ensures Sum(Restrict(Sizes(all), VictimIds(chosen))) == Freed(chosen)
  {
    FreedIsSum(all, chosen);
  }

  lemma RivalsLose(all: seq<Candidate>, chosen: seq<Candidate>, request: nat, limit: int, rivals: set<Job>)
    requires Picked(all, chosen, request, limit) && OneSizeEach(all) && Covers(all, rivals)
    ensures |rivals| < |chosen| && request > 0 ==> Worth(rivals) < request
    ensures |rivals| <= |chosen| ==> Worth(rivals) <= Freed(chosen)
  {
    hide Sum, Sizes, Freed, OneSizeEach, Worth, Restrict, Covers, Picked, VictimIds, IdsOf;
    WorthIsSum(all, rivals);
    if |rivals| < |chosen| && request > 0 {
      FewestVictims(all, chosen, request, limit, IdsOf(rivals));
    }
    if |rivals| <= |chosen| {
      MostFreed(all, chosen, request, limit, IdsOf(rivals));
    }
  }

  lemma ChosenFacts(all: seq<Candidate>, chosen: seq<Candidate>, target: Job, node: nat, jobs: seq<Job>, gap: int,
                    limit: int)
    requires ListsEligible(all, target, node, jobs, gap) && Picked(all, chosen, target.mps, limit) && chosen != []
    ensures chosen[0].victim in Victims(chosen)
    ensures forall v :: v in Victims(chosen) ==> Eligible(v, target, node, jobs, gap)
    ensures IdsOf(Victims(chosen)) == VictimIds(chosen) == Elems(VictimList(chosen)) && Distinct(VictimList(chosen))
  {
    hide Outweighs, OnTop, Descending, Freed;
    assert chosen[0] in chosen;
    var ids := VictimList(chosen);
    forall x ensures x in VictimIds(chosen) <==> x in ids {
      if x in VictimIds(chosen) {
        var c :| c in chosen && c.victim.id == x;
        var i :| 0 <= i < |chosen| && chosen[i] == c;
        assert ids[i] == x;
      }
      if x in ids {
        var i :| 0 <= i < |ids| && ids[i] == x;
        assert chosen[i] in chosen;
      }
    }
    assert VictimIds(chosen) == Elems(ids);
    IdsOfVictims(chosen);
  }

  lemma IdsOfVictims(chosen: seq<Candidate>)
    ensures IdsOf(Victims(chosen)) == VictimIds(chosen)
  {
    forall x | x in VictimIds(chosen) ensures x in IdsOf(Victims(chosen)) {
      var c :| c in chosen && c.victim.id == x;
      assert c.victim in Victims(chosen);
    }
  }

  /** With the victims gone the target fits on their node exactly if they held what was missing there. */
  lemma FitsOnNode(nodes: seq<Node>, i: nat, victims: set<Job>, target: Job)
    requires i < |nodes| && forall v :: v in victims ==> nodes[i].id in v.nodes
    ensures AfterRequeue(nodes, victims)[i].freeMps >= target.mps <==> Worth(victims) >= target.mps - nodes[i].freeMps
    ensures Worth(victims) >= target.mps - nodes[i].freeMps ==> FitsAnywhere(target, AfterRequeue(nodes, victims))
  {
    hide Worth;
    assert (set j | j in victims && nodes[i].id in j.nodes) == victims;
    assert AfterRequeue(nodes, victims)[i] in AfterRequeue(nodes, victims);
  }

  /** The nodes of that name, with the victims gone: the target fits there if and only if they held what was
      missing, and it does if they held its whole request. */
  ghost predicate Unblocks(nodes: seq<Node>, node: nat, victims: set<Job>, target: Job) {
    && Known(nodes, node)
    && (forall i :: 0 <= i < |nodes| && nodes[i].id == node ==>
          (AfterRequeue(nodes, victims)[i].freeMps >= target.mps <==>
           Worth(victims) >= target.mps - nodes[i].freeMps))
    && (Worth(victims) >= target.mps && (forall n :: n in nodes ==> n.freeMps >= 0) ==>
          FitsAnywhere(target, AfterRequeue(nodes, victims)))
  }

  lemma RequeueUnblocks(nodes: seq<Node>, node: nat, victims: set<Job>, target: Job)
    requires Known(nodes, node) && forall v :: v in victims ==> node in v.nodes
    ensures Unblocks(nodes, node, victims, target)
  {
    hide Worth, FitsAnywhere, AfterRequeue;
    forall i | 0 <= i < |nodes| && nodes[i].id == node
      ensures AfterRequeue(nodes, victims)[i].freeMps >= target.mps <==>
              Worth(victims) >= target.mps - nodes[i].freeMps
      ensures Worth(victims) >= target.mps - nodes[i].freeMps ==> FitsAnywhere(target, AfterRequeue(nodes, victims))
    {
      FitsOnNode(nodes, i, victims, target);
    }
    var n :| n in nodes && n.id == node;
    var i :| 0 <= i < |nodes| && nodes[i] == n;
    assert nodes[i].id == node;
  }

  // ----- The fewest victims on a node -----

  ghost function EligibleOn(jobs: seq<Job>, target: Job, node: nat, gap: int): set<Job> {
    set v | v in jobs && Eligible(v, target, node, jobs, gap)
  }

  /** The eligible jobs of a node as candidates, largest first. */
  ghost function ShortlistOf(jobs: seq<Job>, target: Job, node: nat, gap: int): seq<Candidate> {
    Sort(LargestFirst, Listed(target, node, Where(jobs, (v: Job) => Eligible(v, target, node, jobs, gap))))
  }

  lemma ShortlistLists(jobs: seq<Job>, target: Job, node: nat, gap: int)
    ensures SortedBy(LargestFirst, ShortlistOf(jobs, target, node, gap))
    ensures ListsEligible(ShortlistOf(jobs, target, node, gap), target, node, jobs, gap)
  {
    hide Outweighs, TotalPreorder, SortedBy, LargestFirst, Eligible, Permutes;
    var who := Where(jobs, (v: Job) => Eligible(v, target, node, jobs, gap));
    var listed := Listed(target, node, who);
    LargestFirstOrders();
    PermutesElems(listed, Sort(LargestFirst, listed));
    forall v
      ensures v in who <==> Eligible(v, target, node, jobs, gap)
    {
      OneOfTheJobs(v, target, node, jobs, gap);
    }
    forall v | v in who
      ensures Candidate(v, target, node, v.mps) in listed
    {
    }
  }

  lemma OneOfTheJobs(v: Job, target: Job, node: nat, jobs: seq<Job>, gap: int)
    ensures Eligible(v, target, node, jobs, gap) ==> v in jobs
  {
  }

  /** The first victims of a sorted shortlist, as a set of jobs. */
  lemma FirstVictims(all: seq<Candidate>, target: Job, node: nat, jobs: seq<Job>, gap: int, k: nat)
    requires ListsEligible(all, target, node, jobs, gap) && SortedBy(LargestFirst, all) && DistinctIds(jobs)
    requires k <= |Once(all)|
    ensures forall v :: v in Victims(Once(all)[..k]) ==> Eligible(v, target, node, jobs, gap)
    ensures |Victims(Once(all)[..k])| == k && Worth(Victims(Once(all)[..k])) == Freed(Once(all)[..k])
  {
    hide DistinctIds, Sum, Sizes, Freed, OneSizeEach, Worth, Restrict, Covers, Once, IdsOf, VictimIds, SortedBy, Picked,
         Outweighs;
    var first := Once(all)[..k];
    OncePicked(all);
    PickedPart(all, Once(all), Freed(Once(all)) + 1, |Once(all)|, k);
    forall v | v in Victims(first)
      ensures Eligible(v, target, node, jobs, gap)
    {
      var c :| c in first && c.victim == v;
      assert c in all;
    }
    EligibleFacts(all, target, node, jobs, gap, Victims(first));
    FreedIsSum(all, first);
    WorthIsSum(all, Victims(first));
    IdsOfVictims(first);
  }

  lemma PickedPart(all: seq<Candidate>, chosen: seq<Candidate>, request: nat, limit: int, k: nat)
    requires Picked(all, chosen, request, limit) && k <= |chosen|
    ensures DistinctVictims(chosen[..k]) && forall c :: c in chosen[..k] ==> c in all
  {
    hide OnTop, Descending, Freed, VictimIds;
  }

  /** What the walk would take if it went on to the end. */
  lemma OncePicked(all: seq<Candidate>)
    requires SortedBy(LargestFirst, all)
    ensures Picked(all, Once(all), Freed(Once(all)) + 1, |Once(all)|)
    ensures |Once(all)| == |VictimIds(all)|
  {
    hide SortedBy, Once, Freed, VictimIds, OnTop, Descending;
    WalkAll(all, |all|);
    assert all[..|all|] == all;
    WalkDone(all, Once(all), |all|);
    ShortOfAll(Once(all));
    DistinctVictimCount(Once(all));
  }

  lemma {:induction false} WalkAll(all: seq<Candidate>, i: nat)
    requires SortedBy(LargestFirst, all) && i <= |all|
    ensures Walked(all, Once(all[..i]), i)
    decreases i
  {
    hide SortedBy, Walked, VictimIds;
    if i == 0 {
      WalkStarts(all);
    } else {
      WalkAll(all, i - 1);
      WalkOn(all, Once(all[..i - 1]), i - 1);
      assert all[..i][..i - 1] == all[..i - 1];
    }
  }

  lemma {:induction false} DistinctVictimCount(cs: seq<Candidate>)
    requires DistinctVictims(cs)
    ensures |VictimIds(cs)| == |cs|
  {
    hide VictimIds;
    if cs == [] {
      NoVictims([]);
    } else {
      DistinctVictimCount(cs[..|cs| - 1]);
      LastVictim(cs);
    }
  }

  /** No set of eligible jobs holds more than equally many of the largest. */
  lemma LargestHoldMost(all: seq<Candidate>, target: Job, node: nat, jobs: seq<Job>, gap: int, rivals: set<Job>)
    requires ListsEligible(all, target, node, jobs, gap) && SortedBy(LargestFirst, all) && DistinctIds(jobs)
    requires forall v :: v in rivals ==> Eligible(v, target, node, jobs, gap)
    ensures |rivals| <= |Once(all)| && Worth(rivals) <= Freed(Once(all)[..|rivals|])
  {
    hide DistinctIds, Sum, Sizes, Freed, OneSizeEach, Worth, Restrict, Covers, Once, IdsOf, VictimIds, SortedBy, Picked,
         Outweighs, ListsEligible;
    OncePicked(all);
    EligibleFacts(all, target, node, jobs, gap, rivals);
    WorthIsSum(all, rivals);
    SubsetCard(IdsOf(rivals), VictimIds(all));
    FirstAreBest(all, Once(all), Freed(Once(all)) + 1, |Once(all)|, |rivals|, IdsOf(rivals));
  }

  /** `Needed` means what it says: no fewer eligible jobs of the node hold that much, and so many do, if any. */
  lemma NeededMeans(all: seq<Candidate>, target: Job, node: nat, jobs: seq<Job>, gap: int, amount: int,
                    rivals: set<Job>)
    requires ListsEligible(all, target, node, jobs, gap) && SortedBy(LargestFirst, all) && DistinctIds(jobs)
    requires amount > 0 && (forall v :: v in rivals ==> Eligible(v, target, node, jobs, gap)) && Worth(rivals) >= amount
    ensures Needed(Once(all), amount) <= |Once(all)| && Needed(Once(all), amount) <= |rivals|
  {
    hide ListsEligible, DistinctIds, Worth, Once, SortedBy, Outweighs;
    LargestHoldMost(all, target, node, jobs, gap, rivals);
    NothingFreed();
    assert Once(all)[..0] == [];
  }

  lemma NeededNothing(cs: seq<Candidate>, amount: int)
    requires amount <= 0
    ensures Needed(cs, amount) == 1
  {
    if cs != [] {
      FreedGrows(cs, 1);
    }
  }

  /** Whatever sorted list of its eligible jobs a node is given, it takes as many of them. */
  lemma SameNeeded(one: seq<Candidate>, other: seq<Candidate>, target: Job, node: nat, jobs: seq<Job>, gap: int,
                   amount: int)
    requires ListsEligible(one, target, node, jobs, gap) && SortedBy(LargestFirst, one) && DistinctIds(jobs)
    requires ListsEligible(other, target, node, jobs, gap) && SortedBy(LargestFirst, other)
    ensures |Once(one)| == |Once(other)| && Needed(Once(one), amount) == Needed(Once(other), amount)
  {
    hide DistinctIds, Once, SortedBy, Outweighs, Worth, Freed, Picked, Victims;
    OncePicked(one);
    OncePicked(other);
    assert VictimIds(one) == VictimIds(other);
    if amount <= 0 {
      NeededNothing(Once(one), amount);
      NeededNothing(Once(other), amount);
    } else {
      NeededAtMost(one, other, target, node, jobs, gap, amount);
      NeededAtMost(other, one, target, node, jobs, gap, amount);
    }
  }

  lemma NeededAtMost(one: seq<Candidate>, other: seq<Candidate>, target: Job, node: nat, jobs: seq<Job>, gap: int,
                     amount: int)
    requires ListsEligible(one, target, node, jobs, gap) && SortedBy(LargestFirst, one) && DistinctIds(jobs)
    requires ListsEligible(other, target, node, jobs, gap) && SortedBy(LargestFirst, other) && amount > 0
    requires |Once(one)| == |Once(other)|
    ensures Needed(Once(one), amount) <= Needed(Once(other), amount)
  {
    hide ListsEligible, DistinctIds, Once, SortedBy, Outweighs, Worth, Freed, Victims;
    var k := Needed(Once(other), amount);
    if k <= |Once(other)| {
      FirstVictims(other, target, node, jobs, gap, k);
      NeededMeans(one, target, node, jobs, gap, amount, Victims(Once(other)[..k]));
    }
  }

  // ----- The fewest victims anywhere -----

  /** A running job that may give way to the target, wherever it runs. */
  predicate Outweighed(v: Job, target: Job, jobs: seq<Job>, gap: int) {
    v in jobs && v.phase.Running? && Outweighs(target, v, gap)
  }

  /** With the victims gone the target fits somewhere, and no smaller set of running jobs it outweighs, on whatever
      nodes, would do. */
  ghost predicate FewestOverall(victims: set<Job>, target: Job, jobs: seq<Job>, nodes: seq<Node>, gap: int) {
    && FitsAnywhere(target, AfterRequeue(nodes, victims))
    && forall rivals: set<Job> ::
         AllOutweighed(rivals, target, jobs, gap) && FitsAnywhere(target, AfterRequeue(nodes, rivals)) ==>
           |rivals| >= |victims|
  }

  ghost predicate AllOutweighed(js: set<Job>, target: Job, jobs: seq<Job>, gap: int) {
    forall v :: v in js ==> Outweighed(v, target, jobs, gap)
  }

  /** At most k of the largest eligible jobs of a node hold what is missing there. */
  ghost predicate UnblocksWithin(jobs: seq<Job>, target: Job, gap: int, n: Node, k: int) {
    var once := Once(ShortlistOf(jobs, target, n.id, gap));
    var need := Needed(once, target.mps - n.freeMps);
    need <= |once| && need <= k
  }

  /** On one of the nodes that all the victims are on, they hold what is missing. */
  ghost predicate HoldTogether(victims: set<Job>, target: Job, nodes: seq<Node>) {
    exists n :: n in nodes && AllOn(victims, n.id) && Worth(victims) >= target.mps - n.freeMps
  }

  predicate AllOn(victims: set<Job>, node: nat) {
    forall v :: v in victims ==> node in v.nodes
  }

  ghost function PartOn(gone: set<Job>, node: nat): set<Job> {
    set j | j in gone && node in j.nodes
  }

  lemma FitsMeans(nodes: seq<Node>, gone: set<Job>, target: Job)
    ensures FitsAnywhere(target, AfterRequeue(nodes, gone)) <==>
            exists n :: n in nodes && Worth(PartOn(gone, n.id)) >= target.mps - n.freeMps
  {
    hide Worth;
    var after := AfterRequeue(nodes, gone);
    forall i | 0 <= i < |nodes|
      ensures after[i].freeMps == nodes[i].freeMps + Worth(PartOn(gone, nodes[i].id)) && after[i] in after
    {
      assert (set j | j in gone && nodes[i].id in j.nodes) == PartOn(gone, nodes[i].id);
    }
    if n :| n in nodes && Worth(PartOn(gone, n.id)) >= target.mps - n.freeMps {
      var i :| 0 <= i < |nodes| && nodes[i] == n;
      assert after[i].freeMps >= target.mps;
    }
    if m :| m in after && m.freeMps >= target.mps {
      var i :| 0 <= i < |after| && after[i] == m;
      assert nodes[i] in nodes;
    }
  }

  /** Jobs that give way only help on one node at a time, and there the largest do as well. */
  lemma RivalsNeed(jobs: seq<Job>, target: Job, gap: int, nodes: seq<Node>, rivals: set<Job>) returns (n: Node)
    requires DistinctIds(jobs) && !FitsAnywhere(target, nodes)
    requires AllOutweighed(rivals, target, jobs, gap)
    requires FitsAnywhere(target, AfterRequeue(nodes, rivals))
    ensures n in nodes && UnblocksWithin(jobs, target, gap, n, |rivals|)
  {
    hide DistinctIds, Worth, Once, Outweighs, ShortlistOf, AfterRequeue, SortedBy, ListsEligible;
    FitsMeans(nodes, rivals, target);
    n :| n in nodes && Worth(PartOn(rivals, n.id)) >= target.mps - n.freeMps;
    ShortlistLists(jobs, target, n.id, gap);
    NeededMeans(ShortlistOf(jobs, target, n.id, gap), target, n.id, jobs, gap, target.mps - n.freeMps,
                PartOn(rivals, n.id));
    SubsetCard(PartOn(rivals, n.id), rivals);
  }

  /** ... and there they do. */
  lemma WithinUnblocks(jobs: seq<Job>, target: Job, gap: int, nodes: seq<Node>, n: Node, k: int)
    returns (rivals: set<Job>)
    requires DistinctIds(jobs) && n in nodes && UnblocksWithin(jobs, target, gap, n, k)
    ensures |rivals| <= k && (forall v :: v in rivals ==> Eligible(v, target, n.id, jobs, gap))
    ensures Worth(rivals) >= target.mps - n.freeMps && FitsAnywhere(target, AfterRequeue(nodes, rivals))
    ensures AllOutweighed(rivals, target, jobs, gap)
  {
    hide DistinctIds, Worth, Once, Outweighs, ShortlistOf, AfterRequeue, SortedBy, ListsEligible, Victims;
    var all := ShortlistOf(jobs, target, n.id, gap);
    ShortlistLists(jobs, target, n.id, gap);
    var need := Needed(Once(all), target.mps - n.freeMps);
    FirstVictims(all, target, n.id, jobs, gap, need);
    rivals := Victims(Once(all)[..need]);
    assert PartOn(rivals, n.id) == rivals;
    FitsMeans(nodes, rivals, target);
  }

  /** Is the pick the minimum that unblocks the target? Exactly if it holds what is missing on a node, all of it on
      that node, and no node gets by with fewer of its largest. */
  lemma FewestExactly(jobs: seq<Job>, target: Job, gap: int, nodes: seq<Node>, node: nat, victims: set<Job>)
    requires DistinctIds(jobs) && !FitsAnywhere(target, nodes) && BestPick(victims, target, node, jobs, gap)
    ensures FewestOverall(victims, target, jobs, nodes, gap) <==>
            && HoldTogether(victims, target, nodes)
            && forall n :: n in nodes ==> !UnblocksWithin(jobs, target, gap, n, |victims| - 1)
  {
    hide DistinctIds, Worth, UnblocksWithin, AfterRequeue, FitsAnywhere, Outweighs, FewestOverall;
    var fewest := HoldTogether(victims, target, nodes)
                  && forall n :: n in nodes ==> !UnblocksWithin(jobs, target, gap, n, |victims| - 1);
    if fewest {
      FewestIfNoNodeCheaper(jobs, target, gap, nodes, victims);
    }
    if FewestOverall(victims, target, jobs, nodes, gap) {
      NoNodeCheaperIfFewest(jobs, target, gap, nodes, victims);
    }
  }

  lemma FewestIfNoNodeCheaper(jobs: seq<Job>, target: Job, gap: int, nodes: seq<Node>, victims: set<Job>)
    requires DistinctIds(jobs) && !FitsAnywhere(target, nodes) && HoldTogether(victims, target, nodes)
    requires forall n :: n in nodes ==> !UnblocksWithin(jobs, target, gap, n, |victims| - 1)
    ensures FewestOverall(victims, target, jobs, nodes, gap)
  {
    hide DistinctIds, Worth, AfterRequeue, FitsAnywhere, Outweighed, Once, ShortlistOf;
    var n :| n in nodes && AllOn(victims, n.id) && Worth(victims) >= target.mps - n.freeMps;
    assert PartOn(victims, n.id) == victims;
    FitsMeans(nodes, victims, target);
    forall rivals: set<Job> |
      AllOutweighed(rivals, target, jobs, gap) && FitsAnywhere(target, AfterRequeue(nodes, rivals))
      ensures |rivals| >= |victims|
    {
      var m := RivalsNeed(jobs, target, gap, nodes, rivals);
    }
  }

  lemma NoNodeCheaperIfFewest(jobs: seq<Job>, target: Job, gap: int, nodes: seq<Node>, victims: set<Job>)
    requires DistinctIds(jobs) && FewestOverall(victims, target, jobs, nodes, gap)
    requires AllOutweighed(victims, target, jobs, gap)
    ensures HoldTogether(victims, target, nodes)
    ensures forall n :: n in nodes ==> !UnblocksWithin(jobs, target, gap, n, |victims| - 1)
  {
    hide DistinctIds, Worth, AfterRequeue, FitsAnywhere, Outweighs, UnblocksWithin;
    forall n | n in nodes
      ensures !UnblocksWithin(jobs, target, gap, n, |victims| - 1)
    {
      if UnblocksWithin(jobs, target, gap, n, |victims| - 1) {
        var rivals := WithinUnblocks(jobs, target, gap, nodes, n, |victims| - 1);
      }
    }
    FitsMeans(nodes, victims, target);
    var n :| n in nodes && Worth(PartOn(victims, n.id)) >= target.mps - n.freeMps;
    var part := PartOn(victims, n.id);
    assert PartOn(part, n.id) == part;
    FitsMeans(nodes, part, target);
    SubsetSameCard(part, victims);
  }

  /** No job runs on more than one node. */
  predicate OneNodeEach(jobs: seq<Job>) {
    forall j :: j in jobs ==> forall a, b :: a in j.nodes && b in j.nodes ==> a == b
  }

  /** With jobs on one node each it comes down to counting: as many of the largest as are taken are needed on the
      node of the pick, and on no node fewer. */
  lemma FewestByCount(jobs: seq<Job>, target: Job, gap: int, nodes: seq<Node>, node: nat, victims: set<Job>)
    requires DistinctIds(jobs) && !FitsAnywhere(target, nodes) && BestPick(victims, target, node, jobs, gap)
    requires OneNodeEach(jobs)
    ensures FewestOverall(victims, target, jobs, nodes, gap) <==>
            && (exists n :: n in nodes && n.id == node && UnblocksWithin(jobs, target, gap, n, |victims|))
            && forall n :: n in nodes ==> !UnblocksWithin(jobs, target, gap, n, |victims| - 1)
  {
    hide DistinctIds, Worth, UnblocksWithin, AfterRequeue, Outweighs, FewestOverall;
    FewestExactly(jobs, target, gap, nodes, node, victims);
    if HoldTogether(victims, target, nodes) {
      var n :| n in nodes && AllOn(victims, n.id) && Worth(victims) >= target.mps - n.freeMps;
      var v :| v in victims;
      assert n.id == node;
      HeldIsWithin(jobs, target, gap, nodes, n, victims);
    }
    if n :| n in nodes && n.id == node && UnblocksWithin(jobs, target, gap, n, |victims|) {
      var rivals := WithinUnblocks(jobs, target, gap, nodes, n, |victims|);
      assert Worth(rivals) <= Worth(victims);
      assert AllOn(victims, n.id);
    }
  }

  lemma HeldIsWithin(jobs: seq<Job>, target: Job, gap: int, nodes: seq<Node>, n: Node, victims: set<Job>)
    requires DistinctIds(jobs) && n in nodes && !FitsAnywhere(target, nodes)
    requires forall v :: v in victims ==> Eligible(v, target, n.id, jobs, gap)
    requires Worth(victims) >= target.mps - n.freeMps
    ensures UnblocksWithin(jobs, target, gap, n, |victims|)
  {
    hide DistinctIds, Worth, Once, Outweighs, ShortlistOf, SortedBy, ListsEligible;
    ShortlistLists(jobs, target, n.id, gap);
    NeededMeans(ShortlistOf(jobs, target, n.id, gap), target, n.id, jobs, gap, target.mps - n.freeMps, victims);
  }

  // ----- The node -----

  /** What a list of candidates frees on a node, each listed once, is what the jobs on it hold. */
  lemma {:induction false} SlotsAreWorth(cs: seq<Candidate>, target: Job, n: nat)
    requires Distinct(cs) && forall c :: c in cs ==> c.target == target && c.slots == c.victim.mps
    ensures SlotsOn(cs, n) == Worth(VictimsAt(cs, n))
  {
    hide Worth;
    if cs == [] {
      NoWorth([]);
      assert VictimsAt(cs, n) == {};
    } else {
      var m := |cs| - 1;
      var last := cs[m];
      assert cs == cs[..m] + [last] && last !in cs[..m];
      SlotsAreWorth(cs[..m], target, n);
      if last.node == n {
        assert VictimsAt(cs, n) == VictimsAt(cs[..m], n) + {last.victim};
        assert last.victim !in VictimsAt(cs[..m], n);
        WorthOfOne(VictimsAt(cs[..m], n), last.victim);
      } else {
        assert VictimsAt(cs, n) == VictimsAt(cs[..m], n);
      }
    }
  }

  ghost function VictimsAt(cs: seq<Candidate>, n: nat): set<Job> {
    set c | c in cs && c.node == n :: c.victim
  }

  lemma {:induction false} ForTargetDistinct(cs: seq<Candidate>, id: nat)
    requires Distinct(cs)
    ensures Distinct(ForTarget(cs, id))
  {
    if cs != [] {
      var m := |cs| - 1;
      ForTargetDistinct(cs[..m], id);
      assert cs[m] !in cs[..m];
      ConcatDistinct(ForTarget(cs[..m], id), if cs[m].target.id == id then [cs[m]] else []);
    }
  }

  /** The eligible jobs of no other known node hold more in all. */
  ghost predicate MostToGive(jobs: seq<Job>, target: Job, gap: int, nodes: seq<Node>, node: nat) {
    forall n :: Known(nodes, n) ==>
      Worth(EligibleOn(jobs, target, n, gap)) <= Worth(EligibleOn(jobs, target, node, gap))
  }

  lemma NodeHasMost(jobs: seq<Job>, nodes: seq<Node>, gap: int, s: Snapshot, node: nat)
    requires DistinctIds(jobs) && Distinct(s.candidates) && Known(nodes, node)
    requires forall j :: j in s.blocked ==> IsBlocked(j, jobs, nodes)
    requires forall c :: c in s.candidates <==> IsCandidate(c, jobs, nodes, gap)
    requires s.blocked != [] && FreesMost(ForTarget(s.candidates, s.blocked[0].id), node)
    ensures MostToGive(jobs, s.blocked[0], gap, nodes, node)
  {
    hide FitsAnywhere, Outweighs, Known, DistinctIds, Distinct, Worth;
    var target := s.blocked[0];
    var mine := ForTarget(s.candidates, target.id);
    assert IsBlocked(target, jobs, nodes);
    forall c | c in mine ensures IsCandidate(c, jobs, nodes, gap) && c.target == target {
      SameJob(jobs, c.target, target);
    }
    ForTargetDistinct(s.candidates, target.id);
    forall n | Known(nodes, n)
      ensures SlotsOn(mine, n) == Worth(EligibleOn(jobs, target, n, gap))
    {
      SlotsAreWorth(mine, target, n);
      EligibleListed(jobs, nodes, gap, s, n);
    }
  }

  lemma EligibleListed(jobs: seq<Job>, nodes: seq<Node>, gap: int, s: Snapshot, n: nat)
    requires DistinctIds(jobs) && Known(nodes, n) && s.blocked != [] && IsBlocked(s.blocked[0], jobs, nodes)
    requires forall c :: c in s.candidates <==> IsCandidate(c, jobs, nodes, gap)
    ensures VictimsAt(ForTarget(s.candidates, s.blocked[0].id), n) == EligibleOn(jobs, s.blocked[0], n, gap)
  {
    hide FitsAnywhere, Outweighs, Known, DistinctIds;
    var target := s.blocked[0];
    var mine := ForTarget(s.candidates, target.id);
    forall v | v in VictimsAt(mine, n)
      ensures v in EligibleOn(jobs, target, n, gap)
    {
      var c :| c in mine && c.node == n && c.victim == v;
      SameJob(jobs, c.target, target);
    }
    forall v | v in EligibleOn(jobs, target, n, gap)
      ensures v in VictimsAt(mine, n)
    {
      assert IsCandidate(Candidate(v, target, n, v.mps), jobs, nodes, gap);
      assert Candidate(v, target, n, v.mps) in mine;
    }
  }
}
