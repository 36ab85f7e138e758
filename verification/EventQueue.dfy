/** The deduplicating event queue of the operator, step by step: producers and the consumer interleave
    between the locked section and the queue operation. */
module EventQueue {
  import opened Sums
  import opened Sorting

  type Key = nat

  /** Where the consumer is: waiting for an item, holding one it has dequeued but not discarded, or past
      `get` and about to collect the cluster state (for one key, or for all after a timeout). */
  datatype Consumer = Waiting | Took(key: Key) | Collecting(keys: set<Key>)

  /** `putting` lists the keys of producers between the locked section and `q.put`. */
  datatype State = State(pending: set<Key>, queue: seq<Key>, putting: seq<Key>, consumer: Consumer)

  datatype Action =
    | Admit(key: Key)       // the locked section of `put`
    | Enqueue(at: nat)      // `q.put` by one of the producers under way
    | Dequeue               // `q.get`
    | TimeOut               // `q.get` finds nothing in time
    | Discard               // the locked section of `get`
    | Collect               // read the cluster state and reconcile

  const INITIAL := State({}, [], [], Waiting)

  predicate Enabled(s: State, a: Action) {
    match a
    case Admit(_) => true
    case Enqueue(at) => at < |s.putting|
    case Dequeue => s.consumer == Waiting && s.queue != []
    case TimeOut => s.consumer == Waiting && s.queue == []
    case Discard => s.consumer.Took?
    case Collect => s.consumer.Collecting?
  }

  function Apply(s: State, a: Action, all: set<Key>): State
    requires Enabled(s, a)
  {
    match a
    case Admit(key) =>
      if key in s.pending then s else s.(pending := s.pending + {key}, putting := s.putting + [key])
    case Enqueue(at) => s.(queue := s.queue + [s.putting[at]], putting := s.putting[..at] + s.putting[at + 1..])
    case Dequeue => s.(queue := s.queue[1..], consumer := Took(s.queue[0]))
    case TimeOut => s.(consumer := Collecting(all))
    case Discard => s.(pending := s.pending - {s.consumer.key}, consumer := Collecting({s.consumer.key}))
    case Collect => s.(consumer := Waiting)
  }

  /** The keys under way: with a producer, in the queue, or with the consumer. */
  ghost function Tokens(s: State): multiset<Key> {
    multiset(s.putting) + multiset(s.queue) + if s.consumer.Took? then multiset{s.consumer.key} else multiset{}
  }

  /** A key is pending iff exactly one token of it is under way, and otherwise none is. */
  ghost predicate OneTokenEach(s: State) {
    Tokens(s) == multiset(s.pending)
  }

  lemma AdmitKeeps(s: State, key: Key)
    requires OneTokenEach(s) && key !in s.pending
    ensures OneTokenEach(s.(pending := s.pending + {key}, putting := s.putting + [key]))
  {
    assert multiset(s.putting + [key]) == multiset(s.putting) + multiset{key};
    assert multiset(s.pending + {key}) == multiset(s.pending) + multiset{key};
  }

  lemma EnqueueKeeps(s: State, at: nat)
    requires OneTokenEach(s) && at < |s.putting|
    ensures OneTokenEach(s.(queue := s.queue + [s.putting[at]], putting := s.putting[..at] + s.putting[at + 1..]))
  {
    var key, rest := s.putting[at], s.putting[..at] + s.putting[at + 1..];
    assert multiset(s.putting) == multiset(rest) + multiset{key} by {
      assert s.putting == s.putting[..at] + [key] + s.putting[at + 1..];
    }
    assert multiset(s.queue + [key]) == multiset(s.queue) + multiset{key};
  }

  lemma DequeueKeeps(s: State)
    requires OneTokenEach(s) && s.queue != [] && !s.consumer.Took?
    ensures OneTokenEach(s.(queue := s.queue[1..], consumer := Took(s.queue[0])))
  {
    assert s.queue == [s.queue[0]] + s.queue[1..];
  }

  lemma DiscardKeeps(s: State)
    requires OneTokenEach(s) && s.consumer.Took?
    ensures OneTokenEach(s.(pending := s.pending - {s.consumer.key}, consumer := Collecting({s.consumer.key})))
  {
    var key := s.consumer.key;
    var s' := s.(pending := s.pending - {key}, consumer := Collecting({key}));
    assert key in Tokens(s);
    assert multiset(s.pending) == multiset(s'.pending) + multiset{key};
    assert Tokens(s) == Tokens(s') + multiset{key};
    forall k ensures Tokens(s')[k] == multiset(s'.pending)[k] {
      assert Tokens(s)[k] == multiset(s.pending)[k];
    }
  }

  lemma StepKeepsTokens(s: State, a: Action, all: set<Key>)
    requires OneTokenEach(s) && Enabled(s, a)
    ensures OneTokenEach(Apply(s, a, all))
  {
    match a
    case Admit(key) => if key !in s.pending { AdmitKeeps(s, key); }
    case Enqueue(at) => EnqueueKeeps(s, at);
    case Dequeue => DequeueKeeps(s);
    case Discard => DiscardKeeps(s);
    case TimeOut =>
    case Collect =>
  }

  lemma QueueHasNoDuplicates(s: State)
    requires OneTokenEach(s)
    ensures Distinct(s.queue) && Elems(s.queue) <= s.pending
  {
    forall k ensures multiset(s.queue)[k] <= 1 {
      assert multiset(s.queue)[k] <= Tokens(s)[k] == multiset(s.pending)[k];
    }
    DistinctCounts(s.queue);
    forall k | k in s.queue ensures k in s.pending {
      assert k in multiset(s.queue);
      assert k in Tokens(s);
    }
  }

  // ----- Interleavings -----

  ghost predicate Run(states: seq<State>, actions: seq<Action>, all: set<Key>) {
    && |states| == |actions| + 1 && states[0] == INITIAL
    && forall i :: 0 <= i < |actions| ==>
         Enabled(states[i], actions[i]) && states[i + 1] == Apply(states[i], actions[i], all)
  }

  lemma RunExtends(states: seq<State>, actions: seq<Action>, all: set<Key>, a: Action)
    requires Run(states, actions, all) && Enabled(states[|actions|], a)
    ensures Run(states + [Apply(states[|actions|], a, all)], actions + [a], all)
  {
  }

  lemma {:induction false} RunKeepsTokens(states: seq<State>, actions: seq<Action>, all: set<Key>, j: nat)
    requires Run(states, actions, all) && j < |states|
    ensures OneTokenEach(states[j])
  {
    if j > 0 {
      RunKeepsTokens(states, actions, all, j - 1);
      StepKeepsTokens(states[j - 1], actions[j - 1], all);
    }
  }

  /** The consumer discards the key in step k, and collects for it afterwards in step m. */
  predicate Served(states: seq<State>, actions: seq<Action>, key: Key, k: nat, m: nat) {
    && k < m < |actions| < |states| && actions[k] == Discard && states[k].consumer == Took(key)
    && actions[m] == Collect && states[m].consumer == Collecting({key})
  }

  lemma {:induction false} PendingUntilDiscard(states: seq<State>, actions: seq<Action>, all: set<Key>,
                                               key: Key, i: nat, j: nat)
    returns (k: nat)
    requires Run(states, actions, all) && i < j < |states| && actions[i] == Admit(key) && key !in states[j].pending
    ensures i < k < j && actions[k] == Discard && states[k].consumer == Took(key)
    decreases j - i
  {
    assert key in states[i + 1].pending;
    if key in states[j - 1].pending {
      k := j - 1;
    } else {
      k := PendingUntilDiscard(states, actions, all, key, i, j - 1);
    }
  }

  lemma {:induction false} CollectingUntilCollect(states: seq<State>, actions: seq<Action>, all: set<Key>,
                                                  key: Key, k: nat, j: nat)
    returns (m: nat)
    requires Run(states, actions, all) && k < j < |states| && states[k].consumer == Collecting({key})
    requires !states[j].consumer.Collecting?
    ensures k <= m < j && actions[m] == Collect && states[m].consumer == Collecting({key})
    decreases j - k
  {
    if actions[k] == Collect {
      m := k;
    } else {
      m := CollectingUntilCollect(states, actions, all, key, k + 1, j);
    }
  }

  /** No lost wake-up. A `put` either finds its key pending already or makes it so; whichever it was, by
      the time the key is no longer pending and the consumer is back for the next item, the consumer has
      discarded the key after that `put`, and collected the cluster state after that. */
  lemma NoLostWakeUp(states: seq<State>, actions: seq<Action>, all: set<Key>, key: Key, i: nat, j: nat)
    requires Run(states, actions, all) && i < j < |states| && actions[i] == Admit(key)
    requires key !in states[j].pending && states[j].consumer == Waiting
    ensures exists k: nat, m: nat :: i < k && m < j && Served(states, actions, key, k, m)
  {
    var k := PendingUntilDiscard(states, actions, all, key, i, j);
    assert states[k + 1].consumer == Collecting({key});
    var m := CollectingUntilCollect(states, actions, all, key, k + 1, j);
    assert Served(states, actions, key, k, m);
  }

  // ----- First in, first out -----

  /** How many items were dequeued in steps i up to, not including, j. */
  function Dequeued(actions: seq<Action>, i: nat, j: nat): nat
    requires i <= j <= |actions|
    decreases j
  {
    if i == j then 0 else Dequeued(actions, i, j - 1) + if actions[j - 1] == Dequeue then 1 else 0
  }

  lemma {:induction false} MovesUp(states: seq<State>, actions: seq<Action>, all: set<Key>, i: nat, j: nat, p: nat)
    requires Run(states, actions, all) && i <= j <= |actions| && p < |states[i].queue|
    requires Dequeued(actions, i, j) <= p
    ensures var d := Dequeued(actions, i, j); p - d < |states[j].queue| && states[j].queue[p - d] == states[i].queue[p]
    decreases j
  {
    if i < j {
      MovesUp(states, actions, all, i, j - 1, p);
      assert Enabled(states[j - 1], actions[j - 1]);
    }
  }

  /** An item with p others before it is the (p+1)-st to be dequeued from then on. */
  lemma FirstInFirstOut(states: seq<State>, actions: seq<Action>, all: set<Key>, i: nat, j: nat, p: nat)
    requires Run(states, actions, all) && i <= j < |actions| && p < |states[i].queue|
    requires actions[j] == Dequeue && Dequeued(actions, i, j) == p
    ensures states[j + 1].consumer == Took(states[i].queue[p])
  {
    MovesUp(states, actions, all, i, j, p);
    assert states[j + 1] == Apply(states[j], actions[j], all);
  }

  // ----- The queue object -----

  class PoolEventQueue {
    const all: set<Key>
    var pending: set<Key>
    var queue: seq<Key>
    var putting: seq<Key>
    var consumer: Consumer

    ghost function View(): State
      reads this
    {
      State(pending, queue, putting, consumer)
    }

    constructor (all: set<Key>)
      ensures View() == INITIAL && this.all == all
    {
      this.all := all;
      pending, queue, putting, consumer := {}, [], [], Waiting;
    }

    /** `put`, up to the end of its locked section. */
    method PutLocked(key: Key) returns (added: bool)
      modifies this
      ensures View() == Apply(old(View()), Admit(key), all)
      ensures added <==> key !in old(pending)
    {
      if key in pending {
        return false;
      }
      pending := pending + {key};
      putting := putting + [key];
      return true;
    }

    /** The rest of a `put` that was not refused. */
    method PutQueue(key: Key, at: nat)
      requires at < |putting| && putting[at] == key
      modifies this
      ensures View() == Apply(old(View()), Enqueue(at), all)
    {
      queue := queue + [key];
      putting := putting[..at] + putting[at + 1..];
    }

    /** `get`, until the item is off the queue. */
    method GetQueue() returns (key: Key)
      requires consumer == Waiting && queue != []
      modifies this
      ensures View() == Apply(old(View()), Dequeue, all) && consumer == Took(key)
    {
      key := queue[0];
      queue := queue[1..];
      consumer := Took(key);
    }

    /** The locked section of `get`. */
    method GetLocked(key: Key)
      requires consumer == Took(key)
      modifies this
      ensures View() == Apply(old(View()), Discard, all)
    {
      pending := pending - {key};
      consumer := Collecting({key});
    }

    /** Any schedule of producers and the consumer, steps that are not possible skipped: what happens is
        a run, and no key is ever under way twice. */
    method Interleave(schedule: seq<Action>) returns (ghost states: seq<State>, ghost actions: seq<Action>)
      requires View() == INITIAL
      modifies this
      ensures Run(states, actions, all) && states[|actions|] == View()
      ensures OneTokenEach(View())
    {
      states, actions := [View()], [];
      for n := 0 to |schedule|
        invariant Run(states, actions, all) && states[|actions|] == View()
      {
        ghost var before := View();
        var a := schedule[n];
        match a {
        case Admit(key) => var _ := PutLocked(key);
        case Enqueue(at) =>
          if at < |putting| { PutQueue(putting[at], at); }
        case Dequeue =>
          if consumer == Waiting && queue != [] { var _ := GetQueue(); }
        case TimeOut =>
          if consumer == Waiting && queue == [] { consumer := Collecting(all); }
        case Discard =>
          if consumer.Took? { GetLocked(consumer.key); }
        case Collect =>
          if consumer.Collecting? { consumer := Waiting; }
        }
        if Enabled(before, a) {
          RunExtends(states, actions, all, a);
          states, actions := states + [View()], actions + [a];
        }
      }
      RunKeepsTokens(states, actions, all, |actions|);
    }
  }
}
