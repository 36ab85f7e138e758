/** What the operator did to one pool, as a log; a monitor that reads the log entry by entry; and
    what an accepted log means. */
module OperatorLog {
  import opened Wrappers

  datatype Entry =
    | StepBegins
    | ReadySeen(ready: int)                       // readiness observed while a scale-up was in flight
    | RolledBack(until: real)                     // replicas patched back after a timeout
    | BackoffOver(at: real)                       // the back-off was found to be over
    | UpPatch(target: int, at: real)              // patch to more replicas attempted
    | DrainsDropped                               // the set of draining nodes was forgotten
    | DrainTried(node: nat, at: real)             // DRAIN issued for a node, heard or not
    | IdleSeen(node: nat)                         // no CPU allocated on a node
    | KillTried(node: nat, at: real)              // told to cancel the jobs on a node and down it, heard or not
    | DownPatch(target: int, current: int, running: int, at: real)   // patch to fewer replicas attempted
    | Acted(at: real)                             // time of the last scale action recorded
    | Noted(at: real)                             // ... and written to its annotation
    | RetryNoted(until: real)                     // end of the back-off written to its annotation
    | RetryCleared                                // that annotation emptied
    | Crashed
    | Restarted(lastAct: real)
    | MarkerUnread                                // a start-up could not read the provisioning marker
    | ActionUnread                                // ... the note of the last action
    | RetryUnread                                 // ... the note of the back-off

  type Log = seq<Entry>

  /** What has to be remembered of a log to judge its next entry. */
  datatype Trail = Trail(open: Option<Up>, backoff: real, drains: map<nat, real>, cleared: set<nat>, lastAct: real,
                         noted: Option<real>, retry: real, unread: bool, settles: nat)

  datatype Up = Up(target: int, at: real)

  const FRESH := Trail(None, 0.0, map[], {}, 0.0, None, 0.0, false, 0)

  function After(t: Trail, e: Entry): Trail {
    match e
    case StepBegins => t.(cleared := {})
    case ReadySeen(r) =>
      t.(open := if t.open.Some? && r >= t.open.value.target then None else t.open,
         backoff := 0.0, settles := t.settles + 1)
    case RolledBack(until) => t.(open := None, backoff := until, settles := t.settles + 1)
    case BackoffOver(_) => t.(backoff := 0.0)
    case UpPatch(target, at) => t.(open := Some(Up(target, at)), backoff := 0.0)
    case DrainsDropped => t.(drains := map[])
    case DrainTried(n, at) => t.(drains := t.drains[n := at])
    case IdleSeen(n) => t.(cleared := t.cleared + {n})
    case KillTried(n, _) => t.(cleared := t.cleared + {n})
    case DownPatch(_, _, _, _) => t
    case Acted(at) => t.(lastAct := at)
    case Noted(at) => t.(noted := Some(at))
    case RetryNoted(until) => t.(retry := until)
    case RetryCleared => t.(retry := 0.0)
    case Crashed => t.(drains := map[], cleared := {}, backoff := t.retry, unread := false)
    case Restarted(last) => t.(lastAct := last, unread := false)
    case MarkerUnread => t.(open := None)
    case ActionUnread => t.(unread := true)
    case RetryUnread => t.(backoff := 0.0)
  }

  /** The monitor's verdict on one entry: a scale-up finds none in flight and no back-off pending; a
      scale-down finds no running jobs, the cooldown over, and every node it removes drained and then
      seen idle or killed in the same step; nobody is killed before the drain has timed out; notes are of
      what is the case; and whoever restarts knows of the last noted action, unless the note could not be
      read, and of an open scale-up. */
  predicate Allowed(cooldown: real, drainTimeout: real, t: Trail, e: Entry) {
    match e
    case UpPatch(_, at) => t.open.None? && at >= t.backoff
    case BackoffOver(at) => at >= t.backoff
    case KillTried(n, at) => n in t.drains && drainTimeout > 0.0 && at - t.drains[n] > drainTimeout
    case DownPatch(target, current, running, at) =>
      && running <= 0 && at - t.lastAct >= cooldown
      && forall n: nat :: target <= n < current ==> n in t.drains && n in t.cleared
    case Noted(at) => at == t.lastAct && !t.unread
    case RetryNoted(until) => until == t.backoff
    case Restarted(last) =>
      (t.noted.Some? && !t.unread ==> last >= t.noted.value) && (t.open.Some? ==> last >= t.open.value.at)
    case _ => true
  }

  ghost predicate AlwaysRead(log: Log) {
    forall k :: 0 <= k < |log| ==> !log[k].MarkerUnread?
  }

  /** The entry was logged at or after position `start`. */
  ghost predicate Since(log: Log, start: nat, e: Entry) {
    exists k :: start <= k < |log| && log[k] == e
  }

  lemma SinceEarlier(log: Log, start: nat, earlier: nat, e: Entry)
    requires earlier <= start
    ensures Since(log, start, e) ==> Since(log, earlier, e)
  {
  }

  lemma SinceStays(log: Log, longer: Log, start: nat, e: Entry)
    requires Since(log, start, e) && log <= longer
    ensures Since(longer, start, e)
  {
    var k :| start <= k < |log| && log[k] == e;
    assert longer[k] == e;
  }

  function Track(log: Log): Trail {
    if log == [] then FRESH else After(Track(log[..|log| - 1]), log[|log| - 1])
  }

  ghost predicate Accepted(cooldown: real, drainTimeout: real, log: Log) {
    forall j :: 0 <= j < |log| ==> Allowed(cooldown, drainTimeout, Track(log[..j]), log[j])
  }

  lemma Extend(cooldown: real, drainTimeout: real, log: Log, e: Entry)
    requires Accepted(cooldown, drainTimeout, log) && Allowed(cooldown, drainTimeout, Track(log), e)
    ensures Accepted(cooldown, drainTimeout, log + [e]) && Track(log + [e]) == After(Track(log), e)
  {
    var longer := log + [e];
    assert longer[..|log|] == log;
    forall j | 0 <= j < |longer|
      ensures Allowed(cooldown, drainTimeout, Track(longer[..j]), longer[j])
    {
      if j < |log| {
        assert longer[..j] == log[..j];
      }
    }
  }

  // ----- What an accepted log says about scale-ups -----

  /** Entry k settles the scale-up patched at entry i: readiness reached its target, or it was rolled
      back. */
  predicate Settles(log: Log, i: nat, k: nat) {
    && i < |log| && k < |log| && log[i].UpPatch?
    && ((log[k].ReadySeen? && log[k].ready >= log[i].target) || log[k].RolledBack?)
  }

  /** A patch that nothing has settled, and whose marker no start-up failed to read, is still open. */
  lemma {:induction false} OpenUntilSettled(log: Log, i: nat)
    requires i < |log| && log[i].UpPatch?
    requires forall k :: i < k < |log| ==> !Settles(log, i, k) && !log[k].UpPatch? && !log[k].MarkerUnread?
    ensures Track(log).open == Some(Up(log[i].target, log[i].at))
  {
    var m := |log| - 1;
    if i < m {
      var shorter := log[..m];
      forall k | i < k < m
        ensures !Settles(shorter, i, k)
      {
        assert !Settles(log, i, k);
      }
      OpenUntilSettled(shorter, i);
      assert !Settles(log, i, m);
    }
  }

  /** Scale-ups are serialised: between two upward patches, whatever crashed and restarted in between,
      the earlier one was settled - unless a start-up failed to read the marker. */
  lemma ScaleUpsAreSerial(cooldown: real, drainTimeout: real, log: Log, i: nat, j: nat)
    requires Accepted(cooldown, drainTimeout, log) && i < j < |log| && log[i].UpPatch? && log[j].UpPatch?
    ensures exists k :: i < k < j && (Settles(log, i, k) || log[k].MarkerUnread?)
  {
    hide Track;
    // The first upward patch after i.
    var h := i + 1;
    while !log[h].UpPatch?
      invariant i < h <= j
      invariant forall k :: i < k < h ==> !log[k].UpPatch?
      decreases j - h
    {
      h := h + 1;
    }
    var before := log[..h];
    assert Allowed(cooldown, drainTimeout, Track(before), log[h]);
    if forall k :: i < k < h ==> !Settles(before, i, k) && !before[k].MarkerUnread? {
      OpenUntilSettled(before, i);
      assert false;
    } else {
      var k :| i < k < h && (Settles(before, i, k) || before[k].MarkerUnread?);
      assert Settles(before, i, k) ==> Settles(log, i, k);
    }
  }

  lemma SettlesCounted(t: Trail, e: Entry)
    ensures After(t, e).settles == t.settles + if e.ReadySeen? || e.RolledBack? then 1 else 0
  {
  }

  lemma {:induction false} NothingSettled(log: Log)
    ensures Track(log).settles == 0 <==> forall k :: 0 <= k < |log| ==> !log[k].ReadySeen? && !log[k].RolledBack?
  {
    if log != [] {
      var m := |log| - 1;
      NothingSettled(log[..m]);
      SettlesCounted(Track(log[..m]), log[m]);
      hide After;
      assert forall k :: 0 <= k < m ==> log[k] == log[..m][k];
    }
  }

  /** Two upward patches with nothing settled in the whole log are not serial. */
  lemma TwoPatchesNotSerial(log: Log, mid: nat, a: Entry, b: Entry)
    requires mid <= |log| && Since(log[..mid], 0, a) && Since(log, mid, b) && a.UpPatch? && b.UpPatch?
    requires Track(log).settles == 0
    ensures !SerialScaleUps(log)
  {
    NothingSettled(log);
    var i :| 0 <= i < mid && log[..mid][i] == a;
    var j :| mid <= j < |log| && log[j] == b;
    assert log[i].UpPatch? && log[j].UpPatch?;
    assert forall k :: i < k < j ==> !Settles(log, i, k);
  }

  // ----- What an accepted log says about scale-downs -----

  /** DRAIN was issued for the node at entry i, and the drain was not forgotten before j. */
  predicate DrainedSince(log: Log, i: nat, j: nat, node: nat, at: real) {
    && i < j <= |log| && log[i] == DrainTried(node, at)
    && forall k :: i < k < j ==> !log[k].DrainsDropped? && !log[k].Crashed?
  }

  lemma {:induction false} DrainWasIssued(log: Log, node: nat) returns (i: nat)
    requires node in Track(log).drains
    ensures DrainedSince(log, i, |log|, node, Track(log).drains[node])
  {
    var m := |log| - 1;
    var last := log[m];
    if last.DrainTried? && last.node == node {
      i := m;
    } else {
      i := DrainWasIssued(log[..m], node);
      assert log[i] == log[..m][i];
    }
  }

  /** The node was seen idle, or killed, at entry k of the step that reaches j. */
  predicate ClearedAt(log: Log, k: nat, j: nat, node: nat) {
    && k < j <= |log| && (log[k] == IdleSeen(node) || (log[k].KillTried? && log[k].node == node))
    && forall h :: k < h < j ==> !log[h].StepBegins? && !log[h].Crashed?
  }

  lemma {:induction false} ClearedInStep(log: Log, node: nat) returns (k: nat)
    requires node in Track(log).cleared
    ensures ClearedAt(log, k, |log|, node)
  {
    var m := |log| - 1;
    var last := log[m];
    if (last.IdleSeen? || last.KillTried?) && last.node == node {
      k := m;
    } else {
      k := ClearedInStep(log[..m], node);
      assert log[k] == log[..m][k];
    }
  }

  lemma DrainedEarlier(log: Log, i: nat, j: nat, node: nat, at: real)
    requires j <= |log| && DrainedSince(log[..j], i, j, node, at)
    ensures DrainedSince(log, i, j, node, at)
  {
    assert log[..j][i] == log[i];
    assert forall k :: i < k < j ==> log[..j][k] == log[k];
  }

  lemma ClearedEarlier(log: Log, k: nat, j: nat, node: nat)
    requires j <= |log| && ClearedAt(log[..j], k, j, node)
    ensures ClearedAt(log, k, j, node)
  {
    assert log[..j][k] == log[k];
    assert forall h :: k < h < j ==> log[..j][h] == log[h];
  }

  lemma ShrinkAllowed(cooldown: real, drainTimeout: real, log: Log, j: nat, node: nat)
    requires Accepted(cooldown, drainTimeout, log) && j < |log| && log[j].DownPatch?
    requires log[j].target <= node < log[j].current
    ensures log[j].running <= 0 && node in Track(log[..j]).drains && node in Track(log[..j]).cleared
  {
    hide Track;
    assert Allowed(cooldown, drainTimeout, Track(log[..j]), log[j]);
  }

  /** Drain before shrink: whenever fewer replicas are asked for, no job was running, and every node
      removed had been drained and was then, in that very step, seen idle or killed. */
  lemma DrainBeforeShrink(cooldown: real, drainTimeout: real, log: Log, j: nat, node: nat)
    requires Accepted(cooldown, drainTimeout, log) && j < |log| && log[j].DownPatch?
    requires log[j].target <= node < log[j].current
    ensures SafeRemoval(log, j, node)
  {
    hide Track, Accepted, Allowed, DrainedSince, ClearedAt;
    var before := log[..j];
    ShrinkAllowed(cooldown, drainTimeout, log, j, node);
    var i := DrainWasIssued(before, node);
    var k := ClearedInStep(before, node);
    DrainedEarlier(log, i, j, node, Track(before).drains[node]);
    ClearedEarlier(log, k, j, node);
  }

  /** Nobody is killed who had not been draining for longer than the timeout. */
  lemma KilledLate(cooldown: real, drainTimeout: real, log: Log, j: nat)
    requires Accepted(cooldown, drainTimeout, log) && j < |log| && log[j].KillTried?
    ensures exists i, at :: DrainedSince(log, i, j, log[j].node, at) && log[j].at - at > drainTimeout > 0.0
  {
    hide Track, DrainedSince;
    var before := log[..j];
    assert Allowed(cooldown, drainTimeout, Track(before), log[j]);
    var i := DrainWasIssued(before, log[j].node);
    DrainedEarlier(log, i, j, log[j].node, Track(before).drains[log[j].node]);
  }

  /** The time a log last recorded a scale action. */
  lemma {:induction false} ActedSince(log: Log, i: nat)
    requires i < |log| && log[i].Acted? && forall k :: i < k < |log| ==> !log[k].Acted? && !log[k].Restarted?
    ensures Track(log).lastAct == log[i].at
  {
    var m := |log| - 1;
    if i < m {
      ActedSince(log[..m], i);
    }
  }

  /** Within one life of the operator no scale-down follows a scale action within the cooldown ... */
  lemma CooldownKept(cooldown: real, drainTimeout: real, log: Log, i: nat, j: nat)
    requires Accepted(cooldown, drainTimeout, log) && i < j < |log| && log[i].Acted? && log[j].DownPatch?
    requires forall k :: i < k < j ==> !log[k].Acted? && !log[k].Restarted?
    ensures log[j].at - log[i].at >= cooldown
  {
    var before := log[..j];
    ActedSince(before, i);
    assert Allowed(cooldown, drainTimeout, Track(before), log[j]);
  }

  lemma AcceptedBefore(cooldown: real, drainTimeout: real, log: Log, m: nat)
    requires Accepted(cooldown, drainTimeout, log) && m <= |log|
    ensures Accepted(cooldown, drainTimeout, log[..m])
  {
    forall j | 0 <= j < m
      ensures Allowed(cooldown, drainTimeout, Track(log[..m][..j]), log[..m][j])
    {
      assert log[..m][..j] == log[..j];
    }
  }

  lemma LastAllowed(cooldown: real, drainTimeout: real, log: Log)
    requires Accepted(cooldown, drainTimeout, log) && log != []
    ensures Accepted(cooldown, drainTimeout, log[..|log| - 1])
    ensures Allowed(cooldown, drainTimeout, Track(log[..|log| - 1]), log[|log| - 1])
  {
    AcceptedBefore(cooldown, drainTimeout, log, |log| - 1);
  }

  lemma NoteMade(cooldown: real, drainTimeout: real, t: Trail, e: Entry)
    requires Allowed(cooldown, drainTimeout, t, e) && e.Noted?
    ensures After(t, e).noted == Some(e.at) && After(t, e).lastAct == e.at && !After(t, e).unread
  {
  }

  lemma NoteStays(cooldown: real, drainTimeout: real, t: Trail, e: Entry, at: real)
    requires Allowed(cooldown, drainTimeout, t, e) && t.noted == Some(at) && t.lastAct >= at && !t.unread
    requires !e.Acted? && !e.Noted? && !e.ActionUnread?
    ensures After(t, e).noted == Some(at) && After(t, e).lastAct >= at && !After(t, e).unread
  {
  }

  /** A note of a scale action outlives crashes: whoever restarts and reads it knows of an action at least as
      recent. */
  lemma {:induction false} NotedSince(cooldown: real, drainTimeout: real, log: Log, i: nat)
    requires Accepted(cooldown, drainTimeout, log) && i < |log| && log[i].Noted?
    requires forall k :: i < k < |log| ==> !log[k].Acted? && !log[k].Noted? && !log[k].ActionUnread?
    ensures Track(log).noted == Some(log[i].at) && Track(log).lastAct >= log[i].at && !Track(log).unread
  {
    hide Allowed, Accepted, After;
    var m := |log| - 1;
    LastAllowed(cooldown, drainTimeout, log);
    if i < m {
      NotedSince(cooldown, drainTimeout, log[..m], i);
      NoteStays(cooldown, drainTimeout, Track(log[..m]), log[m], log[i].at);
    } else {
      NoteMade(cooldown, drainTimeout, Track(log[..m]), log[m]);
    }
  }

  /** ... and across any number of crashes and restarts the same holds of an action whose note was written ... */
  lemma CooldownSurvives(cooldown: real, drainTimeout: real, log: Log, i: nat, j: nat)
    requires Accepted(cooldown, drainTimeout, log) && i < j < |log| && log[i].Noted? && log[j].DownPatch?
    requires forall k :: i < k < j ==> !log[k].Acted? && !log[k].Noted? && !log[k].ActionUnread?
    ensures log[j].at - log[i].at >= cooldown
  {
    var before := log[..j];
    AcceptedBefore(cooldown, drainTimeout, log, j);
    NotedSince(cooldown, drainTimeout, before, i);
    assert Allowed(cooldown, drainTimeout, Track(before), log[j]);
  }

  /** ... and of a scale-up still open at a restart, whose marker serves as the note. */
  lemma CooldownSurvivesInMarker(cooldown: real, drainTimeout: real, log: Log, i: nat, r: nat, j: nat)
    requires Accepted(cooldown, drainTimeout, log) && i < r < j < |log|
    requires log[i].UpPatch? && log[r].Restarted? && log[j].DownPatch?
    requires forall k :: i < k < r ==> !Settles(log, i, k) && !log[k].UpPatch? && !log[k].MarkerUnread?
    requires forall k :: r < k < j ==> !log[k].Acted? && !log[k].Restarted?
    ensures log[j].at - log[i].at >= cooldown
  {
    hide Track;
    forall k | i < k < r
      ensures !Settles(log[..r], i, k)
    {
      assert !Settles(log, i, k);
    }
    OpenUntilSettled(log[..r], i);
    assert Allowed(cooldown, drainTimeout, Track(log[..r]), log[r]);
    RestartedSince(log[..j], r);
    assert Allowed(cooldown, drainTimeout, Track(log[..j]), log[j]);
  }

  lemma {:induction false} RestartedSince(log: Log, r: nat)
    requires r < |log| && log[r].Restarted? && forall k :: r < k < |log| ==> !log[k].Acted? && !log[k].Restarted?
    ensures Track(log).lastAct == log[r].lastAct
  {
    var m := |log| - 1;
    if r < m {
      RestartedSince(log[..m], r);
    }
  }

  predicate EndsBackoff(e: Entry) {
    e.RolledBack? || e.BackoffOver? || e.ReadySeen? || e.UpPatch? || e.RetryUnread?
  }

  lemma {:induction false} BackoffSince(log: Log, i: nat)
    requires i < |log| && log[i].RolledBack? && forall k :: i < k < |log| ==> !EndsBackoff(log[k]) && !log[k].Crashed?
    ensures Track(log).backoff == log[i].until
  {
    var m := |log| - 1;
    if i < m {
      BackoffSince(log[..m], i);
    }
  }

  /** After a rollback the next thing to end the back-off, unless it is another rollback, an old scale-up
      becoming ready or a crash, comes when the back-off is over ... */
  lemma BackoffKept(cooldown: real, drainTimeout: real, log: Log, i: nat, j: nat)
    requires Accepted(cooldown, drainTimeout, log) && i < j < |log| && log[i].RolledBack?
    requires log[j].UpPatch? || log[j].BackoffOver?
    requires forall k :: i < k < j ==> !EndsBackoff(log[k]) && !log[k].Crashed?
    ensures log[j].at >= log[i].until
  {
    var before := log[..j];
    BackoffSince(before, i);
    assert Allowed(cooldown, drainTimeout, Track(before), log[j]);
  }

  lemma RetryMade(cooldown: real, drainTimeout: real, t: Trail, e: Entry)
    requires Allowed(cooldown, drainTimeout, t, e) && e.RetryNoted?
    ensures After(t, e).backoff == After(t, e).retry == e.until
  {
  }

  lemma RetryStays(t: Trail, e: Entry)
    requires t.backoff == t.retry && !EndsBackoff(e) && !e.RetryNoted? && !e.RetryCleared?
    ensures After(t, e).backoff == After(t, e).retry == t.retry
  {
  }

  lemma {:induction false} RetryNotedSince(cooldown: real, drainTimeout: real, log: Log, i: nat)
    requires Accepted(cooldown, drainTimeout, log) && i < |log| && log[i].RetryNoted?
    requires forall k :: i < k < |log| ==> !EndsBackoff(log[k]) && !log[k].RetryNoted? && !log[k].RetryCleared?
    ensures Track(log).backoff == Track(log).retry == log[i].until
  {
    hide Allowed, Accepted, After;
    var m := |log| - 1;
    LastAllowed(cooldown, drainTimeout, log);
    if i < m {
      RetryNotedSince(cooldown, drainTimeout, log[..m], i);
      RetryStays(Track(log[..m]), log[m]);
    } else {
      RetryMade(cooldown, drainTimeout, Track(log[..m]), log[m]);
    }
  }

  /** ... and once the note of it has been written, a crash does not end it either. */
  lemma BackoffSurvives(cooldown: real, drainTimeout: real, log: Log, i: nat, j: nat)
    requires Accepted(cooldown, drainTimeout, log) && i < j < |log| && log[i].RetryNoted?
    requires log[j].UpPatch? || log[j].BackoffOver?
    requires forall k :: i < k < j ==> !EndsBackoff(log[k]) && !log[k].RetryNoted? && !log[k].RetryCleared?
    ensures log[j].at >= log[i].until
  {
    var before := log[..j];
    AcceptedBefore(cooldown, drainTimeout, log, j);
    RetryNotedSince(cooldown, drainTimeout, before, i);
    assert Allowed(cooldown, drainTimeout, Track(before), log[j]);
  }

  // ----- The two main statements -----

  /** Between two upward patches the earlier one was settled. */
  ghost predicate SerialScaleUps(log: Log) {
    forall i, j :: 0 <= i < j < |log| && log[i].UpPatch? && log[j].UpPatch? ==>
      exists k :: i < k < j && Settles(log, i, k)
  }

  /** Removing the node was in order: nothing ran, the node had been drained, and in the same step it
      was seen idle, or killed. */
  ghost predicate SafeRemoval(log: Log, j: nat, node: nat) {
    && j < |log| && log[j].DownPatch? && log[j].running <= 0
    && (exists i, at :: DrainedSince(log, i, j, node, at))
    && (exists k :: ClearedAt(log, k, j, node))
  }

  ghost predicate DrainedShrinks(log: Log) {
    forall j: nat, node: nat {:trigger SafeRemoval(log, j, node)} ::
      j < |log| && log[j].DownPatch? && log[j].target <= node < log[j].current ==> SafeRemoval(log, j, node)
  }

  lemma AcceptedMeans(cooldown: real, drainTimeout: real, log: Log)
    requires Accepted(cooldown, drainTimeout, log)
    ensures AlwaysRead(log) ==> SerialScaleUps(log)
    ensures DrainedShrinks(log)
  {
    hide Accepted, Settles, DrainedSince, ClearedAt;
    if AlwaysRead(log) {
      forall i, j | 0 <= i < j < |log| && log[i].UpPatch? && log[j].UpPatch?
        ensures exists k :: i < k < j && Settles(log, i, k)
      {
        ScaleUpsAreSerial(cooldown, drainTimeout, log, i, j);
      }
    }
    forall j: nat, node: nat {:trigger SafeRemoval(log, j, node)} |
      j < |log| && log[j].DownPatch? && log[j].target <= node < log[j].current
      ensures SafeRemoval(log, j, node)
    {
      DrainBeforeShrink(cooldown, drainTimeout, log, j, node);
    }
  }
}
