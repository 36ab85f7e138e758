/** The operator of one pool as a crash-prone object. Every call to the cluster may succeed, raise or
    be the last thing the process does, with or without having taken effect. */
module Operator {
  import opened Wrappers
  import opened Policy
  import opened OperatorLog

  datatype Fate = Succeeds | Raises(effect: bool) | Dies(effect: bool)

  datatype Flow = Go | Abort | Dead

  datatype Marker = Marker(startedAt: real, from: int, target: int)

  datatype Note = LastUpNote | LastActionNote | RetryNote

  /** What one reconcile gets to see: the collected state, pod readiness, and the clock each time it
      is read. */
  datatype Observation = Observation(known: bool, state: PoolState, ready: int,
                                     readyAt: real, rolledBackAt: real, decidedAt: real, drainAt: real)

  /** How reading an annotation goes: a request the cluster refuses reads as if there were none, anything else
      that goes wrong raises. */
  datatype Reading = Read | Missed | Raised

  /** How a start-up reads its annotations. */
  datatype Readings = Readings(action: Reading, up: Reading, marker: Reading, retry: Reading)

  datatype Stimulus = Reconcile(obs: Observation) | CrashAndRestart(at: real, readings: Readings)

  predicate MarkerOk(m: Marker) {
    m.startedAt > 0.0 && m.target > m.from
  }

  predicate Announces(m: Marker, up: Up) {
    m.target == up.target && m.startedAt == up.at
  }

  function FlowOf(f: Fate): Flow {
    match f case Succeeds => Go case Raises(_) => Abort case Dies(_) => Dead
  }

  /** The ordinals of the nodes from `low` up to, not including, `high`. */
  function Ordinals(low: int, high: int): (r: set<nat>)
    ensures forall n: nat :: n in r <==> low <= n < high
    decreases high - low
  {
    if low < high && high > 0 then Ordinals(low, high - 1) + {high - 1} else {}
  }

  /** Some element: sets are walked in no particular order. */
  method Pick(s: set<nat>) returns (n: nat)
    requires s != {}
    ensures n in s
  {
    n :| n in s;
  }

  class Pool {
    const cfg: PoolConfig
    const provisioningTimeout: real
    const retrySeconds: real
    const fate: nat -> Fate                  // what becomes of the n-th call
    const cpuAlloc: (nat, nat) -> int        // what the n-th call reads for a node
    const reliable: bool                     // whether start-ups can count on reading the marker
    var calls: nat
    // Kept by the cluster.
    var marker: Option<Marker>
    var notes: map<Note, real>
    // Kept by the process.
    var provisioning: Option<Marker>
    var retryAt: real
    var draining: set<nat>
    var started: map<nat, real>
    var lastActionAt: real
    ghost var log: Log
    ghost var trail: Trail

    ghost predicate Logged()
      reads this`log, this`trail
    {
      && Accepted(cfg.cooldown, cfg.drainTimeout, log) && trail == Track(log)
      && (reliable ==> AlwaysRead(log))
    }

    /** A scale-up that is still open can be picked up from the marker, and the notes say what was noted last. */
    ghost predicate Marked()
      reads this`log, this`trail, this`marker, this`notes
    {
      && Logged()
      && (trail.open.Some? ==> marker.Some? && MarkerOk(marker.value) && Announces(marker.value, trail.open.value))
      && trail.noted == (if LastActionNote in notes then Some(notes[LastActionNote]) else None)
      && trail.retry == (if RetryNote in notes then notes[RetryNote] else 0.0)
    }

    /** What holds while the process lives: its picture of a scale-up in flight is the durable one. */
    ghost predicate Valid()
      reads this`log, this`trail, this`marker, this`notes, this`provisioning, this`retryAt, this`draining,
            this`started, this`lastActionAt
    {
      && Marked()
      && (provisioning.Some? ==> marker == provisioning && MarkerOk(provisioning.value))
      && (trail.open.Some? ==> provisioning.Some?)
      && trail.backoff <= retryAt
      && trail.drains == started && draining <= started.Keys
      && trail.lastAct == lastActionAt && !trail.unread
    }

    constructor (cfg: PoolConfig, provisioningTimeout: real, retrySeconds: real, fate: nat -> Fate,
                 cpuAlloc: (nat, nat) -> int, reliable: bool)
      ensures Valid() && log == [] && this.cfg == cfg && this.reliable == reliable
      ensures this.fate == fate && provisioning.None? && retryAt == 0.0 && calls == 0 && trail == FRESH
    {
      this.reliable := reliable;
      this.cfg, this.provisioningTimeout, this.retrySeconds := cfg, provisioningTimeout, retrySeconds;
      this.fate, this.cpuAlloc, calls := fate, cpuAlloc, 0;
      marker, notes, provisioning, retryAt := None, map[], None, 0.0;
      draining, started, lastActionAt, log, trail := {}, map[], 0.0, [], FRESH;
    }

    /** From here on every call succeeds. */
    ghost predicate Smooth()
      reads this`calls
    {
      forall k: nat :: k >= calls ==> fate(k).Succeeds?
    }

    // ----- Calls to the cluster -----

    /** A call whose effect the model does not track. */
    method Call() returns (flow: Flow)
      modifies this`calls
      ensures calls == old(calls) + 1
      ensures old(Smooth()) ==> Smooth() && flow == Go
    {
      flow := FlowOf(fate(calls));
      calls := calls + 1;
    }

    method WriteMarker(m: Option<Marker>) returns (flow: Flow)
      modifies this`calls, this`marker
      ensures marker == m || (marker == old(marker) && flow != Go)
      ensures old(Smooth()) ==> Smooth() && flow == Go
    {
      var f := fate(calls);
      if f.Succeeds? || f.effect {
        marker := m;
      }
      calls := calls + 1;
      flow := FlowOf(f);
    }

    ghost method Record(e: Entry)
      requires Logged() && Allowed(cfg.cooldown, cfg.drainTimeout, trail, e) && (reliable ==> !e.MarkerUnread?)
      modifies this`log, this`trail
      ensures Logged() && log == old(log) + [e] && trail == After(old(trail), e)
      ensures Since(log, |old(log)|, e)
    {
      Extend(cfg.cooldown, cfg.drainTimeout, log, e);
      log := log + [e];
      trail := After(trail, e);
      assert log[|log| - 1] == e;
    }

    /** Note when the pool was last scaled up; only start-ups that find no other note read it. */
    method NoteUp(at: real) returns (flow: Flow)
      requires Marked()
      modifies this`calls, this`notes
      ensures Marked() && (old(Smooth()) ==> Smooth() && flow == Go)
      ensures notes == old(notes) || notes == old(notes)[LastUpNote := at]
    {
      hide Logged;
      var f := fate(calls);
      if f.Succeeds? || f.effect {
        notes := notes[LastUpNote := at];
      }
      calls := calls + 1;
      flow := FlowOf(f);
    }

    /** The trail has changed in what was noted only. */
    ghost predicate SameButNotes(t: Trail)
      reads this`trail
    {
      trail == t.(noted := trail.noted, retry := trail.retry)
    }

    /** Note the last scale action. */
    method NoteAction(at: real) returns (flow: Flow)
      requires Marked() && trail.lastAct == at && !trail.unread
      modifies this`calls, this`notes, this`log, this`trail
      ensures Marked() && old(log) <= log && SameButNotes(old(trail)) && trail.retry == old(trail.retry)
      ensures flow == Go ==> trail.noted == Some(at) && Since(log, |old(log)|, Noted(at))
      ensures old(Smooth()) ==> Smooth() && flow == Go
    {
      hide Logged, Since;
      var f := fate(calls);
      if f.Succeeds? || f.effect {
        notes := notes[LastActionNote := at];
        Record(Noted(at));
      }
      calls := calls + 1;
      flow := FlowOf(f);
    }

    /** Note how long to hold back. */
    method NoteRetry(until: real) returns (flow: Flow)
      requires Marked() && trail.backoff == until
      modifies this`calls, this`notes, this`log, this`trail
      ensures Marked() && old(log) <= log && SameButNotes(old(trail)) && trail.noted == old(trail.noted)
      ensures flow == Go ==> trail.retry == until && Since(log, |old(log)|, RetryNoted(until))
      ensures old(Smooth()) ==> Smooth() && flow == Go
    {
      hide Logged, Since;
      var f := fate(calls);
      if f.Succeeds? || f.effect {
        notes := notes[RetryNote := until];
        Record(RetryNoted(until));
      }
      calls := calls + 1;
      flow := FlowOf(f);
    }

    method ClearRetry() returns (flow: Flow)
      requires Marked()
      modifies this`calls, this`notes, this`log, this`trail
      ensures Marked() && old(log) <= log && SameButNotes(old(trail)) && trail.noted == old(trail.noted)
      ensures flow == Go ==> RetryNote !in notes
      ensures old(Smooth()) ==> Smooth() && flow == Go
    {
      hide Logged, Since;
      var f := fate(calls);
      if f.Succeeds? || f.effect {
        notes := notes - {RetryNote};
        Record(RetryCleared);
      }
      calls := calls + 1;
      flow := FlowOf(f);
    }

    /** A patch of the replica count: logged, whether or not it then takes effect. */
    method Patch(e: Entry) returns (flow: Flow)
      requires Logged() && Allowed(cfg.cooldown, cfg.drainTimeout, trail, e) && (e.UpPatch? || e.DownPatch?)
      modifies this`calls, this`log, this`trail
      ensures Logged() && log == old(log) + [e] && trail == After(old(trail), e) && Since(log, |old(log)|, e)
      ensures old(Smooth()) ==> Smooth() && flow == Go
    {
      hide Logged, Since, Smooth, Allowed, After;
      Record(e);
      flow := Call();
    }

    /** One call per node; whatever is raised is swallowed, so only a crash cuts the round short. */
    method CallForEach(nodes: set<nat>) returns (flow: Flow)
      modifies this`calls
      ensures flow != Abort && (old(Smooth()) ==> Smooth() && flow == Go)
    {
      flow := Go;
      var rest := nodes;
      while rest != {} && flow == Go
        invariant flow != Abort && (old(Smooth()) ==> Smooth() && flow == Go)
        decreases rest
      {
        var n := Pick(rest);
        rest := rest - {n};
        var one := Call();
        if one == Dead {
          flow := Dead;
        }
      }
    }

    // ----- Start-up -----

    /** The process is gone, and with it all it held. */
    method LoseProcess()
      requires Marked()
      modifies this`provisioning, this`retryAt, this`draining, this`started, this`log, this`trail
      ensures Marked() && Fresh() && trail.open == old(trail.open) && trail.settles == old(trail.settles)
      ensures trail.noted == old(trail.noted) && trail.retry == old(trail.retry) && old(log) <= log
    {
      hide Logged, Smooth, AllIdle;
      Record(Crashed);
      provisioning, retryAt, draining, started := None, 0.0, {}, map[];
    }

    ghost predicate Fresh()
      reads this`provisioning, this`retryAt, this`draining, this`started, this`trail
    {
      && provisioning.None? && retryAt == 0.0 && draining == {} && started == map[]
      && trail.drains == map[] && trail.backoff == trail.retry && !trail.unread
    }

    /** The time of the last scale action, as far as the notes can be read. */
    function NotedAction(notes: map<Note, real>, readings: Readings): real {
      if readings.action.Read? && LastActionNote in notes then notes[LastActionNote]
      else if !readings.action.Raised? && readings.up.Read? && LastUpNote in notes then notes[LastUpNote]
      else 0.0
    }

    /** ... or, if that is later, the start of a scale-up in flight. */
    function Later(noted: real, m: Option<Marker>): real {
      if m.Some? && m.value.startedAt > noted then m.value.startedAt else noted
    }

    /** Remember the last scale action. */
    method ReadAction(readings: Readings)
      requires Marked() && Fresh()
      modifies this`lastActionAt, this`log, this`trail
      ensures Marked() && lastActionAt == NotedAction(notes, readings) && old(log) <= log
      ensures trail == old(trail).(unread := !readings.action.Read?)
    {
      hide Logged;
      if !readings.action.Read? {
        Record(ActionUnread);
      }
      lastActionAt := NotedAction(notes, readings);
    }

    /** Pick up a scale-up in flight from its marker. A marker that makes no sense is dropped, and so is one
        whose reading raises; one that is missed stays where it is, but nothing is picked up. */
    method ReadMarker(reading: Reading) returns (flow: Flow)
      requires Marked() && provisioning.None? && (reliable ==> reading.Read?)
      modifies this`calls, this`marker, this`provisioning, this`lastActionAt, this`log, this`trail
      ensures Marked() && flow != Abort
      ensures provisioning.Some? ==> marker == provisioning && MarkerOk(provisioning.value)
      ensures trail.open.Some? ==> provisioning.Some?
      ensures trail == old(trail).(open := if reading.Read? then old(trail.open) else None)
      ensures lastActionAt == Later(old(lastActionAt), provisioning)
      ensures old(Smooth()) ==> Smooth() && flow == Go
      ensures !reading.Read? ==> provisioning.None?
      ensures old(log) <= log
      ensures reading.Read? && old(marker).Some? && MarkerOk(old(marker).value) ==>
                provisioning == old(marker) == marker
      ensures reading.Missed? ==> marker == old(marker)
      ensures reading.Raised? && old(Smooth()) ==> marker.None?
    {
      hide Logged, Smooth, AllIdle;
      flow := Go;
      match reading {
      case Missed =>
        Record(MarkerUnread);
      case Raised =>
        Record(MarkerUnread);
        flow := WriteMarker(None);
      case Read =>
        if marker.Some? {
          if MarkerOk(marker.value) {
            provisioning := marker;
            if marker.value.startedAt > lastActionAt {
              lastActionAt := marker.value.startedAt;
            }
          } else {
            flow := WriteMarker(None);
            if flow == Abort {
              flow := WriteMarker(None);
            }
          }
        }
      }
      flow := if flow == Abort then Go else flow;
    }

    /** The process comes back: what it wrote is read again, as far as it can be. */
    method Restart(at: real, readings: Readings) returns (flow: Flow)
      requires Marked() && at >= 0.0 && (reliable ==> readings.marker.Read?)
      modifies this
      ensures Marked() && flow != Abort && (flow == Go ==> Valid())
      ensures flow == Go && readings.marker.Read? && old(marker).Some? && MarkerOk(old(marker).value) ==>
                provisioning == old(marker)
      ensures flow == Go && !readings.marker.Read? ==> provisioning.None?
      ensures flow == Go ==> lastActionAt == Later(NotedAction(old(notes), readings), provisioning)
      ensures flow == Go ==> retryAt == RetryLeft(old(notes), readings.retry, at)
      ensures trail.settles == old(trail.settles) && old(log) <= log
      ensures old(Smooth()) && !readings.retry.Raised? ==> Smooth() && flow == Go
    {
      hide Logged, Smooth, AllIdle;
      LoseProcess();
      ReadAction(readings);
      flow := ReadMarker(readings.marker);
      if flow == Go {
        flow := ReadRetry(at, readings.retry);
      }
    }

    /** The back-off that is still ahead, if the note of it can be read. */
    function RetryLeft(notes: map<Note, real>, reading: Reading, at: real): real {
      if reading.Read? && RetryNote in notes && notes[RetryNote] > at then notes[RetryNote] else 0.0
    }

    /** Up again; a back-off that is not over goes on. */
    method ReadRetry(at: real, reading: Reading) returns (flow: Flow)
      requires Marked() && at >= 0.0 && retryAt == 0.0 && draining == {} && started == map[]
      requires provisioning.Some? ==> marker == provisioning && MarkerOk(provisioning.value)
      requires trail.open.Some? ==> provisioning.Some? && lastActionAt >= trail.open.value.at
      requires trail.drains == map[] && trail.backoff == trail.retry
      requires trail.noted.Some? && !trail.unread ==> lastActionAt >= trail.noted.value
      modifies this`calls, this`notes, this`retryAt, this`log, this`trail
      ensures Marked() && flow != Abort && (flow == Go ==> Valid()) && old(log) <= log
      ensures flow == Go ==> retryAt == RetryLeft(old(notes), reading, at)
      ensures trail.settles == old(trail.settles) && (old(Smooth()) && !reading.Raised? ==> Smooth() && flow == Go)
    {
      hide Logged, Smooth, AllIdle;
      flow := Go;
      Record(Restarted(lastActionAt));
      match reading
      case Raised =>
        // Nothing catches this one: a start-up that raises here is over.
        flow := Dead;
      case Missed =>
        Record(RetryUnread);
      case Read =>
        if RetryNote in notes {
          if notes[RetryNote] > at {
            retryAt := notes[RetryNote];
          } else {
            flow := DropRetry(at);
          }
        }
    }

    /** The back-off is over: its note can go. Nothing catches an exception here either. */
    method DropRetry(at: real) returns (flow: Flow)
      requires Marked() && at >= trail.backoff
      modifies this`calls, this`notes, this`log, this`trail
      ensures Marked() && flow != Abort && old(log) <= log && trail.backoff == 0.0
      ensures trail == old(trail).(backoff := 0.0, noted := trail.noted, retry := trail.retry)
      ensures old(Smooth()) ==> Smooth() && flow == Go
    {
      hide Logged, Smooth, Since;
      Record(BackoffOver(at));
      flow := ClearRetry();
      flow := if flow == Abort then Dead else flow;
    }

    // ----- One reconcile -----

    /** A scale-up in flight is settled when its pods are ready, and rolled back when it takes too long. */
    method CheckProvisioning(obs: Observation) returns (flow: Flow)
      requires Valid() && obs.rolledBackAt >= 0.0
      modifies this`calls, this`marker, this`notes, this`provisioning, this`retryAt, this`lastActionAt, this`log,
               this`trail
      ensures Marked() && (flow != Dead ==> Valid()) && old(log) <= log
      ensures old(Smooth()) ==> Smooth() && flow == Go
      ensures old(Smooth()) && old(provisioning).Some? && obs.ready >= old(provisioning).value.target ==>
                provisioning.None? && marker.None? && Since(log, |old(log)|, ReadySeen(obs.ready))
      ensures old(Smooth()) && old(provisioning).Some? && obs.ready < old(provisioning).value.target ==>
                if
                  && provisioningTimeout > 0.0
                  && obs.readyAt - old(provisioning).value.startedAt >= provisioningTimeout
                then provisioning.None? && marker.None? && retryAt == obs.rolledBackAt + retrySeconds
                     && Since(log, |old(log)|, RolledBack(retryAt))
                else provisioning == old(provisioning) && retryAt == old(retryAt)
      ensures old(provisioning).None? ==>
                && provisioning.None? && retryAt == old(retryAt) && lastActionAt == old(lastActionAt)
                && trail == old(trail)
    {
      hide Logged, Smooth, AllIdle;
      flow := Go;
      if provisioning.Some? {
        var m := provisioning.value;
        if obs.ready >= m.target {
          flow := Settle(m, obs.ready);
        } else if provisioningTimeout > 0.0 && obs.readyAt - m.startedAt >= provisioningTimeout {
          flow := RollBack(m, obs.rolledBackAt);
        }
      }
    }

    method Settle(m: Marker, ready: int) returns (flow: Flow)
      requires Valid() && provisioning == Some(m) && ready >= m.target
      modifies this`calls, this`marker, this`notes, this`provisioning, this`retryAt, this`log, this`trail
      ensures Marked() && flow != Abort && (flow != Dead ==> Valid()) && old(log) <= log
      ensures old(Smooth()) ==> Smooth() && flow == Go && provisioning.None? && marker.None?
      ensures Since(log, |old(log)|, ReadySeen(ready))
    {
      hide Logged, Since, Smooth, AllIdle;
      Record(ReadySeen(ready));
      ghost var seen := log;
      provisioning, retryAt := None, 0.0;
      flow := WriteMarker(None);
      if flow == Dead {
        return;
      }
      flow := ClearRetry();
      SinceStays(seen, log, |old(log)|, ReadySeen(ready));
      if flow == Dead {
        return;
      }
      flow := ResumeNodes(m.from, m.target);
    }

    /** The new nodes are resumed until one call raises. */
    method ResumeNodes(from: int, target: int) returns (flow: Flow)
      modifies this`calls
      ensures flow != Abort && (old(Smooth()) ==> Smooth() && flow == Go)
    {
      hide Smooth;
      flow := Go;
      var i := from;
      while i < target && flow == Go
        invariant old(Smooth()) ==> Smooth() && flow == Go
        decreases target - i
      {
        flow := Call();
        i := i + 1;
      }
      flow := if flow == Abort then Go else flow;
    }

    method RollBack(m: Marker, at: real) returns (flow: Flow)
      requires Valid() && provisioning == Some(m) && at >= 0.0
      modifies this`calls, this`marker, this`notes, this`provisioning, this`retryAt, this`lastActionAt, this`log,
               this`trail
      ensures Marked() && (flow != Dead ==> Valid()) && old(log) <= log
      ensures old(Smooth()) ==> Smooth() && flow == Go && provisioning.None? && marker.None?
      ensures old(Smooth()) ==> retryAt == at + retrySeconds && Since(log, |old(log)|, RolledBack(retryAt))
    {
      hide Logged, Since, Smooth, AllIdle, Valid, Marked;
      flow := PatchBack(m);
      if flow != Go {
        return;
      }
      Unprovision(at);
      ghost var undone := log;
      flow := NoteRollBack(at);
      SinceStays(undone, log, |old(log)|, RolledBack(at + retrySeconds));
    }

    /** Take the nodes of the scale-up out of service, then patch the replicas back. */
    method PatchBack(m: Marker) returns (flow: Flow)
      requires Valid()
      modifies this`calls
      ensures Valid() && Marked() && (old(Smooth()) ==> Smooth() && flow == Go)
    {
      hide Logged, Smooth, AllIdle;
      flow := CallForEach(Ordinals(m.from, m.target));
      if flow != Dead {
        flow := Call();
      }
    }

    /** Nothing is in flight any more, and a back-off begins. */
    method Unprovision(at: real)
      requires Valid()
      modifies this`provisioning, this`retryAt, this`lastActionAt, this`log, this`trail
      ensures Valid() && provisioning.None? && retryAt == at + retrySeconds && lastActionAt == at
      ensures trail.backoff == retryAt && old(log) <= log && Since(log, |old(log)|, RolledBack(retryAt))
    {
      hide Logged, Since, Smooth, AllIdle;
      Record(RolledBack(at + retrySeconds));
      SinceStays(log, log + [Acted(at)], |old(log)|, RolledBack(at + retrySeconds));
      Record(Acted(at));
      lastActionAt, retryAt, provisioning := at, at + retrySeconds, None;
    }

    method NoteRollBack(at: real) returns (flow: Flow)
      requires Valid() && provisioning.None? && lastActionAt == at && trail.backoff == retryAt == at + retrySeconds
      modifies this`calls, this`marker, this`notes, this`log, this`trail
      ensures Marked() && flow != Abort && (flow != Dead ==> Valid()) && old(log) <= log
      ensures old(Smooth()) ==> Smooth() && flow == Go && marker.None?
    {
      hide Logged, Smooth, AllIdle, Since;
      flow := WriteMarker(None);
      if flow == Dead {
        return;
      }
      flow := NoteAction(at);
      if flow == Dead {
        return;
      }
      flow := NoteRetry(at + retrySeconds);
      flow := if flow == Abort then Go else flow;
    }

    /** Announce the scale-up, then patch. */
    method DoScaleUp(state: PoolState, target: int, now: real) returns (flow: Flow)
      requires Valid() && provisioning.None? && now > 0.0 && retryAt == 0.0 && target > state.current
      modifies this`calls, this`marker, this`notes, this`provisioning, this`retryAt, this`draining, this`started,
               this`lastActionAt, this`log, this`trail
      ensures Marked() && (flow != Dead ==> Valid()) && old(log) <= log
      ensures old(Smooth()) ==> Smooth() && flow == Go && Since(log, |old(log)|, UpPatch(target, now))
      ensures old(Smooth()) ==> RetryNote !in notes
      ensures trail.settles == old(trail.settles)
      ensures old(Smooth()) ==> provisioning == Some(Marker(now, state.current, target)) && draining == {}
    {
      hide Logged, Since, Smooth, AllIdle;
      flow := CancelDrains(target);
      if flow == Dead {
        return;
      }
      var m := Marker(now, state.current, target);
      flow := WriteMarker(Some(m));
      if flow != Go {
        return;
      }
      provisioning := Some(m);
      flow := Patch(UpPatch(target, now));
      if flow != Go {
        return;
      }
      SinceEarlier(log, |old(log)| + 1, |old(log)|, UpPatch(target, now));
      ghost var patched := log;
      flow := NoteScaleUp(now);
      SinceStays(patched, log, |old(log)|, UpPatch(target, now));
    }

    /** Nodes being drained are wanted again. */
    method CancelDrains(target: int) returns (flow: Flow)
      requires Valid()
      modifies this`calls, this`draining, this`started, this`log, this`trail
      ensures Marked() && flow != Abort && (flow != Dead ==> Valid())
      ensures trail == old(trail).(drains := map[]) && log == old(log) + [DrainsDropped]
      ensures draining == {} && (old(Smooth()) ==> Smooth() && flow == Go)
    {
      hide Logged, Smooth, AllIdle;
      var toResume := draining + Ordinals(0, target);
      Record(DrainsDropped);
      draining, started := {}, map[];
      flow := CallForEach(toResume);
    }

    /** Remember when the pool was scaled; one refused note ends the attempt. */
    method NoteScaleUp(now: real) returns (flow: Flow)
      requires Valid() && retryAt == 0.0
      modifies this`calls, this`notes, this`lastActionAt, this`log, this`trail
      ensures Marked() && (flow != Dead ==> Valid()) && old(log) + [Acted(now)] <= log
      ensures trail.settles == old(trail.settles)
      ensures old(Smooth()) ==> Smooth() && flow == Go && RetryNote !in notes
    {
      hide Logged, Smooth, AllIdle, Since;
      lastActionAt := now;
      Record(Acted(now));
      flow := NoteUp(now);
      if flow == Go {
        flow := NoteAction(now);
      }
      if flow == Go {
        flow := ClearRetry();
      }
      flow := if flow == Abort then Go else flow;
    }

    /** Drain what is to go, kill what overstays, and shrink once everything draining is idle. */
    method DoScaleDown(state: PoolState, target: int, now: real, drainAt: real) returns (flow: Flow)
      requires Valid()
      modifies this`calls, this`notes, this`draining, this`started, this`lastActionAt, this`log, this`trail
      ensures Marked() && (flow != Dead ==> Valid()) && old(log) <= log
      ensures old(Smooth()) ==> flow == Go
      ensures old(Smooth()) && state.running <= 0 && now - old(lastActionAt) >= cfg.cooldown && AllIdle() ==>
                Since(log, |old(log)|, DownPatch(target, state.current, state.running, now)) && draining == {}
    {
      hide Logged, Since, Smooth, AllIdle;
      if state.running > 0 || now - lastActionAt < cfg.cooldown {
        return Go;
      }
      flow := DrainNew(Ordinals(target, state.current), drainAt);
      if flow != Go {
        return;
      }
      var forced: set<nat>;
      flow, forced := KillOverdue(drainAt);
      if flow != Go {
        return;
      }
      var allIdle: bool;
      flow, allIdle := CheckIdle(forced);
      if flow != Go || !allIdle {
        return;
      }
      ghost var before := log;
      flow := Shrink(state, target, now, drainAt);
      SinceEarlier(log, |before|, |old(log)|, DownPatch(target, state.current, state.running, now));
    }

    method Shrink(state: PoolState, target: int, now: real, drainAt: real) returns (flow: Flow)
      requires Valid() && state.running <= 0 && now - lastActionAt >= cfg.cooldown
      requires Ordinals(target, state.current) <= draining <= trail.cleared
      modifies this`calls, this`notes, this`draining, this`started, this`lastActionAt, this`log, this`trail
      ensures Marked() && (flow != Dead ==> Valid()) && old(log) <= log
      ensures Since(log, |old(log)|, DownPatch(target, state.current, state.running, now))
      ensures old(Smooth()) ==> flow == Go && draining == {}
    {
      hide Logged, Since, Smooth, AllIdle;
      var e := DownPatch(target, state.current, state.running, now);
      flow := Patch(e);
      if flow != Go {
        return;
      }
      flow := CallForEach(Ordinals(target, state.current));
      if flow == Dead {
        return;
      }
      ghost var patched := log;
      NoteScaleDown(drainAt);
      flow := NoteAction(drainAt);
      SinceStays(patched, log, |old(log)|, e);
      flow := if flow == Abort then Go else flow;
    }

    method NoteScaleDown(at: real)
      requires Valid()
      modifies this`draining, this`started, this`lastActionAt, this`log, this`trail
      ensures Valid() && old(log) <= log && draining == {} && lastActionAt == at
    {
      hide Logged, Since, Smooth;
      Record(DrainsDropped);
      Record(Acted(at));
      draining, started, lastActionAt := {}, map[], at;
    }

    /** Issue DRAIN for the nodes not draining yet; a refusal goes unnoticed. */
    method DrainNew(nodes: set<nat>, at: real) returns (flow: Flow)
      requires Valid()
      modifies this`calls, this`draining, this`started, this`log, this`trail
      ensures Marked() && flow != Abort && (flow != Dead ==> Valid() && nodes <= draining)
      ensures trail.lastAct == old(trail.lastAct) && old(log) <= log
      ensures old(Smooth()) ==> Smooth() && flow == Go
    {
      hide Logged, Since, Smooth, AllIdle, Marked;
      flow := Go;
      var rest := nodes - draining;
      while rest != {}
        invariant old(log) <= log && (old(Smooth()) ==> Smooth()) && flow == Go && Marked()
        invariant Valid() && rest <= nodes && nodes - draining - rest <= started.Keys && draining == old(draining)
        invariant trail.lastAct == old(trail.lastAct)
        decreases rest
      {
        var n := Pick(rest);
        rest := rest - {n};
        flow := DrainOne(n, at);
        if flow == Dead {
          return;
        }
      }
      draining := draining + nodes;
    }

    method DrainOne(n: nat, at: real) returns (flow: Flow)
      requires Valid()
      modifies this`calls, this`started, this`log, this`trail
      ensures Marked() && flow != Abort && (flow != Dead ==> Valid() && started == old(started)[n := at])
      ensures trail.lastAct == old(trail.lastAct) && old(log) <= log
      ensures flow != Dead ==> Since(log, |old(log)|, DrainTried(n, at))
      ensures old(Smooth()) ==> Smooth() && flow == Go
    {
      hide Logged, Since, Smooth, AllIdle;
      flow := Call();
      if flow == Dead {
        return;
      }
      flow := Go;
      Record(DrainTried(n, at));
      started := started[n := at];
    }

    method ReadCpu(n: nat) returns (flow: Flow, alloc: int)
      modifies this`calls
      ensures calls == old(calls) + 1 && alloc == cpuAlloc(old(calls), n)
      ensures AllIdle() ==> alloc == 0
      ensures old(Smooth()) ==> Smooth() && flow == Go
    {
      alloc := cpuAlloc(calls, n);
      flow := Call();
    }

    /** No node ever shows CPU in use. */
    ghost predicate AllIdle() {
      forall k: nat, n: nat :: cpuAlloc(k, n) == 0
    }

    /** One read since call number `first` showed no CPU in use on the node. */
    ghost predicate ReadIdle(n: nat, first: nat)
      reads this`calls
    {
      exists k: nat :: first <= k < calls && cpuAlloc(k, n) == 0
    }

    /** Cancel the jobs on, and down, every busy node that has been draining for too long. */
    method KillOverdue(at: real) returns (flow: Flow, forced: set<nat>)
      requires Valid()
      modifies this`calls, this`log, this`trail
      ensures Marked() && (flow != Dead ==> Valid())
      ensures forced <= trail.cleared && trail.lastAct == old(trail.lastAct) && old(log) <= log
      ensures flow == Go && cfg.drainTimeout > 0.0 ==>
                forall n :: n in draining && at - started[n] > cfg.drainTimeout ==>
                  n in forced || ReadIdle(n, old(calls))
      ensures old(Smooth()) ==> Smooth() && flow == Go
    {
      hide Logged, Since, Smooth, AllIdle, Marked, ReadIdle;
      flow, forced := Go, {};
      var rest := if cfg.drainTimeout > 0.0 then draining else {};
      ghost var first := calls;
      while rest != {}
        invariant Valid() && Marked() && flow == Go && rest <= draining <= started.Keys && forced <= trail.cleared
        invariant trail.lastAct == old(trail.lastAct) && old(log) <= log && (old(Smooth()) ==> Smooth())
        invariant first <= calls && (cfg.drainTimeout > 0.0 || rest == {})
        invariant cfg.drainTimeout > 0.0 ==>
          forall n :: n in draining - rest && at - started[n] > cfg.drainTimeout ==> n in forced || ReadIdle(n, first)
        decreases rest
      {
        var n := Pick(rest);
        rest := rest - {n};
        var killed: bool;
        label before:
        flow, killed := KillIfOverdue(n, at, first);
        IdleStays@before(first);
        if flow != Go {
          return;
        }
        if killed {
          forced := forced + {n};
        }
      }
    }

    twostate lemma IdleStays(first: nat)
      requires old(calls) <= calls
      ensures forall n :: old(ReadIdle(n, first)) ==> ReadIdle(n, first)
    {
    }

    /** One draining node: left alone if it is idle or has time left. */
    method KillIfOverdue(n: nat, at: real, ghost first: nat) returns (flow: Flow, killed: bool)
      requires Valid() && n in draining && cfg.drainTimeout > 0.0 && first <= calls
      modifies this`calls, this`log, this`trail
      ensures Marked() && (flow != Dead ==> Valid()) && old(calls) < calls
      ensures trail.lastAct == old(trail.lastAct) && old(log) <= log && old(trail.cleared) <= trail.cleared
      ensures killed ==> n in trail.cleared
      ensures flow == Go ==> killed || at - started[n] <= cfg.drainTimeout || ReadIdle(n, first)
      ensures old(Smooth()) ==> Smooth() && flow == Go
    {
      hide Logged, Since, Smooth, AllIdle;
      killed := false;
      var alloc: int;
      flow, alloc := ReadCpu(n);
      if flow != Go {
        return;
      }
      if alloc != 0 && at - started[n] > cfg.drainTimeout {
        flow := Call();
        if flow == Go {
          flow := Call();
        }
        if flow == Dead {
          return;
        }
        flow, killed := Go, true;
        Record(KillTried(n, at));
      }
    }

    /** Is every draining node idle, or was it killed just now? The first busy one ends the check. */
    method CheckIdle(forced: set<nat>) returns (flow: Flow, allIdle: bool)
      requires Valid() && forced <= trail.cleared
      modifies this`calls, this`log, this`trail
      ensures Marked() && (flow != Dead ==> Valid())
      ensures trail.lastAct == old(trail.lastAct) && old(log) <= log
      ensures flow == Go && allIdle ==> draining <= trail.cleared
      ensures old(Smooth()) ==> Smooth() && flow == Go
      ensures AllIdle() && flow == Go ==> allIdle
    {
      hide Logged, Since, Smooth, AllIdle;
      flow, allIdle := Go, true;
      var rest := draining;
      while rest != {} && allIdle
        invariant Valid() && flow == Go && rest <= draining && forced <= trail.cleared
        invariant trail.lastAct == old(trail.lastAct) && old(log) <= log
        invariant (old(Smooth()) ==> Smooth()) && (AllIdle() ==> allIdle)
        invariant allIdle ==> draining - rest <= trail.cleared
        decreases rest
      {
        var n := Pick(rest);
        rest := rest - {n};
        if n !in forced {
          var alloc: int;
          flow, alloc := ReadCpu(n);
          if flow != Go {
            return;
          }
          if alloc == 0 {
            Record(IdleSeen(n));
          } else {
            allIdle := false;
          }
        }
      }
    }

    /** One pass of the decision loop over the pool. */
    method ProcessPool(obs: Observation) returns (flow: Flow)
      requires Valid() && obs.rolledBackAt >= 0.0 && obs.decidedAt > 0.0
      modifies this
      ensures Marked() && (flow != Dead ==> Valid()) && old(log) <= log
      ensures old(Smooth()) && obs.known && Evaluate(cfg, obs.state).action == ScaleUp && old(provisioning).None?
              && old(retryAt) <= obs.decidedAt ==>
                && Since(log, |old(log)|, UpPatch(Evaluate(cfg, obs.state).target, obs.decidedAt))
                && flow == Go && Smooth() && RetryNote !in notes && trail.settles == old(trail.settles)
      ensures old(Smooth()) && obs.known && Evaluate(cfg, obs.state).action == ScaleDown && old(provisioning).None?
              && obs.state.running <= 0 && obs.decidedAt - old(lastActionAt) >= cfg.cooldown && AllIdle() ==>
                Since(log, |old(log)|, DownPatch(Evaluate(cfg, obs.state).target, obs.state.current,
                                                 obs.state.running, obs.decidedAt))
    {
      hide Logged, Since, Evaluate, Smooth, AllIdle;
      Record(StepBegins);
      if !obs.known {
        return Abort;
      }
      flow := Call();
      if flow != Go {
        return;
      }
      flow := CheckProvisioning(obs);
      if flow != Go {
        return;
      }
      flow := Call();
      if flow != Go {
        return;
      }
      var decision := Evaluate(cfg, obs.state);
      match decision.action
      case Keep =>
      case ScaleDown =>
        ghost var before := log;
        flow := DoScaleDown(obs.state, decision.target, obs.decidedAt, obs.drainAt);
        SinceEarlier(log, |before|, |old(log)|,
                     DownPatch(decision.target, obs.state.current, obs.state.running, obs.decidedAt));
      case ScaleUp =>
        TargetAbove(cfg, obs.state);
        ghost var before := log;
        flow := Grow(obs.state, decision.target, obs.decidedAt);
        SinceEarlier(log, |before|, |old(log)|, UpPatch(decision.target, obs.decidedAt));
    }

    /** A scale-up is wanted: not during a back-off, and not while another one is in flight. */
    method Grow(state: PoolState, target: int, now: real) returns (flow: Flow)
      requires Valid() && now > 0.0 && target > state.current
      modifies this`calls, this`marker, this`notes, this`provisioning, this`retryAt, this`draining, this`started,
               this`lastActionAt, this`log, this`trail
      ensures Marked() && (flow != Dead ==> Valid()) && old(log) <= log
      ensures old(Smooth()) && old(provisioning).None? && old(retryAt) <= now ==>
                && Since(log, |old(log)|, UpPatch(target, now))
                && flow == Go && Smooth() && RetryNote !in notes && trail.settles == old(trail.settles)
      ensures old(provisioning).Some? || old(retryAt) > now ==> log == old(log) && marker == old(marker)
    {
      hide Logged, Since, Smooth, AllIdle;
      flow := Go;
      if retryAt <= now && provisioning.None? {
        if retryAt != 0.0 {
          flow := EndBackoff(now);
          if flow == Dead {
            return;
          }
        }
        ghost var before := log;
        flow := DoScaleUp(state, target, now);
        SinceEarlier(log, |before|, |old(log)|, UpPatch(target, now));
      }
    }

    method EndBackoff(now: real) returns (flow: Flow)
      requires Valid() && retryAt <= now
      modifies this`calls, this`notes, this`retryAt, this`log, this`trail
      ensures Marked() && (flow != Dead ==> Valid()) && old(log) + [BackoffOver(now)] <= log && retryAt == 0.0
      ensures trail.settles == old(trail.settles) && (old(Smooth()) ==> Smooth() && flow == Go)
    {
      hide Logged, Since, Smooth, AllIdle;
      Record(BackoffOver(now));
      retryAt := 0.0;
      flow := ClearRetry();
    }

    /** Any life of the operator, crashes and restarts included: scale-ups are serialised as long as
        start-ups can read the marker, and the pool is only ever shrunk by drained nodes. */
    method Run(stimuli: seq<Stimulus>)
      requires Valid()
      requires forall i :: 0 <= i < |stimuli| ==> StimulusOk(stimuli[i], reliable)
      modifies this
      ensures Marked() && DrainedShrinks(log) && (reliable ==> SerialScaleUps(log))
    {
      hide Logged, DrainedShrinks, SerialScaleUps;
      var alive := Go;
      for i := 0 to |stimuli|
        invariant Marked() && (alive != Dead ==> Valid())
      {
        assert StimulusOk(stimuli[i], reliable);
        match stimuli[i]
        case CrashAndRestart(at, readings) =>
          alive := Restart(at, readings);
        case Reconcile(obs) =>
          // A dead process reconciles nothing.
          if alive != Dead {
            alive := ProcessPool(obs);
          }
      }
      LogMeans();
    }

    lemma TrailIsTrack()
      requires Marked()
      ensures trail == Track(log)
    {
    }

    lemma LogMeans()
      requires Logged()
      ensures DrainedShrinks(log) && (reliable ==> SerialScaleUps(log))
    {
      hide Accepted, Track, AlwaysRead, DrainedShrinks, SerialScaleUps;
      AcceptedMeans(cfg.cooldown, cfg.drainTimeout, log);
    }
  }

  /** The exception is real: a start-up that misses the marker, or to which reading it raises, forgets the scale-up
      in flight, and the next reconcile starts another one before the first is ready. */
  method ForgottenScaleUp(reading: Reading) returns (pool: Pool)
    requires !reading.Read?
    ensures fresh(pool) && pool.Marked() && !SerialScaleUps(pool.log)
  {
    hide SerialScaleUps, Since, Track, Pool.Valid, Pool.Marked, Pool.Logged, Evaluate;
    var cfg := PoolConfig(0, 4, 1, 1, 60.0, 0.0);
    pool := new Pool(cfg, 600.0, 60.0, (k: nat) => Succeeds, (k: nat, n: nat) => 0, false);
    assert pool.Smooth();
    var first, second := PoolState(0, 1, 1, 0, 0), PoolState(1, 1, 1, 0, 0);
    OneMore(cfg, first);
    OneMore(cfg, second);
    var _ := pool.ProcessPool(Observation(true, first, 0, 1.0, 1.0, 1.0, 1.0));
    ghost var one := pool.log;
    var _ := pool.Restart(2.0, Readings(Read, Read, reading, Read));
    ghost var two := pool.log;
    SinceStays(one, two, 0, UpPatch(1, 1.0));
    var _ := pool.ProcessPool(Observation(true, second, 0, 3.0, 3.0, 3.0, 3.0));
    assert pool.log[..|two|] == two;
    pool.TrailIsTrack();
    TwoPatchesNotSerial(pool.log, |two|, UpPatch(1, 1.0), UpPatch(2, 3.0));
  }

  lemma OneMore(cfg: PoolConfig, s: PoolState)
    requires cfg == PoolConfig(0, 4, 1, 1, 60.0, 0.0) && s.scalePending == 1 && s.current <= 1
    ensures Evaluate(cfg, s) == Decision(s.current + 1, ScaleUp)
  {
  }

  lemma TargetAbove(cfg: PoolConfig, s: PoolState)
    requires Evaluate(cfg, s).action == ScaleUp
    ensures Evaluate(cfg, s).target > s.current
  {
  }

  /** The clock shows times after the epoch, and reads of the marker do not fail if they cannot. */
  predicate StimulusOk(s: Stimulus, reliable: bool) {
    match s
    case Reconcile(obs) => obs.rolledBackAt >= 0.0 && obs.decidedAt > 0.0
    case CrashAndRestart(at, readings) => at >= 0.0 && (reliable ==> readings.marker.Read?)
  }
}
