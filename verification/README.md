# Verified model of the MPS scheduler, simulator and elastic operator

This project models the parts of the system where a property holds only over whole runs, and proves those
properties. It is written in the form of the code it models: the cluster, the simulator, the gym
environment, the operator, the event queue, the Slurm queue, the sum tree, the replay buffers and the
fragmentation decider are classes whose methods change state and are proved against functions and predicates
on values; planners, drains and sweeps are methods with loops; policies and orderings are pure functions.

| file | component |
|---|---|
| `ClusterModel`, `ClusterPlanning`, `Cluster` | the MPS + host-RAM allocator: conservation, planner completeness and optimality, the mutable cluster |
| `SimModel`, `SimTiming`, `SimRun`, `Runner`, `Metrics` | the discrete-event simulator: stages of a job, clock, utilisation meter, progress, the event loop, the summary |
| `SingleServer` | two runs of the simulator followed step by step, on one GPU with jobs that fill it |
| `GymActions`, `GymEnv` | the scheduling environment: action codes, mask, steps, episodes |
| `Policy`, `OperatorLog`, `Operator` | the scaling policy; a log of what the operator did to a pool and a monitor that judges it; the operator itself, whose calls may fail or be its last |
| `EventQueue` | the deduplicating event queue under every interleaving |
| `RankPending`, `Reorder` | ranking with an untrusted policy; the priority reorder transaction |
| `SumTree`, `Replay` | the sum tree for any capacity; replay rings and prioritised sampling |
| `Fragmentation`, `VictimSets`, `FragmentationReconciler` | blocked jobs, victims and the rate limiter; what a requeue does to the cluster and how few victims it takes; the whole tick |
| `DrainSchedule`, `SweepLine` | the arrival-aware drain of two nodes; peak demand |
| `Sums`, `Sorting`, `Arithmetic`, `Wrappers` | finite sums and the exchange argument, the stable sort, division with remainder, Option and Result |

How the model stands in for the code:

- Schedulers, latency models, runtime noise, the ranking policy and random draws are arbitrary functions that
  may depend on a call counter, so that every statement is about all of them.
- Calls to Kubernetes, Slurm and annotations get their outcome from an arbitrary function of the call number:
  success, an exception before or after taking effect, and for the operator also the death of the process
  before or after taking effect.
- Times, host RAM and priorities in the sum tree are exact reals; the 1e-9 and 1e-6 slacks that absorb rounding
  are dropped.
- Job, node and pool names are numbers, since the code only compares them (FCFS and the detector also use
  their order to break ties).
- A heap of `(time, sequence number, ...)` entries is a list kept sorted by the same key.
- Two things are assumed of the Slurm queue while a reorder is under way: jobs that arrive have priorities
  outside the owned band, and nobody but the transaction changes the priority of a job that is there. Without the
  first, no release could leave the band empty; without the second, no priority written would mean anything. Both
  are built into how the queue of `Reorder` moves.
- An entry of the operator's log for a drain, a kill or a patch says that the call was made; whether it was heard
  is left open, as in the code, which does not look.
- A collection of the cluster's state that raises ends that turn of the operator's loop, and with it the wake-up
  that was being served, until the timer or the next event; it counts as the collection in `EventQueue`.
- What the code relies on its callers for is a precondition: distinct job ids, no allocation of an id that is
  already active, nonnegative host RAM; at least one slot per job and per GPU where the gym environment counts
  co-residents; nonnegative submission times and runtimes where a statement is about time.

Where code and documentation differ, the model follows the code:

- The reported utilisation is averaged from time zero to the last event, not over the makespan that is reported
  beside it. `Metrics.UtilizationOverMakespan` states exactly when the two agree, `Metrics.Simulate` says it of
  the trace (some job is submitted at time zero), and `SingleServer.LateFirstSubmission` is a run in which they
  do not.
- The backfill rate is documented to count jobs that started before an earlier submission, but the code also
  counts a job submitted together with one listed before it. FCFS never starts a later submission first, yet a
  tie whose lower id is listed last can be counted (`SingleServer.TiedOvertaking`). Nobody else is
  (`Metrics.OnlyTiesOvertake`), and nobody at all if jobs submitted together are listed by id
  (`Metrics.SimulateFcfs`).
- The two planners agree except for a job that asks for no GPU on a cluster without GPUs
  (`ClusterPlanning.PlannersAgree` states exactly when).
- The decider promises the minimum set of victims that would unblock the target, on the node where the fewest
  jobs have to go. It frees the target's whole request rather than what is missing, and goes for the node with
  most to give in all, and either can make the pick too large: `FragmentationReconciler.TwoWhereOneWouldDo` and
  `FragmentationReconciler.OneElsewhereWouldDo` are ticks in which it is. `VictimSets.FewestExactly` states exactly
  when the pick is the minimum over the cluster, `VictimSets.FewestByCount` in numbers of jobs.
- A minimum interval above one hour is not honoured, because older decisions are forgotten
  (`Fragmentation.SpacingExact`, and `FragmentationReconciler.TooSoon` for two decisions that breach it).
- `clamp` returns its lower bound when the bounds are crossed (`Policy.ClampNearest`), and the policy asks for
  fewer replicas while jobs run exactly when jobs wait for resources in a pool above its maximum
  (`Policy.ShrinksWhileRunning`); the guard in the scale-down step is what stops it.
- Scale-ups are meant to be one at a time, but a start-up that cannot read the marker of a scale-up in flight
  forgets it: the marker is erased if reading it raises, and left where it is if the client reports it missing
  (`Operator.ForgottenScaleUp` covers both); that is the only exception (`OperatorLog.ScaleUpsAreSerial`).
- A draw of exactly zero lands on the first slot in tree order, filled or not
  (`SumTrees.SumTree.SampleOne` states exactly when the slot hit has a positive priority).

## Model

| member | source | states |
|---|---|---|
| ClusterModel.AddPlanAt | sim/cluster.py:139-142 | taking or giving back a plan changes every GPU by exactly what the plan holds there, and no other |
| ClusterModel.ReserveKeeps | sim/cluster.py:135-150 | granting a fresh job a valid plan keeps the books: on each GPU free plus held slots make the capacity, on each node used RAM is the sum over the jobs touching it and within the overcommitted budget |
| ClusterModel.RefundExact | sim/cluster.py:175-177 | the clamp at zero of a RAM refund never fires |
| ClusterModel.FreeKeeps | sim/cluster.py:167-177 | release keeps the books, for known and unknown ids |
| ClusterModel.IdleIsInitial | sim/cluster.py:167-177 | a cluster with no active job is the initial cluster |
| ClusterModel.RunConserves | sim/cluster.py:135-177 | conservation after every interleaving of allocations and releases, and the initial cluster whenever the last job is gone |
| Sums.TopSetIsBest | sim/cluster.py:244-262 | taking the largest first is optimal: no set of at most as many elements is worth more |
| ClusterPlanning.PlacementBound | sim/cluster.py:223-262 | no placement uses more GPUs than its nodes have usable ones |
| ClusterPlanning.FewerNodesNotEnough | sim/cluster.py:244-262 | any placement needs more nodes than a set of top-ranked nodes that is still short |
| ClusterPlanning.ValidPlanIsPlacement | sim/cluster.py:180-262 | every plan returned is a placement on as many nodes as it has allocations |
| ClusterPlanning.PlannersAgree | sim/cluster.py:128-262 | the free planner succeeds iff some GPU is acceptable to the pinned one, exactly unless the job wants no GPU and there is none |
| ClusterPlanning.RefusalMonotone | sim/cluster.py:101-109 | a job that cannot be placed cannot be placed on a fuller cluster |
| ClusterPlanning.GrantKeepsRefusals | sim/cluster.py:135-145 | whatever was refused stays refused after another grant |
| ClusterPlanning.ReserveUses | sim/cluster.py:115-119 | a grant raises the slots in use by exactly the job's slots |
| ClusterPlanning.FreeReturns | sim/cluster.py:167-174 | a release lowers them by what the job held |
| ClusterObject.RankByCount | sim/cluster.py:245-248 | every node once, most whole GPUs first, ties in index order |
| ClusterObject.Cluster.constructor | sim/cluster.py:88-99 | a fresh cluster is the initial one and keeps the books |
| ClusterObject.Cluster.FindFraction | sim/cluster.py:226-239 | fails iff no GPU can host the part; else the first node with room and on it the tightest fit, lowest index first |
| ClusterObject.Cluster.FindWhole | sim/cluster.py:241-262 | fails only if no placement exists; else a valid plan on the fewest nodes any placement can do with, filling ranked nodes up |
| ClusterObject.Cluster.FindPlan | sim/cluster.py:223-262 | succeeds iff a placement exists, with a valid plan on the fewest nodes; a part goes where it fits tightest, whole GPUs fill the richest nodes first |
| ClusterObject.Cluster.FindWholeOn | sim/cluster.py:201-221 | fails only if no placement exists anywhere; starts at the named GPU if that is usable, and uses up the named node before any other |
| ClusterObject.Cluster.FindPlanOn | sim/cluster.py:180-221 | succeeds iff the named GPU takes the part, or for whole GPUs iff any placement exists, named GPU and node first; an out-of-range GPU is refused |
| ClusterObject.Cluster.CanAllocate | sim/cluster.py:128-129 | true iff a placement exists |
| ClusterObject.Cluster.CanAllocateOn | sim/cluster.py:131-133 | true iff the pinned planner can place the job |
| ClusterObject.Cluster.ShiftSlots | sim/cluster.py:139-142 | the in-place loop over GPUs computes the plan's effect on the free slots |
| ClusterObject.Cluster.ReserveRam | sim/cluster.py:147-150 | each distinct host is charged once, whatever the order |
| ClusterObject.Cluster.TryAllocate | sim/cluster.py:135-145 | grants iff a placement exists, with the exact new state for a plan the planner prefers; a refusal changes nothing |
| ClusterObject.Cluster.TryAllocateOn | sim/cluster.py:152-165 | the same for the pinned planner |
| ClusterObject.Cluster.Release | sim/cluster.py:167-177 | gives back exactly what was taken; unknown ids change nothing |
| SimModel.PushIds | sim/runner.py:90-91 | pushing an event keeps the queue sorted by time and sequence number, one event per job |
| SimModel.RemoveIds | sim/runner.py:86 | removing a started job takes exactly that job out of the queue |
| SimModel.HandleKeepsStages | sim/runner.py:95-103 | after an event every job is still in exactly one of unsubmitted, pending, active and done, and queue, records and cluster agree on which |
| SimModel.DispatchKeepsStages | sim/runner.py:84-91 | the same after a dispatch, whatever the latency |
| SimTiming.HandleKeepsTime | sim/runner.py:95-103 | an event never turns the clock back, sets it to the time of a submission or an end, and ends come exactly one runtime after starts |
| SimTiming.DispatchKeepsTime | sim/runner.py:84-91 | a dispatch happens between submission and start, and queues the end in the future |
| SimTiming.UtilizationShare | sim/cluster.py:121-122 | the utilisation fraction times all slots is the slots in use, also on an empty cluster |
| SimTiming.ClockKeepsMeter | sim/runner.py:96-105 | while the clock moves, sampled area and delivered slot-seconds grow by the same amount |
| SimTiming.EndKeepsMeter | sim/runner.py:100-103 | an end keeps that account |
| SimTiming.DispatchKeepsMeter | sim/runner.py:84-91 | so does a dispatch |
| SimRun.HandleLightens | sim/runner.py:95-103 | every event lowers 3 * unsubmitted + 2 * pending + active by one |
| SimRun.DispatchLightens | sim/runner.py:84-91 | so does every dispatch |
| SimRun.FitsAlone | sim/cluster.py:101-109 | whatever fits a loaded cluster fits the empty one |
| SimRun.HandleKeepsFifo | sim/runner.py:95-103 | an event keeps that order too: whoever has been submitted is ahead of whoever has not |
| SimRun.DispatchKeepsFifo | sim/runner.py:84-91 | starting the first of the queue, by submission and, if jobs are queued that way, by id, keeps the order of starts in line with the order of the queue |
| SimRun.HandleKeepsRun | sim/runner.py:95-103 | the whole run invariant over one event |
| SimRun.DispatchKeepsRun | sim/runner.py:84-91 | the whole run invariant over one dispatch, and refusals stand |
| SimRun.RunDrains | sim/runner.py:95-108 | an empty queue means a pristine cluster, all jobs done if each fits alone, and under backfill exactly those done that fit alone |
| Runner.FcfsSchedules | sim/scheduler/fcfs.py:14-15 | the FCFS order is a permutation of the pending jobs in order of submission, and of id among those submitted together |
| Runner.TiesStayListed | sim/runner.py:74 | sorting by submission time alone leaves jobs submitted together in the order in which they are listed |
| Runner.SubmitEvents | sim/runner.py:72-76 | one submit event per job, at its submission time |
| Runner.Simulator.constructor | sim/runner.py:57-79 | the initial state satisfies the run invariant, with the submissions queued by time and, among equals, as listed |
| Runner.Simulator.StartIfFits | sim/runner.py:85-93 | a job of the walk starts iff a placement exists, and everything passed over stays infeasible |
| Runner.Simulator.RecordStart | sim/runner.py:86-91 | the bookkeeping of a start: record, queue its end, leave the queue |
| Runner.Simulator.TryDispatch | sim/runner.py:81-93 | afterwards no pending job fits under backfill, and without it some pending job does not if any is left; the walk takes the jobs in the scheduler's order, starts each iff it fits as the last left the cluster, after the latency the model gives, and stops early only without backfill, at the first that does not fit |
| Runner.Simulator.TakeEvent | sim/runner.py:96-102 | pops the least event and applies it |
| Runner.Simulator.Step | sim/runner.py:95-105 | one turn of the loop is the least event, then that walk over the order computed for the state after it, then a sample of the cluster as it is; it keeps the invariant and makes progress |
| Runner.Simulator.Run | sim/runner.py:95-108 | the run ends, drained; FCFS never starts a later submission first, nor, of jobs queued by id, a later id; total slots times sampled area is the slot-time delivered |
| Metrics.MeanUtilization | sim/metrics.py:88-98 | the loop computes area over elapsed time |
| Metrics.UtilizationIsWork | sim/metrics.py:88-98 | reported utilisation times slots times the time of the last event is the slot-time delivered to all started jobs |
| Metrics.UtilizationOverMakespan | sim/metrics.py:9 | the reported utilisation is the documented mean over the makespan iff the first submission is at time zero and the last event is an end, given work; without work both are zero |
| Metrics.LastEventIsEnd | sim/metrics.py:85-98 | if every job finishes the last event is an end, so that it comes down to some job being submitted at time zero |
| Metrics.WorkDone | sim/metrics.py:88-98 | one job that holds slots for a time is work |
| Metrics.WorkWithoutLatency | sim/metrics.py:88-98 | in a run without latency that slot-time is slots times runtime, summed over the jobs started |
| Metrics.CountBackfills | sim/metrics.py:99-108 | counts exactly the jobs that started before an earlier submission did |
| Metrics.OnlyTiesOvertake | sim/metrics.py:99-108 | under FCFS, whoever is counted was submitted together with a job listed before it that started later |
| Metrics.FcfsNeverBackfills | sim/metrics.py:99-108 | nobody is counted if jobs submitted together are listed by id, whoever finished |
| Metrics.ListFinished | sim/metrics.py:80-100 | the finished records in order of submission, each once, equals as listed |
| Metrics.Summarize | sim/metrics.py:79-108 | nothing iff nobody finished; else how many did, latest end less earliest submission, the time-weighted mean and the number of overtakers |
| Metrics.Simulate | sim/runner.py:35-108 | trace to summary, any scheduler: utilisation accounts for the work; everything completes if each job fits alone, and then, with work to do, the utilisation is the mean over the makespan iff some job is submitted at time zero |
| Metrics.SimulateFcfs | sim/scheduler/fcfs.py:10-15 | an FCFS run with constant latency never starts a later submission first and counts only jobs submitted together with one listed before them, and none if those are listed by id |
| SingleServer.BusyRefuses | sim/cluster.py:101-109 | with whole-GPU jobs on one GPU nothing fits while anything runs |
| SingleServer.WalkServes | sim/runner.py:81-93 | there a dispatch starts the first of the queue if the GPU is idle, and nothing else |
| SingleServer.OneTurn | sim/runner.py:95-105 | there one turn of the loop is one turn of a single-server queue |
| SingleServer.TiedOvertaking | sim/metrics.py:99-108 | a run followed turn by turn: of two jobs submitted together the one listed last has the lower id, goes first and is counted |
| SingleServer.LateFirstSubmission | sim/metrics.py:88-98 | a run whose only job is submitted late: the utilisation reported is not the mean over the makespan |
| GymActions.DecodeEncode | sim/gym_env.py:627-642 | every choice in range has a code below the no-op and decoding returns it |
| GymActions.EncodeDecode | sim/gym_env.py:627-642 | every code below the no-op decodes to a choice in range with that code |
| GymEnv.IdleMeansAlone | sim/gym_env.py:526-532 | nobody holds a GPU all of whose slots are free |
| GymEnv.IsolatedLandsAlone | sim/gym_env.py:754-763 | a legal isolating choice lands with zero co-residents |
| GymEnv.MaskMeansSchedulable | sim/gym_env.py:513-535 | the mask allows what a step would schedule, except an isolating choice of a GPU that is not idle; with one mode it is exactly that |
| GymEnv.HandleKeepsEnv | sim/gym_env.py:470-475 | an event keeps the environment invariant, never turns the clock back and makes progress |
| GymEnv.DispatchKeepsEnv | sim/gym_env.py:453-459 | so does a placement, for any positive realised runtime |
| GymEnv.MovesOn | sim/gym_env.py:649-662 | with jobs left, a policy that never idles schedules something or an event is left |
| GymEnv.KubefluxSchedEnv.constructor | sim/gym_env.py:401-435 | reset reaches a first decision with at most three steps of work per job |
| GymEnv.KubefluxSchedEnv.PopEvent | sim/gym_env.py:469-475 | one event: one unit of progress, clock not turned back, completions counted |
| GymEnv.KubefluxSchedEnv.AnyFits | sim/gym_env.py:653-656 | true iff some pending job, in or outside the window, has a placement |
| GymEnv.KubefluxSchedEnv.AdvanceToDecision | sim/gym_env.py:649-662 | stops when a pending job fits or no event is left; every event on the way was handled while no pending job fitted |
| GymEnv.KubefluxSchedEnv.ActionMask | sim/gym_env.py:513-535 | the loops set exactly the legal actions |
| GymEnv.KubefluxSchedEnv.Place | sim/gym_env.py:452-459 | places iff the pinned planner can |
| GymEnv.KubefluxSchedEnv.Step | sim/gym_env.py:437-480 | schedules iff the action names a job of the window and a GPU that takes it, and else handles one event; lands isolated choices alone; then only handles events while nothing fits; makes progress, ends the episode iff all is done |
| GymEnv.KubefluxSchedEnv.Episode | sim/gym_env.py:437-480 | any policy that never idles finishes all n jobs in at most 3n steps with a nondecreasing clock and a pristine cluster |
| Policy.ClampNearest | operator/policy.py:12-13 | the nearest point of the range; above the upper bound iff the bounds are crossed |
| Policy.DecisionsAreBounded | operator/policy.py:20-58 | when the policy grows or shrinks a pool and how far |
| Policy.ShrinksWhileRunning | operator/policy.py:27-50 | exactly when it asks for fewer replicas while jobs run |
| OperatorLog.ScaleUpsAreSerial | operator/reconciler.py:291-316 | between two upward patches the earlier one reached readiness or was rolled back, unless a start-up could not read the marker |
| OperatorLog.TwoPatchesNotSerial | operator/reconciler.py:291-316 | two upward patches in a log in which nothing was ever settled are not serial |
| OperatorLog.DrainBeforeShrink | operator/scale_actions.py:156-223 | a downward patch: no running jobs, and for each node removed a drain was tried and then, in that step, it was seen idle or a kill was tried |
| OperatorLog.KilledLate | operator/scale_actions.py:188-206 | no kill is tried before draining for strictly longer than the timeout |
| OperatorLog.CooldownKept | operator/scale_actions.py:138-154 | no downward patch within the cooldown of a scale action of the same life |
| OperatorLog.CooldownSurvives | operator/app.py:193-206 | nor, across any crashes and restarts that could read the note, within the cooldown of an action whose note was written |
| OperatorLog.CooldownSurvivesInMarker | operator/app.py:220-224 | nor of a scale-up still open at a restart, whose marker serves as the note |
| OperatorLog.BackoffKept | operator/reconciler.py:279-280 | no upward patch before the back-off of a rollback is over |
| OperatorLog.BackoffSurvives | operator/app.py:237-250 | nor, across any crashes and restarts that could read the note, before the end of a back-off whose note was written |
| OperatorLog.AcceptedMeans | operator/scale_actions.py:42-238 | a log the monitor accepts serialises scale-ups and drains before it shrinks |
| Operator.Pool.WriteMarker | operator/scale_actions.py:72-80 | the marker is the new one or, only if the call did not succeed, the old one |
| Operator.Pool.ReadMarker | operator/app.py:208-235 | a valid marker becomes the scale-up in flight again; one that makes no sense is dropped, and so is one whose reading raises; one that is missed stays, unused |
| Operator.Pool.ReadAction | operator/app.py:193-206 | the last action is that of its note, of the older note if that is missed or missing, or none |
| Operator.Pool.Restart | operator/app.py:193-250 | after a crash at any point, whatever annotations can be read, the process comes back knowing of every open scale-up whose marker was read, of the last action noted or marked, and of a back-off noted and still ahead |
| Operator.Pool.CheckProvisioning | operator/reconciler.py:55-110 | settles on readiness, rolls back on timeout, else leaves the scale-up in flight alone |
| Operator.Pool.Settle | operator/reconciler.py:57-89 | readiness clears the scale-up in memory and, if calls succeed, its marker |
| Operator.Pool.RollBack | operator/reconciler.py:90-110 | a timeout patches back, clears the scale-up and starts the back-off |
| Operator.Pool.DoScaleUp | operator/scale_actions.py:42-103 | marker before memory before patch, at whatever call the process dies; the patch goes out if calls succeed |
| Operator.Pool.DoScaleDown | operator/scale_actions.py:119-238 | shrinks only as the monitor allows, and does shrink if nothing runs, the cooldown is over and all nodes are idle |
| Operator.Pool.DrainNew | operator/scale_actions.py:158-174 | every node to go is draining with a start time |
| Operator.Pool.KillOverdue | operator/scale_actions.py:188-206 | kills only nodes over the timeout, and, unless a call fails, every one of them that it does not read as idle |
| Operator.Pool.CheckIdle | operator/scale_actions.py:218-221 | answers yes only if every draining node was seen idle or killed in this step |
| Operator.Pool.NoteAction | operator/scale_actions.py:88-99 | the note is written, or the call did not succeed; a note is always of what was done |
| Operator.Pool.ProcessPool | operator/reconciler.py:46-322 | one reconcile keeps the invariant whatever fails; if nothing fails the decision is carried out |
| Operator.Pool.Grow | operator/reconciler.py:279-316 | no patch during a back-off or while a scale-up is in flight; otherwise the patch goes out if calls succeed |
| Operator.Pool.Run | operator/reconciler.py:46-322 | over any sequence of reconciles, crashes and restarts: serial scale-ups, drain before shrink |
| Operator.ForgottenScaleUp | operator/app.py:208-235 | the exception is real: reconcile, a start-up that misses the marker or to which reading it raises, reconcile - and two scale-ups of the pool overlap |
| EventQueue.StepKeepsTokens | operator/app.py:92-108 | a key is pending iff exactly one token of it is with a producer, in the queue or with the consumer |
| EventQueue.QueueHasNoDuplicates | operator/app.py:92-99 | the queue holds at most one entry per pool |
| EventQueue.NoLostWakeUp | operator/app.py:363-378 | a put, refused or not, is followed by a discard of its key and then by the collection for it, which may raise, before the key is idle again |
| EventQueue.FirstInFirstOut | operator/app.py:98-108 | an entry with p others before it is the (p+1)-st to be dequeued |
| EventQueue.PoolEventQueue.PutLocked | operator/app.py:92-97 | refuses iff the key is pending |
| EventQueue.PoolEventQueue.PutQueue | operator/app.py:98-99 | one producer under way enters the queue |
| EventQueue.PoolEventQueue.GetQueue | operator/app.py:101-105 | takes the oldest entry |
| EventQueue.PoolEventQueue.GetLocked | operator/app.py:106-108 | the key is free again |
| EventQueue.PoolEventQueue.Interleave | operator/app.py:87-108 | every schedule of these steps is a run in which no key is under way twice |
| RankPending.RemoveSorted | services/rl_scheduler/reorder_daemon.py:130 | the sort is stable under removal: the others stay in order |
| RankPending.PolicyPick | services/rl_scheduler/reorder_daemon.py:140-152 | honours the answer iff it names a waiting job of the window and a node it may use and fits |
| RankPending.OldestFit | services/rl_scheduler/reorder_daemon.py:170-178 | the first job of the window that fits a node, on the first such node; none iff nothing fits |
| RankPending.NextPick | services/rl_scheduler/reorder_daemon.py:140-178 | the policy's pick or, unless strict, the oldest that fits; none only if there is none |
| RankPending.TakeTracked | services/rl_scheduler/reorder_daemon.py:183-184 | the picks so far fit at the same time |
| RankPending.Rank | services/rl_scheduler/reorder_daemon.py:114-185 | an error, or a permutation in which the job at position i has oldest-first rank at most i + 15, the picks fit at the same time, and in strict mode each is the job and node of the policy's own answer, up to its no-op; every error says what went wrong, and with no deadline passed and a policy that always names a feasible choice or the no-op there is none |
| Reorder.Slurm.SetPriority | services/rl_scheduler/reorder_daemon.py:242-249 | changes at most the one job, and for sure if the call succeeds and the job is still there |
| Reorder.ResetOwned | services/rl_scheduler/reorder_daemon.py:252-273 | success leaves no pending job in the owned band, and only jobs from the band are touched |
| Reorder.RestoreCycle | services/rl_scheduler/reorder_daemon.py:276-292 | success gives every ranked job still pending its former priority |
| Reorder.WriteRanking | services/rl_scheduler/reorder_daemon.py:333-356 | success leaves every ranked job still pending at the priority of its rank |
| Reorder.RankOrderMeans | services/rl_scheduler/reorder_daemon.py:34-36 | those priorities are distinct, inside the band and sort as ranked |
| Reorder.RankQueue | services/rl_scheduler/reorder_daemon.py:320-329 | the strict ranking of what was read: every job once, bypass bounded, the policy's own picks; none only if it is late or the policy misbehaves |
| Reorder.ReorderCycle | services/rl_scheduler/reorder_daemon.py:295-369 | the whole transaction against a queue that keeps moving: nothing, all, or rolled back and released; what is written is a ranking of the queue as read in which the job at position i has oldest-first rank at most i + 15 and the picks fit at the same time; priorities are restored if the rollback succeeds, whatever becomes of the release; jobs neither ranked nor in the band never touched; no failure if every call succeeds and nothing changes late |
| SumTrees.TreeOrder | services/rl_scheduler/rlpd_finetune.py:41-50 | left to right the tree lists the slots in rotated order, for every capacity |
| SumTrees.OrderSumsAll | services/rl_scheduler/rlpd_finetune.py:52-57 | summing in that order is summing all priorities |
| SumTrees.IntervalsTile | services/rl_scheduler/rlpd_finetune.py:59-68 | the intervals of the slots tile (0, total], each as long as its priority |
| SumTrees.SumTree.Update | services/rl_scheduler/rlpd_finetune.py:52-57 | sets one priority and restores every sum |
| SumTrees.SumTree.Root | services/rl_scheduler/rlpd_finetune.py:70-72 | the root is the sum of all priorities |
| SumTrees.SumTree.MaxPriority | services/rl_scheduler/rlpd_finetune.py:74-77 | the largest priority, or 1 while all are zero |
| SumTrees.SumTree.SampleOne | services/rl_scheduler/rlpd_finetune.py:59-68 | returns the one slot that owns the draw; when the slot hit has a positive priority |
| Replay.RingAdd | services/rl_scheduler/rlpd_finetune.py:233-246 | the ring holds the latest additions, the k-th at k modulo capacity |
| Replay.SlotIsRecent | services/rl_scheduler/rlpd_finetune.py:248-256 | every filled slot holds one of the latest additions |
| Replay.ReplayBuffer.Add | services/rl_scheduler/rlpd_finetune.py:233-246 | the addition displaces the oldest one |
| Replay.ReplayBuffer.Sample | services/rl_scheduler/rlpd_finetune.py:248-256 | only recent transitions are drawn |
| Replay.PrioritizedReplay.Add | services/rl_scheduler/rlpd_finetune.py:122-138 | exactly the filled slots keep a positive priority; the new one is the power of the largest |
| Replay.PrioritizedReplay.Sample | services/rl_scheduler/rlpd_finetune.py:145-155 | every draw hits a filled slot with positive priority, and a slot with a share of s strata is hit between floor(s) - 1 and ceil(s) + 1 times |
| Replay.PrioritizedReplay.UpdatePriorities | services/rl_scheduler/rlpd_finetune.py:176-182 | each slot has the last priority written for it |
| Replay.CountBetween | services/rl_scheduler/rlpd_finetune.py:147-155 | how many strata can and must hit an interval |
| Fragmentation.GroupByNode | operator/fragmentation.py:156-159 | a job is listed under exactly its nodes, once if it is listed and names them once |
| Fragmentation.Detector.VictimsOn | operator/fragmentation.py:162-190 | exactly the eligible victims; that the target already fits there cannot happen |
| Fragmentation.Detector.TakeSnapshot | operator/fragmentation.py:130-198 | exactly the pending jobs that fit nowhere, most urgent first, each as often as it is pending; and exactly the victims of lower priority by more than the gap, each listed once per target and node if no job is listed or names a node twice |
| Fragmentation.PickVictims | operator/fragmentation.py:288-304 | the walk takes distinct victims off the top until it has enough, may take no more or has all: exactly the first so many of the list |
| Fragmentation.FewestVictims | operator/fragmentation.py:275-304 | no set of fewer eligible victims on the node frees the request |
| Fragmentation.MostFreed | operator/fragmentation.py:275-304 | no set of at most as many eligible victims frees more, even where the request is out of reach |
| Fragmentation.MinimalToUnblock | operator/fragmentation.py:267-304 | among the victims of its own node, the pick unblocks with the fewest possible iff the number of largest victims that free what is missing there is the number at which the walk stops |
| Fragmentation.BestNode | operator/fragmentation.py:278-285 | no other node's candidates free more in all |
| Fragmentation.TrimRemembers | operator/fragmentation.py:236-238 | trimming forgets only what no later decision has to look at |
| Fragmentation.DecisionKeeps | operator/fragmentation.py:240-246 | a decision let through keeps every one-hour window within the limit |
| Fragmentation.NextWithinWindow | operator/fragmentation.py:240-246 | the decisions of the last hour are all remembered, so there is room for one more |
| Fragmentation.SpacingExact | operator/fragmentation.py:240-246 | the minimum interval is honoured iff it is at most an hour |
| Fragmentation.LogWithinLimits | operator/fragmentation.py:201-246 | at most the permitted number of decisions in any closed hour, over any sequence of calls |
| Fragmentation.Decider.RateLimit | operator/fragmentation.py:236-246 | the verdict for a trimmed history |
| Fragmentation.Decider.Choose | operator/fragmentation.py:275-304 | the victims for a target, on the node that frees most |
| Fragmentation.Decider.Decide | operator/fragmentation.py:248-322 | which verdict when, whom it names, and that the limits hold over all calls so far |
| VictimSets.PickIsBest | operator/fragmentation.py:275-304 | in terms of jobs: no smaller set of running jobs on the node, outweighed by more than the gap, holds the request; none of that size holds more |
| VictimSets.RequeueUnblocks | operator/fragmentation.py:267-322 | on the nodes as they are with the victims gone the target fits iff they held what was missing, and does if they held its request |
| VictimSets.NeededMeans | operator/fragmentation.py:275-304 | no fewer eligible jobs of a node hold an amount than its largest ones do |
| VictimSets.FewestExactly | operator/fragmentation.py:267-304 | over the whole cluster: no smaller set of running jobs the target outweighs, on whatever nodes, makes it fit, and the pick does, iff on some node that all its victims are on they hold what is missing and on no node fewer of the largest do |
| VictimSets.FewestByCount | operator/fragmentation.py:267-304 | with jobs on one node each that is a matter of counting on every node |
| VictimSets.SlotsAreWorth | operator/fragmentation.py:281-284 | what the candidates of a node are summed up to is what its eligible jobs hold |
| VictimSets.NodeHasMost | operator/fragmentation.py:278-285 | the node chosen is one whose eligible jobs hold most in all |
| FragmentationReconciler.DecisionIsBest | operator/fragmentation.py:248-322 | a decision on a snapshot of the cluster is such a pick and unblocks so |
| FragmentationReconciler.Reconciler.Actuate | operator/fragmentation.py:563-577 | every victim is called up once, and a call that raises does not stop the others |
| FragmentationReconciler.Reconciler.Reconcile | operator/fragmentation.py:547-577 | from jobs and nodes to requeues: for the most urgent job that fits nowhere, on a node with most to give, the best pick, of exactly the size at which the walk stops; exactly when that is the minimum over the cluster; which verdict when; nothing is called in shadow mode |
| FragmentationReconciler.TwoWhereOneWouldDo | operator/fragmentation.py:267-302 | a tick on concrete jobs and nodes that requeues two where one would do |
| FragmentationReconciler.OneElsewhereWouldDo | operator/fragmentation.py:278-285 | a tick that requeues two on the node with most to give where one on another node would do |
| FragmentationReconciler.TooSoon | operator/fragmentation.py:236-246 | two decisions of one decider closer together than its minimum interval of two hours |
| DrainSchedule.ReleaseArrivals | eval/scripts/scontrol_ab.py:257-260 | releases exactly those who have arrived |
| DrainSchedule.Pick | eval/scripts/scontrol_ab.py:278-298 | the policy's choice iff it names a waiting job and a node that job fits, else the oldest that fits; none iff nothing fits |
| DrainSchedule.DispatchBalances | eval/scripts/scontrol_ab.py:299-302 | a dispatch keeps free plus running at capacity and the schedule within it at all times |
| DrainSchedule.Complete | eval/scripts/scontrol_ab.py:310-317 | gives back exactly the slots of those who have ended |
| DrainSchedule.DispatchAll | eval/scripts/scontrol_ab.py:265-302 | dispatches until nothing waiting fits |
| DrainSchedule.Advance | eval/scripts/scontrol_ab.py:303-318 | somebody arrives or ends, or the drain is over |
| DrainSchedule.DrainAll | eval/scripts/scontrol_ab.py:263-320 | the loop ends with exactly the jobs dispatched that fit a node |
| DrainSchedule.AppendRest | eval/scripts/scontrol_ab.py:321-324 | the rest gets the remaining ranks, in order of arrival, and nobody else's changes |
| DrainSchedule.PrecomputeSchedule | eval/scripts/scontrol_ab.py:236-325 | ranks are a bijection onto 0..n-1, no dispatch before arrival, no node overbooked at any time; the ranks are those of the drain iff every job fits a node |
| DrainSchedule.TailIsDead | eval/scripts/scontrol_ab.py:321-324 | the tail leaves the ranks as they are iff every job fits a node |
| SweepLine.DemandIsLevel | eval/scripts/live_ab_heavytail.py:325-328 | demand at a time is the sum of the events up to it |
| SweepLine.SumReached | eval/scripts/live_ab_heavytail.py:329-333 | no running sum exceeds every level, because ends sort before starts |
| SweepLine.PeakConcurrent | eval/scripts/live_ab_heavytail.py:319-334 | the sweep is the maximum of the demand over all times |

## Left out

- Operator.Pool.Run: serial scale-ups are stated for lives in which start-ups can read the marker; `OperatorLog.ScaleUpsAreSerial` names a start-up that cannot as the only exception, and `Operator.ForgottenScaleUp` is a life in which it happens
- OperatorLog.CooldownSurvives: a start-up that cannot read the note of the last action starts with none, and the cooldown is not kept
- Operator.Pool.RollBack: the code does not look for running jobs before rolling back, and the model does not claim it
- Metrics.SimulateFcfs: which of the jobs submitted together and listed against their ids are counted depends on who has to wait, and is not said before the run
- Replay.PrioritizedReplay.Sample: importance weights and the beta schedule are floating-point powers and are not modelled; the priority exponent is any function that keeps positive numbers positive
- Replay.ReplayBuffer.Add: the parallel columns of a slot are one record, and masks are taken to be supplied
- GymEnv.KubefluxSchedEnv.Step: rewards, observations, potential shaping, runtime noise and out-of-memory draws are not modelled; realised runtimes are any positive numbers
- GymEnv.KubefluxSchedEnv.ActionMask: the two ablation modes that restrict the mask further are not modelled
- Reorder.ResetOwned: an empty band is stated for a queue whose arrivals stay outside it
- Reorder.ReorderCycle: what is read of the queue besides priorities is any listing with every job once, and whether nodes changed meanwhile is an arbitrary answer
- Reorder.WriteRanking: a write that takes effect only after a later call has been answered is not modelled; Slurm ids are taken not to be reused during a cycle
- DrainSchedule.Pick: an answer whose node is not a number raises in the code and is not modelled
- EventQueue.PoolEventQueue.Interleave: the lock is atomicity of the steps; there is one consumer, as in the operator
- Fragmentation.Detector.TakeSnapshot: the order of the candidates is not stated, since the decider sorts them; that of equals only decides between nodes with as much to give and between victims as large and as important
- Fragmentation.BestNode: ties between nodes are broken by the position of their candidates, where the code leaves them to the order of a set
- the fragmentation score, percentiles, job slowdown and per-class breakdowns: single formulas
- score and multifactor orderings: the simulator is proved for every ordering
- tracing, metrics export, logging, HTTP, command lines, trace generators, parsers and neural networks
