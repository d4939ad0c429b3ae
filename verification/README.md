# A verified model of gpu-lab

gpu-lab runs a synthetic GPU cluster. This project models the parts of it where correctness depends on many functions
acting together, and proves what they are relied on for. `dafny verify dfyconfig.toml` checks everything.

**The training job** (`AllReduce`, `Histories`, `Coordinators`, `Cluster`, `ClusterInvariant`, `ClusterTheorems`,
  `ClusterRuns`, `ClusterRecovery`, `ClusterExample`, `ClusterRefusal`, `Workers`, `WorkerRuns`). Workers average a
  gradient per step through one coordinator. `AllReduce` gives the lock section of each request handler as a function
  on values. `Coordinators` is the coordinator as the object it is: rounds and sessions are heap objects that waiting
  handlers keep references to, channels can be closed once only, and every method is proved to do to that object what
  the function says. `Histories` runs the coordinator under arbitrary clients. `Cluster` is the whole job as a
  transition system over any number of ranks: requests are delayed, duplicated, lost and retried, workers crash with
  or without losing their disk, and rank 0 takes the coordinator down with it. An inductive invariant
  (`ClusterInvariant`) gives the theorems about every run (`ClusterTheorems`): agreement, no gaps, lockstep,
  sufficiency of the 128-step cache, session isolation, and exactly when the pending table overflows or the cache
  outgrows its width. `ClusterRecovery` shows that no reachable state is a dead end: restarting the processes leads on
  to any number of further steps. `ClusterExample`, for any number of ranks, and `ClusterRefusal` give runs in which
  these things happen. `Workers` is one worker over any number of processes on one checkpoint file, with its retry
  loops; `WorkerRuns` shows its whole life to be a sequence of enabled actions of the transition system, given the
  replies it acts on.

**Control documents and fabric faults** (`ControlDocument`, `ControlFaults`, `Fabric`, `Incidents`). One writer, the
  worker's lax reader, and the strict reader of the recovery check, over decoded JSON values. `ControlFaults` is the
  faults' round trip through a document. `Fabric` adds the worker's wait for a fabric that is down and relates fabric
  targets to the exporter's idea of a node. `Incidents` follows the five built-in fabric scenarios from end to end.

**Scenarios and the exporter** (`Scenarios`, `Exporters`, `ExporterShows`, `StagedScenario`). Validation, the active
  phase of a timeline, and the exporter's lazily refreshed view of the applied scenario, which is proved to equal a
  function of the scenario, its start and the present instant. `ExporterShows` says field by field what that view is;
  `StagedScenario` follows the built-in staged scenario through its phases.

**Device-plugin registration** (`Registration`). The registration loop over everything it can observe, turn by turn.

`Prelude` and `Text` hold the option type, facts about sets of ranks, trimming, lower-casing and decimal integers.

## What the proofs brought to light

* A duplicate of an allreduce request that arrives after its step was evicted from the cache re-opens a round that no
  rank training in the session waits for any more: each is at least 127 steps past it
  (`ClusterTheorems.NobodyWaitsForReopened`). Such rounds stay in the pending table until they fill or the session
  changes, and count against its limit of 128. A working rank is refused for too many pending rounds if and only if
  its session is current, its step is not finished and the table is full of such rounds
  (`ClusterTheorems.OverflowOnlyByLateDuplicates`); this does happen, for every number of ranks
  above one, in a run in which nothing fails (`ClusterExample.WorkingRankIsRefused`). In a run without late deliveries
  it never happens (`ClusterTheorems.NeverRefusedInTime`). Agreement and the cache guarantee hold regardless.
* If such a round does fill, because every rank's request was duplicated that late, its step re-enters the cache. The
  cache is not bounded by 128, nor by any number: for every number of ranks and every n, a run can end with all of its
  n steps cached (`ClusterExample.CacheHoldsEveryStep`). It always covers the session's last 128 finished
  steps, and holds exactly those, and at most 128, if and only if no cached step came back after its eviction
  (`ClusterTheorems.CacheIsTheLast128`), which without late deliveries is always (`ClusterTheorems.CacheInTime`).
* A worker ends when the answer to its join call names a later step than its own. In the current session this happens
  only if another call of the same process, made at a later step, took its seat, as a duplicate that arrives late can
  (`ClusterTheorems.RefusedOnlyForOwnLateCall`), and it does happen (`ClusterRefusal.JoinIsRefused`).
* The recovery check accepts a hand-written document with a blank `fabric_delay`, which the worker cannot parse
  (`ControlDocument.BlankDelayIsAccepted`). Such documents are the only accepted ones it does not read as free of
  faults (`ControlDocument.RecoveredIsQuiet`).
* The comment on `Control` says generation or token identifies a one-shot crash. The document's generation takes
  precedence and every mutation increments it, so any mutation that leaves a crash injection in place arms it again
  (`ControlDocument.MutationRearmsCrash`), synchronising a scenario included (`ControlDocument.SyncRearmsCrash`), and
  a worker can end twice by one token (`Workers.OneTokenCrashesTwice`). The injection is pending if and only if rank
  and a token are given and the generation is not yet recorded (`Workers.WrittenCrashIsPending`): "at most once" holds
  per id, not per token.
* `HasFabricOverrides` trims the two fabric state texts and `buildFabricReading` does not. Not rebuilding the fabric
  on a phase change is therefore sound only because metric validation rejects blank texts
  (`Exporters.FabricUntouched`, `Exporters.BlankStateSlipsThrough`, `Exporters.PhasesShareTheFabric`).

## Modelling decisions

* Gradients, averages and metric values are reals, so the order in which a map is summed does not matter. Steps are
  unbounded integers; the control document's generation wraps at 64 bits.
* Session ids and incarnations are drawn at random by the program; here they are fresh texts.
* A join or allreduce handler is split where it releases the lock: a lock section, then a wait that changes nothing.
* Nothing is assumed about the duration parser and the text of a JSON value: both are parameters.
* Instants are nanoseconds since the zero instant. A text that is a duration in the program is what parsing it gives.

## Model

| member | source | states |
|---|---|---|
| AllReduce.SumBelowInsert | internal/training/allreduce.go:97-102 | a new contribution adds exactly its value to the sum, whatever the order of summation |
| AllReduce.FullRoundAverage | internal/training/allreduce.go:98-103 | a round with as many contributions as ranks averages every rank's gradient |
| AllReduce.HandleKeepsValid | internal/training/allreduce.go:58-108 | pending and completed steps stay disjoint and positive, a pending round holds at least one and fewer than world contributions by ranks in range, at most 128 rounds are pending, an unstarted session has empty tables |
| AllReduce.HandleTwice | internal/training/allreduce.go:77-122 | a retried request leaves the state its first handling left and gets the same outcome, or the average if the first finished the round |
| AllReduce.ContributionStands | internal/training/allreduce.go:92-108 | no allreduce request changes or drops another's contribution to a pending round, and the one that fills the round averages it in |
| AllReduce.RoundInAnyOrder | internal/training/allreduce.go:77-108 | contributions of all ranks to an unknown step, in whatever order, complete it with the average of all, evict the step 128 below and change no other round |
| AllReduce.InOrderCompletionSlidesWindow | internal/training/allreduce.go:104-105 | one completion of the next step moves a cache holding the last 128 steps on by one step |
| AllReduce.CompletionSize | internal/training/allreduce.go:104-105 | in any order, a completion grows the cache by its own step if new, less the step 128 below if present |
| AllReduce.HandleKeepsConsistent | internal/training/allreduce.go:77-108 | when ranks contribute what a fixed function dictates, the tables stay right, a cached reply is the true average, and no contribution is rejected as changed |
| AllReduce.LeastStepIsLeast | internal/training/session.go:67-72 | the scan gives a lower bound that is the seed or some member's checkpoint |
| AllReduce.SeededMinimum | internal/training/session.go:66-72 | seeding the scan with the caller's checkpoint gives the members' minimum because the caller is a member |
| AllReduce.JoinKeepsValid | internal/training/session.go:49-75 | a session has started exactly when every rank is a member, and then at the least of all members' checkpoints; a new session has empty tables |
| AllReduce.JoinKeepsOrBegins | internal/training/session.go:42-76 | a join in range keeps the session, everyone seated and both tables exactly when its rank has no seat or has it under the same incarnation; otherwise the caller begins a session alone, with empty tables |
| AllReduce.JoinTwice | internal/training/session.go:54-75 | a retried join neither ends the session nor changes it |
| AllReduce.JoinKeepsConsistent | internal/training/session.go:54-75 | no join makes a wrong average available |
| Histories.RunIsValid | internal/training/allreduce.go:53-109 | the structural invariant holds after any requests by any clients and any restarts |
| Histories.RunIsConsistent | internal/training/allreduce.go:53-109 | so does the correctness of both tables for clients with a fixed gradient |
| Histories.Agreement | internal/training/allreduce.go:77-108 | every average made available at any point of any history is the average over all ranks |
| Histories.ContributionStandsWhilePending | internal/training/allreduce.go:82-108 | over any history, a contribution stands while its round is pending, and the round goes only by being averaged with it or torn down with its session |
| Histories.RunIsIsolated | internal/training/allreduce.go:65-76 | every value held, and every value behind a cached average, was sent under the session now current, for arbitrary clients and gradients |
| Coordinators.ReduceRound.CloseDone | internal/training/allreduce.go:106 | a round's channel is only ever closed while open |
| Coordinators.TrainingSession.CloseReady | internal/training/session.go:74 | a session's ready channel is only ever closed while open |
| Coordinators.TrainingSession.CloseChanged | internal/training/session.go:56 | a session's changed channel is only ever closed while open |
| Coordinators.Coordinator.constructor | internal/training/allreduce.go:38-46 | a new coordinator has no session, no rounds and an empty cache |
| Coordinators.Coordinator.Admit | internal/training/allreduce.go:58-96 | the checks under the lock give the outcome the value model gives |
| Coordinators.Coordinator.Handle | internal/training/allreduce.go:63-109 | the lock section refines the value model; a waiting handler holds the pending round, or the closed one with the cached average |
| Coordinators.Coordinator.Enter | internal/training/allreduce.go:82-108 | entering a contribution keeps the identity of rounds others wait for |
| Coordinators.Coordinator.Add | internal/training/allreduce.go:97-108 | the last contribution caches the average and closes the round, any other leaves it pending |
| Coordinators.Coordinator.Mean | internal/training/allreduce.go:99-103 | summing in whatever order the map yields gives the average by rank |
| Coordinators.Coordinator.Open | internal/training/allreduce.go:89-90 | a new round is empty and disturbs no other |
| Coordinators.Coordinator.Record | internal/training/allreduce.go:97 | recording changes one rank's value in one round |
| Coordinators.Coordinator.Complete | internal/training/allreduce.go:103-107 | completing caches the average, evicts the step 128 below, wakes the waiters and drops the round |
| Coordinators.Coordinator.Await | internal/training/allreduce.go:110-121 | a reply is backed by the ready case it stands for, and waiting changes nothing |
| Coordinators.Coordinator.Join | internal/training/session.go:49-76 | the lock section refines the value model; a session's end is announced exactly when it is replaced |
| Coordinators.Coordinator.Renew | internal/training/session.go:54-61 | a new session starts unstarted with both tables cleared, the old one announced as ended |
| Coordinators.Coordinator.TakeSeat | internal/training/session.go:62-75 | seating the caller starts the session exactly when the last seat is taken |
| Coordinators.Coordinator.LeastOf | internal/training/session.go:67-72 | the scan in map order gives the least checkpoint |
| Coordinators.Coordinator.AwaitJoin | internal/training/session.go:77-85 | a join reply names the session that was joined and its step |
| ClusterInvariant.InitInv | internal/training/worker.go:122-161 | a job of ranks with empty checkpoints and a new coordinator meets the invariant |
| ClusterInvariant.StepKeeps | internal/training/worker.go:162-276 | every action of worker, coordinator, network and crash keeps the invariant |
| ClusterInvariant.RunKeepsInv | internal/training/worker.go:122-277 | the invariant holds in every reachable state |
| ClusterTheorems.Agreement | internal/training/allreduce.go:53-121 | in every run, every average replied or accepted for a step is the sum of all ranks' gradients divided by world |
| ClusterTheorems.NoGaps | internal/training/worker.go:162-178 | in every run, each rank has accepted the right average of every step up to its own, on disk and in memory, through rollbacks |
| ClusterTheorems.Lockstep | internal/training/worker.go:186-275 | two ranks training in one session are at most one step apart and no step is finished more than one ahead |
| ClusterTheorems.LockstepOfMembers | internal/training/session.go:62-85 | the same for all members of the current session, those that have yet to take up their resume step included |
| ClusterTheorems.StillCached | internal/training/allreduce.go:104-107 | in every run, a finished step that a rank of the current session still waits for is in the cache |
| ClusterTheorems.NeverStranded | internal/training/allreduce.go:77-81 | a rank whose round is finished gets the right average, or the news that its session is over, on its next retry |
| ClusterTheorems.Isolation | internal/training/allreduce.go:65-76 | a pending value was sent under the current, started session and is its sender's gradient |
| ClusterTheorems.FinishedDownward | internal/training/worker.go:186-275 | a session's finished steps have no holes |
| ClusterTheorems.PendingIsLiveOrReopened | internal/training/allreduce.go:82-91 | the step of a pending round is finished exactly when the step 128 later is, that is, when a late duplicate re-opened it |
| ClusterTheorems.NobodyWaitsForReopened | internal/training/allreduce.go:82-91 | whoever trains in the session is at least 127 steps past a re-opened round |
| ClusterTheorems.OneLiveRound | internal/training/allreduce.go:82-108 | of two pending rounds the lower one is of a finished step |
| ClusterTheorems.OverflowOnlyByLateDuplicates | internal/training/allreduce.go:84-88 | a working rank is refused for a full table if and only if its session is current, its step unfinished and all 128 pending rounds were re-opened by late duplicates |
| ClusterTheorems.CacheIsTheLast128 | internal/training/allreduce.go:104-105 | in every run the cache covers the session's last 128 finished steps, and is exactly those and at most 128 if and only if no cached step came back after eviction |
| ClusterTheorems.NeverRefusedInTime | internal/training/allreduce.go:84-88 | in a run without late deliveries no working rank is ever refused for a full table |
| ClusterTheorems.CacheInTime | internal/training/allreduce.go:104-105 | in a run without late deliveries the cache is always exactly the last 128 finished steps |
| ClusterTheorems.RefusedOnlyForOwnLateCall | internal/training/session.go:112-114 | a worker refuses the answer of the current session only if its seat there was taken by another, later-stepped call of the same process |
| ClusterRecovery.AlwaysAWayOn | internal/training/worker.go:122-277 | every run, whatever was lost, duplicated or has failed in it, can go on by a restart of the processes to any number of steps after the lowest checkpoint on disk, all ranks together and with the true averages |
| ClusterRuns.AllJoin | internal/training/session.go:42-86 | ranks that all call a new coordinator are put in one session, which starts at the lowest of their steps, and all take it up, whatever else is under way |
| ClusterExample.StepsComplete | internal/training/worker.go:179-263 | for every number of ranks and every n there is a run in which all ranks join, reduce and save n steps, each with the true averages |
| ClusterExample.WorkingRankIsRefused | internal/training/allreduce.go:84-88 | for every number of ranks above one, a run without failures in which late duplicates fill the table and a working rank is refused |
| ClusterExample.CacheHoldsEveryStep | internal/training/allreduce.go:104-105 | for every number of ranks and every n there is a run that ends with exactly the steps 1 to n cached |
| ClusterRefusal.JoinIsRefused | internal/training/session.go:63-65 | a run of two ranks in which a late duplicate of a rank's own call takes its seat and the rank refuses the answer to its next one |
| Workers.CheckpointFile.Save | internal/training/checkpoint.go:37-61 | only a wholly written file is renamed over the checkpoint, so wherever it fails the checkpoint is the old one or the new one |
| Workers.ReduceOutcomeIsFirst | internal/training/allreduce.go:161-179 | the outcome of the retries is the first attempt within the budget that did not fail, or failure if all did |
| Workers.ReduceWithRetry | internal/training/allreduce.go:157-180 | the result is the first decisive of at most eight attempts |
| Workers.JoinWithRetry | internal/training/session.go:93-142 | the result is decided by the first attempt that is not to be retried |
| Workers.JoinOnlyLowers | internal/training/session.go:110-128 | a join that succeeds was answered with a named session at a step from 0 to the worker's own |
| Workers.JoinedExactly | internal/training/session.go:93-142 | a join succeeds exactly when the first attempt that is not to be retried names a session and a step from 0 to the worker's own; a missing response, a 409 and any status that is no client error of this protocol are retried |
| Workers.BeginsExactly | internal/training/worker.go:122-182 | a process reaches its loop exactly when its file is missing or in range, both saves succeed and the join is answered; else how it ends and what is on disk |
| Workers.StopsExactly | internal/training/worker.go:186-275 | a turn ends the process exactly when it is cancelled where it waits, a due or last save fails, a rejoin fails, or a crash is pending |
| Workers.ContinuesWith | internal/training/worker.go:233-263 | what a turn leaves when the process goes on: the next step, on disk if due or last; the joined step, on disk; or nothing but one more error |
| Workers.StopsWith | internal/training/worker.go:233-273 | the exit and the disk of every turn that ends the process |
| Workers.CompletedIsSaved | internal/training/worker.go:186-263 | a process that completes its steps has a step at or past the last on disk, and exactly the last unless its file was past it |
| Workers.UndisturbedCompletes | internal/training/worker.go:186-276 | failed reductions only delay: a process with nothing worse completes exactly when as many turns end with an average as steps are left |
| Workers.BeginCounted | internal/training/worker.go:123-182 | a new process counts one restart and reaches its loop with matching counters |
| Workers.IterateCounted | internal/training/worker.go:186-275 | one turn of the loop keeps the counter relations |
| Workers.CountersConserved | internal/training/worker.go:131-134 | at every loop head samples are 32 times loaded step plus reductions and at least 32 times the step gauge, and the checkpoint gauge is the step on disk and not above the step gauge |
| Workers.LifeRecordsCrashes | internal/training/worker.go:264-273 | a process keeps every recorded crash and ends by an injected crash only with it newly recorded on disk |
| Workers.CrashesOnce | internal/training/worker.go:264-273 | over any number of processes on one file, a worker ends by an injected crash at most once per id |
| Workers.WrittenCrashIsPending | internal/training/worker.go:264-267 | a written crash injection is pending exactly for its rank, with a token, while its generation is not recorded |
| Workers.NestedCrashIsPending | internal/training/worker.go:264-267 | a nested crash is pending exactly when enabled, for its rank, under its generation or else its token, while that is not recorded |
| Workers.OneTokenCrashesTwice | internal/training/control.go:185-193 | two generations of one injection with one token end a worker twice, under different ids |
| Workers.IterateIsAnAction | internal/training/worker.go:228-263 | what a turn of the loop does to the job's node: an accepted average, a rejoin or nothing |
| Workers.TurnIsAnAction | internal/training/worker.go:228-263 | a turn that ends with an average is the job's enabled action of accepting it, and a failed one leaves the node alone |
| Workers.RejoinIsTwoActions | internal/training/worker.go:238-243 | a turn that ends with a changed session is leaving it and then, enabled once the call is answered, accepting the join |
| Workers.StopLeavesDisk | internal/training/worker.go:257-273 | a process that ends leaves the step on disk as it was or at the average just accepted |
| Workers.BeginIsARestart | internal/training/worker.go:123-182 | a new process, with or without a checkpoint file, is the job's restarted node followed by an accepted join |
| Workers.BeginIsTwoActions | internal/training/worker.go:123-182 | both are enabled actions: the restart, and the accepted join once the call is answered |
| WorkerRuns.LifeIsChained | internal/training/worker.go:122-277 | a whole process is a sequence of its rank's actions, each enabled when taken, and its file ends at the step the job's node has on disk |
| WorkerRuns.LivesAreChained | internal/training/worker.go:122-277 | so is any number of processes one after another on one file |
| Workers.Worker.Open | internal/training/worker.go:123-182 | loading, counting the restart and joining, on the object and the file |
| Workers.Worker.Join | internal/training/worker.go:162-178 | the inner join saves the joined step before training resumes |
| Workers.Worker.Advance | internal/training/worker.go:252-274 | a finished step in memory, on disk when due, and the crash recorded before it happens |
| Workers.Worker.Turn | internal/training/worker.go:228-274 | one turn of the loop, for every way its calls can turn out |
| Workers.Worker.Run | internal/training/worker.go:122-277 | a whole process leaves the disk and the exit the value model gives |
| ControlDocument.RecoveredIsQuiet | internal/verification/recovery.go:593-639 | the worker reads every accepted document as free of faults, if and only if it carries no blank delay |
| ControlDocument.BlankDelayIsAccepted | internal/verification/recovery.go:623-631 | a document with an empty delay is accepted and unreadable for the worker |
| ControlDocument.WriteRead | internal/trainingjob/trainingjob.go:119-131 | the writer reads back what it wrote, up to normalisation |
| ControlDocument.RewriteIsStable | internal/trainingjob/trainingjob.go:119-131 | normalising twice is normalising once |
| ControlDocument.VerdictOnWritten | internal/verification/recovery.go:616-636 | for written documents, acceptance means mode normal and no straggler or crash fields |
| ControlDocument.WrittenVerdictIsSound | internal/training/control.go:64-163 | if the recovery check accepts a written document, the worker reads no straggler, no crash and mode normal |
| ControlDocument.RecoverSucceeds | cmd/gpu-lab/training.go:70-77 | the recover mutation of any prior state yields a document the check accepts and the worker reads as quiet |
| ControlDocument.WrittenCrashId | internal/training/control.go:185-193 | a written crash is named by the document's generation, whatever its token |
| ControlDocument.MutationRearmsCrash | internal/trainingjob/trainingjob.go:205-215 | any further mutation that keeps a crash injection gives it a different id |
| ControlDocument.SyncRearmsCrash | internal/trainingjob/trainingjob.go:217-225 | so synchronising a scenario arms a standing crash injection again |
| ControlFaults.WrittenIsRead | internal/training/control.go:64-163 | the worker can read a written document exactly when its ranks and the durations it asks for are not negative, and then reads its straggler with its delay, its crash, its lowered mode and, for a fault, its own target and delay |
| ControlFaults.NestedIsRead | internal/training/control.go:80-89 | a nested straggler and crash are read as they are, with a delay given as text or as a number of seconds |
| ControlFaults.FlatWins | internal/training/control.go:90-130 | flat ranks win over nested objects, and null ones clear them |
| ControlFaults.AcceptedExactly | internal/verification/recovery.go:593-639 | the verdict on any document in terms of its members, hand-written ones included |
| Fabric.TargetIsANodeId | internal/training/control.go:213-231 | a target matches a node exactly when both have the same synthetic node id, as the exporter computes it |
| Fabric.SelectorHitsOneNode | internal/exporter/model.go:466-478 | a synthetic id selects the exporters of the nodes whose workers it targets |
| Fabric.ScenarioHitsOneNode | internal/trainingjob/trainingjob.go:78-93 | the writer's target for a fabric scenario faults the worker on a node exactly when a selector with that id names the node's exporter |
| Fabric.BuiltInScenariosAgree | scenarios/ib-rate-degraded.yaml:1-13 | each of the five built-in fabric scenarios, with its own selector and metrics, faults the workers on exactly the nodes it selects, with the delay the worker falls back on |
| Fabric.WaitForFabricRecovery | internal/training/worker.go:304-329 | the wait loop with its error count does what the recursive reading of it does |
| Fabric.WaitEndsAtFirstUp | internal/training/worker.go:309-328 | the wait ends with the first readable control that is not down, skipping unreadable ones, or by cancellation |
| Fabric.WaitErrors | internal/training/worker.go:309-328 | a rank counts one error for each wait at which the control in force targets it, and no other |
| Fabric.RecoveryEndsTheWait | internal/training/worker.go:199-208 | reading what the recovery writes ends the wait and leaves no fault, delay or activity on any node |
| Incidents.BuiltInIsValid | internal/scenario/validate.go:13-43 | the five built-in fabric scenarios are accepted |
| Incidents.IncidentShows | internal/exporter/model.go:120-151 | each incident's name and fabric values are shown on the node it is about, and every other node shows the defaults, whenever observed |
| Incidents.FaultsExactly | internal/training/worker.go:286-302 | a worker has a fabric fault exactly when the mode is one of the five and its node is the target |
| Incidents.IncidentEffect | internal/training/worker.go:286-302 | the effect of each incident's mode and node: on its node the configured delay or the incident's default, on any other none |
| Incidents.SyncIsRead | internal/trainingjob/trainingjob.go:217-226 | synchronising an incident makes the worker read its mode, node and delay, with the straggler and crash there were |
| Incidents.OtherSyncClears | internal/trainingjob/trainingjob.go:89-92 | synchronising any other scenario makes the worker read no fabric fault, with the straggler and crash there were |
| Incidents.IncidentHitsOneNode | cmd/gpu-lab/training.go:70-77 | from end to end: the exporter that shows an incident and the worker that suffers it are on the same one node, with the same delay |
| Scenarios.CheckIndices | internal/scenario/validate.go:64-73 | the scan with its set of seen indices accepts exactly distinct non-negative indices |
| Scenarios.CheckTargets | internal/scenario/validate.go:58-75 | targets pass exactly when no selector text is blank and indices are distinct and non-negative |
| Scenarios.InTurnIsOrdered | internal/scenario/timeline.go:63-73 | comparing neighbours is enough for strictly increasing offsets from zero |
| Scenarios.CheckTimeline | internal/scenario/timeline.go:46-83 | the loop accepts exactly the staged-scenario contract |
| Scenarios.CheckSteps | internal/scenario/timeline.go:57-78 | the loop accepts exactly when every step fits, and knows the last offset |
| Scenarios.CheckStep | internal/scenario/timeline.go:59-77 | one turn accepts exactly a step with its phase name, a later offset and permitted metrics |
| Scenarios.Validate | internal/scenario/validate.go:13-43 | a document passes exactly when identity, duration, targets, timeline, metrics and actions are in order |
| Scenarios.PhaseAt | internal/scenario/timeline.go:13-39 | the loop returns the step after which no offset has been reached, for every timeline and elapsed time |
| Scenarios.ParseOffsets | internal/scenario/timeline.go:17-24 | all offsets, or none if one does not parse |
| Scenarios.LastReached | internal/scenario/timeline.go:28-34 | the break at the first offset in the future finds the last of the leading reached ones |
| Scenarios.PhaseIsLastReached | internal/scenario/timeline.go:25-38 | on an ordered timeline a phase is always active, and it is the greatest index whose offset is at most the elapsed time, clamped at zero |
| Scenarios.PhaseIsMonotone | internal/scenario/timeline.go:25-38 | the active phase never goes back |
| Scenarios.EveryPhaseOccurs | internal/scenario/timeline.go:57-81 | all four phases occur in order, and recovery begins strictly before the duration ends |
| StagedScenario.GpuRanges | internal/scenario/metrics_validation.go:38-80 | the range of every GPU override |
| StagedScenario.FabricRanges | internal/scenario/metrics_validation.go:81-115 | the range of every fabric override |
| StagedScenario.EscalationIsValid | internal/scenario/timeline.go:46-83 | the built-in staged scenario is accepted exactly with its warning strictly between its neighbours and a duration, if any, past the start of its recovery |
| StagedScenario.StagedNeighbours | internal/scenario/timeline.go:46-83 | a missing, renamed or misplaced phase, one without an offset, with metrics it may not have or without those it must, is rejected |
| StagedScenario.ThermalShows | scenarios/thermal-escalation.yaml:1-30 | what every GPU shows as the staged scenario unfolds, on any node and under any clock, and that nothing is left of it after three minutes |
| StagedScenario.ActionsExactly | internal/scenario/validate.go:95-125 | which actions are accepted, and that an exporter fault cannot target individual GPUs |
| StagedScenario.IndexedMetrics | internal/scenario/validate.go:81-93 | individual GPUs can have any metric of a GPU, and neither capacity nor fabric |
| Exporters.BuildEach | internal/exporter/model.go:288-350 | the running total reserves exactly the first targeted GPUs |
| Exporters.BuildReadings | internal/exporter/model.go:279-351 | the loop gives each GPU's reading on its own |
| Exporters.AllocatedTotal | internal/exporter/model.go:281-347 | a node reserves the smaller of what the scenario asks for and what it targets |
| Exporters.MemoryFits | internal/exporter/model.go:295-307 | a validated scenario reports no more memory in use than there is |
| Exporters.FabricUntouched | internal/scenario/model.go:85-100 | metrics without overrides leave the fabric alone exactly when both state texts are empty |
| Exporters.BlankStateSlipsThrough | internal/exporter/model.go:368-373 | a blank state text is no override, changes the fabric, and is rejected by validation |
| Exporters.PhasesShareTheFabric | internal/exporter/model.go:427-434 | every phase of a validated timeline has the fabric of the top-level metrics, so skipping the rebuild is sound |
| Exporters.RefreshTracks | internal/exporter/model.go:422-446 | one refresh brings the cache to the phase of the instant and keeps a lapsed scenario lapsed |
| Exporters.ObservationsShow | internal/exporter/model.go:160-176 | after any observations under any clock, what is shown is a rebuild from scratch at the last instant, lapsed if any observation was past the deadline |
| Exporters.UntargetedStaysNormal | internal/exporter/model.go:288-294 | a GPU the scenario does not target reads the documented defaults in every snapshot, in every phase and after expiry |
| Exporters.HistoryIndependent | internal/exporter/model.go:120-151 | under a clock that does not go back, what is shown is a function of scenario, generation, start, node and the last instant |
| Exporters.RestartAgrees | internal/exporter/model.go:119-135 | a restarted exporter agrees with one that never stopped |
| ExporterShows.MatchedShows | internal/exporter/model.go:120-151 | where the selector matches, observed only before the end, the scenario's name and fault are shown, and each of its metrics (for a timeline, those of the phase in force) in its own field of the targeted GPUs and the fabric, with as many GPUs reserved as asked |
| ExporterShows.LabelsExactly | internal/exporter/model.go:466-478 | the labels of a node, by key, and that a selector asks for each of its own |
| ExporterShows.OneInForce | internal/scenario/timeline.go:25-38 | no two phases are in force at once |
| ExporterShows.OthersShowBaseline | internal/exporter/model.go:422-446 | where the selector does not match, and from the first observation at or after the end, everything shows the documented defaults |
| Exporters.Model.constructor | internal/exporter/model.go:99-113 | defaults for a blank node and a non-positive count, and the baseline applied |
| Exporters.Model.ApplyAt | internal/exporter/model.go:120-151 | applying leaves no trace of what was applied before, and an unset start is the present instant |
| Exporters.Model.RefreshExpired | internal/exporter/model.go:422-446 | the object changes as the refresh function says |
| Exporters.Model.Snapshot | internal/exporter/model.go:160-176 | a snapshot shows the refreshed view |
| Exporters.Model.IsUnavailable | internal/exporter/model.go:153-158 | unavailability is the refreshed view's fault |
| Registration.BackoffDoubles | internal/deviceplugin/plugin.go:228-232 | the k-th delay is the doubled initial one up to the maximum, reached a nanosecond early in one case |
| Registration.BackoffGrows | internal/deviceplugin/plugin.go:176-186 | delays are positive, at most the maximum, and never shrink in a streak |
| Registration.StreakAtLeast | internal/deviceplugin/plugin.go:226-233 | a streak of n refusals takes at least n initial delays |
| Registration.StreakLength | internal/deviceplugin/plugin.go:226-233 | below the maximum a streak's delays add up exponentially |
| Registration.RegistrationLoop | internal/deviceplugin/plugin.go:171-253 | the loop's variables and calls are those of the turn-by-turn fold, whatever it observes |
| Registration.RegistersWithOneKubelet | internal/deviceplugin/plugin.go:193-252 | every call goes to the kubelet seen before, with no absence in between, and after a success only once a stream-closed signal was consumed |
| Registration.RunningRemembersFirst | internal/deviceplugin/plugin.go:204-215 | while running, the loop knows the first kubelet and whether it has vanished |
| Registration.RestartsExactly | internal/deviceplugin/plugin.go:197-212 | the loop restarts exactly when its own socket changed or a kubelet is there that is another one or has come back |
| Registration.RetriesArePaced | internal/deviceplugin/plugin.go:216-233 | the delay stays within its bounds, and an attempt after k refusals comes at least the k-th delay after the last and all k delays after the streak's first |
| Registration.TurnsExactly | internal/deviceplugin/plugin.go:193-252 | what each turn does and how it ends the loop, from the script and the calls so far alone: an attempt is made exactly when a kubelet is there, no accepted registration stands and the attempt is due, and is a registration exactly when accepted |
| Registration.DelaysFromSettings | internal/deviceplugin/plugin.go:176-186 | the default delays, and the cut of a longer initial one |

## Left out

* HTTP, gRPC, sockets, files and JSON or YAML text: a request is delivered, delayed, lost or duplicated, a socket has
  an identity, a document is a decoded value. Mixed-case member names are not modelled.
* Integer overflow of steps and counters, floating-point rounding, infinities and NaN.
- Cluster.Gradient: exact decimals instead of the nearest floating-point numbers.
- Text.ToLower: lower-cases ASCII letters only.
- Workers.CountersConserved: the error counter, the loss and the allreduce timing are not part of it; fabric errors
  are counted in `Fabric.WaitOutcome` instead.
- Workers.CheckpointFile.Save: takes the rename itself as atomic, as the operating system promises.
- Workers.Worker.Run: step timing and the straggler and fabric delays are waits without effect on the modelled state.
* Liveness under a scheduler: `ClusterRecovery` shows that there is a way on, not that it is taken; without a restart
  the coordinator ends with rank 0 and another rank may retry for ever.
* Handlers of a coordinator that has died may still answer in `Cluster`, which allows more runs than there are. A
  refused join and a failed save are crashes there.
* Requests without a session are covered by `Histories` only, since a worker never sends one after joining.
* The exporter's `UpdatedAt`, which depends on the history by design, its metrics text, and an `ApplyAt` between an
  observer's refresh and its read, which the lock allows.
* The texts of validation errors: only the verdict is modelled.
* The device plugin's `Serve` loop around the registration loop, its stream counting and its gRPC calls.
* Durations beyond about 292 years, where elapsed time saturates.
* Concurrent writers of the control document, which has no version check.
* The kubectl, helm, kind and docker commands, the dashboards, the doctor and the inspection reports.
