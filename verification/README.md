# Queue admission, gang start, preemption and release: a verified model

Three Kubernetes reconcilers share one ledger, `Queue.Status.Used`. The queue reconciler admits jobs
against a quota; the TrainJob reconciler runs a gang of pods through attempts, preemption and
requeueing; the InferenceJob reconciler keeps one pod alive within a restart budget and shuts it down
in two stages. They never talk to each other: everything goes through stored objects. This project
models the three of them as one transition system, writes the reconcilers out as the imperative code
they are, and proves what the design is for: no interleaving of the three, of users, kubelet, scheduler
and garbage collection, no outdated copy of a job, and no pass that dies between two API calls, lets
the jobs use more than the quota; `RequeueCount` is a sound epoch; budgets hold; a job runs or has
succeeded because its whole gang was seen to. As long as no cache goes back, however far it lags,
preemption marks are never stale and an inference pod keeps its quota. With passes that begin from
stored versions the worker pods too stay within the quota and gangs are never mixed. Which outdated
copies break that is stated exactly, and runs show that they do.

## How it is built

| files | content |
|---|---|
| `Resources`, `ClusterTypes`, `Names` | resource lists and sums over maps; the API objects; decimal numbers, object names, labels |
| `QueueAdmission`, `QueueOutcome` | what one queue pass may do to the ledger, and the pass cut at its API calls; what it leaves, in the terms of the jobs |
| `TrainLifecycle`, `InferenceLifecycle` | the two job reconcilers as machines that make one API call at a time |
| `Cluster` | the transition system: its state, its actions, its runs |
| `LedgerInvariant`, `LedgerSteps` | the ledger's half of the inductive invariant, and that every action keeps it, in any run |
| `PodInvariant` | the pods' half, and that every action keeps it where passes begin with stored versions |
| `QuotaSafety`, `LifecycleSafety`, `InferenceSafety` | the theorems over whole runs |
| `GangSafety` | the gang behind every Running and Succeeded, in any run |
| `CacheOrder`, `MarkSafety`, `ServerOrder` | caches that lag but do not go back: groups and marks, inference pods |
| `PassEffects`, `TrainEffects`, `InferenceEffects` | what a complete pass comes to, phase by phase, in the terms of the stored objects |
| `Conflicts`, `OutdatedCopies` | what a call does when somebody else was faster; what outdated copies can make a pass do, exactly |
| `Wakeups`, `Liveness`, `QueueWakeups` | the watches; no lost wake-up, the victims nobody wakes, the class change nobody hears of |
| `Witnesses`, `LagWitnesses` | runs that reach the bad states of the findings below |
| `Api`, `QueueReconciler`, `TrainJobReconciler`, `InferenceJobReconciler` | the API server as an object with a budget of successful calls, and the reconcilers as methods over it |
| `Refinement` | passes computed by these methods are runs of the transition system, made of their own steps |

A reconciler pass is cut at every API call. `TrainCall`, `InfCall` and `QueueCall` are one call each; a
pass in flight is a program counter that carries what the pass has read. In the transition system every
call of every pass is an action of its own, so passes of different jobs, queue passes and everything
the environment does fall between any two calls, and a pass may be dropped after any of them. The
reconcilers of the last but one row are the source's methods with their loops and in-place changes. The
two job reconcilers are proved to leave exactly the store that the machine leaves when the calls beyond
a given number fail; the queue reconciler to leave a ledger its pass may leave. `Refinement` turns that
into runs that consist of the pass's own actions, so every run theorem applies to them.

Runs differ in the copies with which the passes of the job reconcilers begin. In a `Run` it is any
version of the job that a watch ever reported, or the stored one. In an `OrderedRun` and, for
InferenceJobs, in `OrderedServing` it is not behind the copy that the pass before it began with, by
RequeueCount, rank of the phase and Attempt, or by rank of the phase and deletion mark: a cache may lag
but does not go back. A `LaggingRun` is both; each pass begins with the stored version or once more with
the copy of the pass before. In a `FreshRun` it is the stored version. Whatever concerns statuses and the
ledger is proved for every `Run`; the epochs of groups, marks, and the quota of inference pods for the
ordered ones; worker pods, the absence of the nil dereference and of pods for failing jobs for every
`FreshRun`. Runs of the next wider kind show that each of these needs its kind.

## What is assumed

- One namespace and one queue, which all jobs name. The queue is not deleted, and only its reconciler
  writes its status. Its quota may be changed at any time; the quota map is there, if empty.
- Specs do not change. A job's name is not given to a second job of the same kind.
- In runs, requests and `worldSize` are not negative. The schema does not say so for `worldSize`
  (see the findings).
- A write goes through only on the version that was read. Versions are modelled as values: the stored
  object equals the one that was read. A value that changes and changes back counts as unchanged, which
  allows the controllers more than the server does.
- The passes of one job do not overlap; the work queue sees to that. A pass reads groups, pods,
  services and preemptors as they are stored at that call. The gates of both job reconcilers read any
  past version of the ledger. The queue reconciler works from a cache that holds, job by job, any
  version the watch ever reported, in any order; a job once seen is not missing from it while the job
  exists. It reads the queue and the priority classes each at a call of its own.
- The scheduler may change a pod group's report at will, but never clears `PreemptedBy`. Pods, groups,
  services and quotas may be changed or removed by others at any time; a finished worker pod keeps its
  phase, and a pod its requests.
- Deleting a worker pod or a pod group is immediate; deleting an inference pod only marks it, and it
  stays until something removes it. Others neither add nor remove this controller's finalizer.
- Counters are unbounded, quantities are exact integers. Times of creation are integers.

`PodGroup.epoch` is bookkeeping of the model: the owner's `RequeueCount` when the group was created. No
reconciler reads it.

## Findings

The code does not keep some plausible properties. Each comes with an input or a run that breaks it, and
with the exact condition.

- Two passes over unchanged jobs may admit two jobs (`TiedHeadsBreakTheFixedPoint`). A second pass
  changes nothing if and only if every tie for the first place is settled (`SecondPassChangesNothing`),
  so always without ties in priority and age (`WithoutTiesSecondPassIdle`).
- With a negative `worldSize`, which the schema admits, a pass lifts the charge over the quota
  (`NegativeDemandOvercommits`). A ledger, its entries being of distinct jobs, admits no such pass if and
  only if its positive charges alone stay within the larger of its total and the quota (`OvercommitsExactly`).
- A victim whose train preemptor went to Succeeded before the victim's release check saw it Running
  stays Preempted for good: `StrandedIsReached` is a run into such a state and `StrandedVictim` says it
  lasts until somebody deletes a job or touches the group by hand. `VictimReleasedExactly` lists exactly
  the states in which a victim is released.
- A deleted TrainJob loses its entry although its pods are left, and their quota is given away:
  `DeletedTrainReleasesBeforeItsPods` is a run with one gpu of quota and two unfinished pods that ask for one
  each. `PodChargeKeptExactly`: a pass keeps the entry of an unfinished pod if and only if the job
  exists, or the cached copy of it is neither finished nor ahead of the entry. An InferenceJob, having a
  finalizer, keeps its entry until its pod is gone (`InferencePodPinsCharge`).
- A pass that begins with an outdated copy of its job, as a cache shows it that has missed the last
  write, makes pods and groups that the job may not have. `OutdatedCopyBreaksQuota` is a run in which the
  unfinished pods of one listed job, of two attempts, ask for two gpus against a quota of one.
  `NilDereference` is one in which the release check panics; the pass that panics begins with the stored
  version, the unmarked group it finds was made by the outdated one before. `PodForFailingJob` is one that
  makes a pod for a job that is Failing. No cache goes back in these runs: each pass begins with the
  stored version or with the copy that the pass before it began with. Which copies make pods, groups,
  inference pods, and which panic, is said exactly by `CopyMakesPodsExactly`, `CopyMakesGroupExactly`,
  `InferenceCopyMakesPodExactly` and `CopyPanicsExactly`.
- Were a cache to go back, a Queued job could have a marked group (`PhantomMark`) and a Failed job a pod
  (`PodForFailedJob`). As long as none does, neither happens: `MarkSafety.NoPhantomPreemption`,
  `ServerOrder.InferencePodPinsCharge`.
- A change of the priority classes enqueues nobody, although it can give an idle queue pass a job to
  admit (`SwappedClassesUnblock`): if and only if some waiting job that is not listed and fits is the
  oldest of its class (`ClassChangeUnblocksExactly`). Every other change that does so enqueues the queue
  (`QueueWokenWhenMovable`).

## Model

| member | source | states |
|---|---|---|
| QuotaSafety.JobsWithinQuota | internal/controller/queue_controller.go:104-226 | in every state of every run, whatever outdated copies the queue, the gates and the passes read, on every resource the demands of all TrainJobs in Starting, Running, Retrying, Preempted and all InferenceJobs in Starting, Running, Restarting, Failing sum to at most the largest quota there has been |
| QuotaSafety.JobsWithinFixedQuota | internal/controller/queue_controller.go:138-226 | the same against the quota itself while nobody changes it |
| QuotaSafety.PodsWithinQuota | internal/controller/trainjob_controller.go:462-484 | the same for pods, between any two API calls and after aborted passes: all unfinished worker pods of jobs that exist or are still listed in the ledger, and all inference pods; for the other pods see PodChargeKeptExactly |
| QuotaSafety.PaidSum | internal/controller/queue_controller.go:209-225 | distinct jobs are charged to distinct entries, so their demands sum to at most the ledger's total |
| QuotaSafety.HoldersWithinPeak | internal/controller/queue_controller.go:197-226 | the quota bound from the invariant alone |
| QuotaSafety.LiveTrainEntryStays | internal/controller/queue_controller.go:107-122 | from any outdated view, an entry is not removed while its TrainJob is alive in the epoch of the entry, and it charges exactly the job's demand |
| QuotaSafety.LiveInferenceEntryStays | internal/controller/queue_controller.go:123-134 | an InferenceJob's entry is not removed before the job has failed or is gone |
| QuotaSafety.EpochIsSound | internal/controller/trainjob_controller.go:92-98 | a TrainJob has at most one entry, none ahead of its RequeueCount, and a holding job has one of exactly its count and demand |
| ServerOrder.InferencePodPinsCharge | internal/controller/inferencejob_controller.go:70-114 | as long as no cache goes back: while an inference pod exists its job exists with finalizer, in a holding phase, with its entry charged |
| ServerOrder.ServersWithinQuota | internal/controller/queue_controller.go:123-145 | as long as no cache goes back, all inference pods, terminating ones included, and all holding TrainJobs together stay within the largest quota there has been |
| ServerOrder.LaggingServesInOrder | internal/controller/inferencejob_controller.go:57-66 | a cache that has merely not caught up does not go back on an InferenceJob |
| QuotaSafety.StepNeverOvercommits | internal/controller/queue_controller.go:138-145 | no action of anybody raises a resource above the larger of its present charge and the quota |
| QuotaSafety.PodChargeKeptExactly | internal/controller/queue_controller.go:107-122 | in every state of every run, every pass keeps the entry of an unfinished worker pod iff its job exists, or the cache holds a copy of it that is neither Succeeded nor Failed and whose RequeueCount is at most that of the entry |
| QuotaSafety.KeptIffSurvives | internal/controller/queue_controller.go:104-136 | every pass keeps an entry iff the cache holds its job: a TrainJob neither Succeeded nor Failed and not ahead of the entry, or an InferenceJob not Failed |
| QuotaSafety.ForgottenTrainIsReleased | internal/controller/queue_controller.go:108-112 | once the cache misses a TrainJob, every pass leaves a ledger without it |
| QuotaSafety.FinishedJobIsReleased | internal/controller/queue_controller.go:113-132 | once the cache shows a TrainJob Succeeded or Failed, or an InferenceJob Failed or gone, every pass leaves a ledger without it |
| Witnesses.DeletedTrainReleasesBeforeItsPods | internal/controller/queue_controller.go:108-112 | a run in which a deleted job's unfinished pod outlives its entry, the quota never exceeds one gpu and the unfinished pods ask for at least two |
| LifecycleSafety.TrainStepMoves | internal/controller/trainjob_controller.go:76-153 | a TrainJob's status changes only by its own pass's last write, along an edge of the phase graph |
| LifecycleSafety.TrainProgress | internal/controller/trainjob_controller.go:76-145 | (RequeueCount, phase rank, Attempt) never decreases, Attempt never decreases, Succeeded and Failed are absorbing |
| LifecycleSafety.RetryBudget | internal/controller/trainjob_controller.go:582-587 | 0 <= Attempt <= max(0, RetryLimit) in every reachable state |
| LifecycleSafety.AttemptCountsRetries | internal/controller/trainjob_controller.go:638-642 | Attempt grows by one with each stored retry and by nothing else, preemption cycles included |
| LifecycleSafety.SpentAttemptsHadFailedPods | internal/controller/trainjob_controller.go:121-127 | for every attempt left behind, an earlier state shows a failed pod of that attempt |
| LifecycleSafety.VictimNeedsNewCharge | internal/controller/trainjob_controller.go:136-144 | a preempted job runs again only on an entry of a later RequeueCount |
| LifecycleSafety.OneBumpPerEpisode | internal/controller/trainjob_controller.go:130-145 | RequeueCount equals the number of releases, and preemptions exceed it by one exactly while Preempted |
| LifecycleSafety.EpochMovesOnRelease | internal/controller/trainjob_controller.go:130-145 | between neighbouring states of any run RequeueCount changes iff the job goes from Preempted to Queued, then by one; and only a Running job becomes Preempted |
| LifecycleSafety.GroupsAreOfThisEpoch | internal/controller/trainjob_controller.go:659-677 | with passes begun from stored versions, the statements of MarkSafety.GroupsOfThisEpoch and besides: a Preempted job's group, if there, is marked; LagWitnesses.NilDereference shows the last part to need them, CopyMakesGroupExactly which copies make groups |
| MarkSafety.NoPhantomPreemption | docs/preemption-release-cycle-2026-07-10.md:40-46 | as long as no cache goes back, a mark seen after a job was Queued was written by the scheduler since then; LagWitnesses.PhantomMark shows that the condition is needed |
| MarkSafety.GroupsOfThisEpoch | internal/controller/trainjob_controller.go:659-677 | as long as no cache goes back, a job not yet started has no PodGroup for its attempt, one that exists is of the present epoch, and there is none of a later attempt |
| MarkSafety.PreemptionWasMarked | internal/controller/trainjob_controller.go:692-702 | as long as no cache goes back, whenever a job goes to Preempted it was Running and the scheduler has marked the group of its attempt since the job was last Queued |
| CacheOrder.OrderedInv | internal/controller/trainjob_controller.go:64-74 | as long as no cache goes back: copies are never ahead of the stored job, one from before its last release shows it preempted or finished, and so every group of its attempt is of its present epoch |
| CacheOrder.LaggingIsOrdered | internal/controller/trainjob_controller.go:64-74 | a cache that has merely not caught up does not go back |
| LifecycleSafety.MarkWrittenSince | internal/controller/trainjob_controller.go:692-702 | a PreemptedBy that appears between two states was written by the scheduler, never by a controller |
| LifecycleSafety.NoNilDereference | internal/controller/trainjob_controller.go:157-167 | with passes begun from stored versions the release check never dereferences an absent PreemptedBy |
| LifecycleSafety.PodsOfOneGang | internal/controller/trainjob_controller.go:602-615 | worker pods are of the current attempt and of ranks below WorldSize; Submitted, Queued, Preempted and Failed jobs have none, Succeeded ones only finished ones |
| LifecycleSafety.GangDecision | internal/controller/trainjob_controller.go:503-527 | one call: without a failed pod a pass decides Succeeded iff every rank has succeeded, and Running iff every rank runs or has succeeded but not all have succeeded |
| GangSafety.PhaseChangeSawGang | internal/controller/trainjob_controller.go:566-580 | in any run, whenever the stored phase becomes Running or Succeeded, a state since the beginning of the pass that writes it, over that version of the job, shows all ranks of the attempt up, or all succeeded, and none failed |
| GangSafety.TrainPassBegan | internal/controller/trainjob_controller.go:64-74 | a pass in flight carries the copy its beginning read |
| InferenceSafety.InfStepMoves | internal/controller/inferencejob_controller.go:118-210 | an InferenceJob's phase changes only by its own pass's last write, along an allowed edge |
| InferenceSafety.InferenceProgress | internal/controller/inferencejob_controller.go:231-253 | the phase rank never decreases: Starting is not re-entered, Failing leads only to Failed, Failed stays |
| InferenceSafety.NoPodAfterFailing | internal/controller/inferencejob_controller.go:185-203 | once Failing is stored no pass creates a pod again, and Failed is stored only when there is none |
| InferenceSafety.PodsAppearForServedJobs | internal/controller/inferencejob_controller.go:160-165 | a pod appears only for a job in Starting, Running or Restarting |
| InferenceSafety.PhaseChangeHonoursBudget | internal/controller/inferencejob_controller.go:139-184 | whenever a served job's phase changes, a state since the beginning of the pass that writes it shows the judged pod: restarts at most MaxRestarts for Running and Restarting, at least MaxRestarts for Failing |
| InferenceSafety.KeptPhaseHonoursBudget | internal/controller/inferencejob_controller.go:139-165 | whenever a pass leaves a served job in its phase, the pod it judged since it began had at most MaxRestarts restarts |
| InferenceSafety.VerdictHasPod | internal/controller/inferencejob_controller.go:142-159 | the verdict a pass carries is that of the pod a state since the beginning of this very pass shows, on the copy it began with |
| InferenceSafety.PassBegan | internal/controller/inferencejob_controller.go:57-66 | a pass in flight carries the copy its beginning read |
| LedgerSteps.StepKeepsLedger | internal/controller/trainjob_controller.go:64-155 | every action of every party keeps the ledger's invariant, outdated copies included |
| LedgerSteps.RunLedger | internal/controller/queue_controller.go:74-233 | the ledger's invariant holds in every state of every run |
| LedgerSteps.QueueStepKeepsLedger | internal/controller/queue_controller.go:74-233 | every single call of a queue pass keeps it, from any cached view |
| LedgerSteps.TrainStepKeepsLedger | internal/controller/trainjob_controller.go:101-153 | every single call of a TrainJob pass keeps it, from whatever version the pass began with |
| LedgerSteps.InferenceStepKeepsLedger | internal/controller/inferencejob_controller.go:70-210 | every single call of an InferenceJob pass keeps it, from whatever version the pass began with |
| PodInvariant.StepKeepsInv | internal/controller/trainjob_controller.go:64-155 | every action of every party keeps the whole invariant, if passes begin with stored versions |
| PodInvariant.RunInv | internal/controller/trainjob_controller.go:64-155 | the whole invariant holds in every state of every run of that kind |
| PodInvariant.TrainStepKeepsPods | internal/controller/trainjob_controller.go:101-153 | every single call of a TrainJob pass keeps the pods' half |
| PodInvariant.InferenceStepKeepsPods | internal/controller/inferencejob_controller.go:70-210 | every single call of an InferenceJob pass keeps the pods' half |
| PodInvariant.CallTouchesOwnObjects | internal/controller/trainjob_controller.go:605-613 | a call changes only the pass's own job, its service, its groups and its pods |
| TrainLifecycle.CallSparesOtherPods | internal/controller/trainjob_controller.go:602-615 | a call deletes no pod of another job or another attempt |
| TrainLifecycle.CallHeadsForMove | internal/controller/trainjob_controller.go:147-154 | every pass, at every call, is heading for a status write along the phase graph |
| TrainLifecycle.CallWrites | internal/controller/trainjob_controller.go:157-194 | a TrainJob pass writes TrainJobs, Services, PodGroups and worker pods, never the ledger, the quota or inference objects |
| TrainLifecycle.AggregateCounts | internal/controller/trainjob_controller.go:510-525 | the loop counters are the sizes of the sets of running, ready, succeeded and listed pods, and the kept failed pod is the first one listed |
| TrainLifecycle.GangPhase | internal/controller/trainjob_controller.go:566-580 | from counters to all ranks, whatever order the pods are listed in |
| TrainLifecycle.RetryNeedsFailedPod | internal/controller/trainjob_controller.go:631-645 | a retry is decided iff a pod of the attempt failed and the budget is left; the record names a failed pod of that attempt |
| PassEffects.CompletePass | internal/controller/trainjob_controller.go:101-129 | a complete pass: the Service selects the current rank-0 pod on its port, every rank has its pod, the phase says what all ranks are and, when it changes, the counters are the numbers of running and ready pods; or, a pod having failed, exactly the attempt's pods are gone, a failed pod is on record and the job retries or fails by its budget |
| TrainEffects.WaitingPass | internal/controller/trainjob_controller.go:76-98 | a new job is submitted, a submitted one queued, and a Queued one started iff the ledger lists it with its RequeueCount; nothing else changes |
| TrainEffects.FailedGroupPass | internal/controller/trainjob_controller.go:679-690 | over a Starting job whose group has failed a pass ends in Failed with exactly the attempt's pods gone and the group's failure on record |
| TrainEffects.PreemptedPass | internal/controller/trainjob_controller.go:130-145 | a pass over a Preempted job: Queued again under the next RequeueCount with its group deleted, iff the group is gone or its preemptor no longer stands in the way; otherwise nothing changes |
| TrainEffects.FinishedPass | internal/controller/trainjob_controller.go:99-100 | over a Succeeded or Failed job a pass does nothing |
| Conflicts.NoLostTrainUpdate | internal/controller/trainjob_controller.go:425-460 | a TrainJob pass overwrites a job, a Service or a PodGroup only in the version it has read, and no pod at all |
| Conflicts.RefusedWriteEndsPass | internal/controller/trainjob_controller.go:462-484 | a pass that finds made what it is to create, or changed what it is to update, leaves everything as it is and ends |
| Conflicts.LateDeletionGoesOn | internal/controller/trainjob_controller.go:589-615 | a pass that finds gone the pod or group it is to delete goes on with the next pod or the status write |
| Conflicts.NoLostInferenceUpdate | internal/controller/inferencejob_controller.go:75-114 | an InferenceJob pass overwrites its job only in the version it has read, and does no more to a pod than mark it |
| Conflicts.RefusedServingEndsPass | internal/controller/inferencejob_controller.go:263-281 | an InferenceJob pass whose write is refused leaves everything as it is and ends |
| Conflicts.FoundPodIsLeftAlone | internal/controller/inferencejob_controller.go:263-268 | a pass that finds the pod made meanwhile writes its verdict and leaves the pod alone |
| Conflicts.NoLostQueueUpdate | internal/controller/queue_controller.go:229-232 | a queue pass replaces the ledger only while quota and ledger are those it has read |
| PassEffects.MarkedPass | internal/controller/trainjob_controller.go:692-702 | over a marked Running job a pass ends in Preempted with its pods gone and the attempt unchanged, also when pods had failed |
| PassEffects.DropRun | internal/controller/trainjob_controller.go:608-613 | deletion removes exactly the listed pods before the status is written |
| PassEffects.ServiceRun | internal/controller/trainjob_controller.go:406-460 | after the Service step the job's Service has the current selector and one port, MasterPort or 29500, whatever it was, and no other Service has changed |
| PassEffects.RanksRun | internal/controller/trainjob_controller.go:462-484 | the pod loop creates exactly the missing ranks |
| PassEffects.GroupRun | internal/controller/trainjob_controller.go:659-713 | a new group asks for the whole gang and carries no report; a running job's stale preemption detail is cleared |
| OutdatedCopies.CopyMakesPodsExactly | internal/controller/trainjob_controller.go:101-116 | from any copy of its job on any store a pass makes pods iff the copy is Starting, Running or Retrying, its group does not end the pass, and a rank of the copy's attempt has no pod |
| OutdatedCopies.CopyMakesGroupExactly | internal/controller/trainjob_controller.go:663-677 | from any copy of its job on any store a pass makes a group iff the copy is Starting, Running or Retrying and the group of its attempt is not there |
| OutdatedCopies.PodsAppearByDrivingCopies | internal/controller/trainjob_controller.go:462-484 | in any run a worker pod appears only by a pass with such a copy; for a job in another phase that copy is not the stored job |
| OutdatedCopies.CopyPanicsExactly | internal/controller/trainjob_controller.go:157-167 | a pass dereferences an absent PreemptedBy iff its copy, the stored version or an older one, is Preempted and the copy's group is there unmarked |
| OutdatedCopies.InferenceCopyMakesPodExactly | internal/controller/inferencejob_controller.go:139-165 | from any copy on any store a pass makes the inference pod iff the copy has the finalizer and no deletion mark, is in Starting, Running or Restarting, and there is no pod |
| LagWitnesses.OutdatedCopyBreaksQuota | internal/controller/trainjob_controller.go:101-127 | a run in which no cache goes back and an existing, listed job has unfinished pods of two attempts that ask for twice the quota |
| LagWitnesses.NilDereference | internal/controller/trainjob_controller.go:157-167 | a run in which no cache goes back and a pass that began with the stored version panics |
| LagWitnesses.PodForFailingJob | internal/controller/inferencejob_controller.go:139-165 | a run in which no cache goes back and a pod is made for a job that is Failing |
| LagWitnesses.PhantomMark | internal/controller/trainjob_controller.go:663-677 | a run with one copy from before the preemption that ends with a Queued job whose group is marked, nobody having marked it since |
| LagWitnesses.PodForFailedJob | internal/controller/inferencejob_controller.go:139-165 | a run with one copy from before the failure that ends with a Failed job that has a pod |
| Wakeups.RequestsForQueue | internal/controller/trainjob_controller.go:229-247 | a queue event enqueues exactly the Queued jobs |
| Wakeups.RequestsForVictims | internal/controller/trainjob_controller.go:247-285 | a job event enqueues exactly the owners of the groups marked by that job |
| Wakeups.CanMoveMeansMoves | internal/controller/trainjob_controller.go:83-98 | a pass over a Queued or Preempted job changes it iff the wait condition holds, and to Starting or Queued |
| Wakeups.VictimReleasedExactly | internal/controller/trainjob_controller.go:157-194 | an undisturbed pass queues a Preempted job again iff its group is gone, or marked by a job that is gone, an inference job that is Failed, or a train job that is Running or Failed |
| Wakeups.PreemptedMoves | internal/controller/trainjob_controller.go:157-194 | the release check's outcome, call by call |
| Wakeups.NoLostTrainWakeup | internal/controller/trainjob_controller.go:207-285 | any change that lets a waiting TrainJob move enqueues it |
| Wakeups.NoLostInferenceWakeup | internal/controller/inferencejob_controller.go:358-376 | any change that lets a queued InferenceJob move enqueues it |
| Liveness.WokenWhenMovable | internal/controller/trainjob_controller.go:225-286 | along a run, a TrainJob that comes to be movable was enqueued by a step since which it has been movable |
| Liveness.InferenceWokenWhenMovable | internal/controller/inferencejob_controller.go:355-378 | the same for queued InferenceJobs |
| QueueWakeups.WritesExactly | internal/controller/queue_controller.go:104-233 | a pass has something to write iff an entry does not survive or some head is not listed and fits |
| QueueWakeups.NoLostQueueWakeup | internal/controller/queue_controller.go:235-270 | with the classes unchanged, any change that gives a pass something to write is one of a job the cache shows, the quota or the ledger, and enqueues the queue |
| QueueWakeups.QueueWokenWhenMovable | internal/controller/queue_controller.go:235-270 | along a run, a queue that comes to have something to write was enqueued, or a class changed, in a step since which it has had |
| QueueWakeups.ClassChangeUnblocksExactly | internal/controller/queue_controller.go:179-208 | with every entry surviving, some values of the classes give a pass something to write iff some waiting, unlisted, fitting job is the oldest of its class |
| QueueWakeups.ClassChangeWakesNobody | internal/controller/queue_controller.go:235-270 | a change of the classes enqueues no queue |
| QueueWakeups.SwappedClassesUnblock | internal/controller/queue_controller.go:190-208 | two jobs and one gpu for which swapping the class values gives an idle pass something to write |
| Liveness.StrandedVictim | internal/controller/trainjob_controller.go:179-193 | a victim of a succeeded train preemptor stays Preempted until somebody outside the controllers interferes |
| Witnesses.StrandedIsReached | internal/controller/trainjob_controller.go:179-193 | a run into a state in which the preemptor of a Preempted job has succeeded and the victim is not released |
| QueueOutcome.FinishedJobsAreReleased | internal/controller/queue_controller.go:104-136 | after a pass every listed TrainJob is there, neither Succeeded nor Failed, with a RequeueCount at most that of its entry, and every listed InferenceJob is there and not Failed |
| QueueOutcome.LiveJobsKeepTheirs | internal/controller/queue_controller.go:104-136 | an entry of such a job is still listed after the pass |
| QueueOutcome.LaterJobsWait | internal/controller/queue_controller.go:190-208 | while a job of a class with a higher value, or an older one of an equal value, is queued, a job without a charge gets none |
| QueueOutcome.FirstTrainIsAdmitted | internal/controller/queue_controller.go:150-226 | the first of the queued jobs by class value and age, a TrainJob without a live charge whose demand fits on every resource beside the sum of the live charges, gets one entry: requests times WorldSize, under its RequeueCount; nobody else does |
| QueueOutcome.FirstInferenceIsAdmitted | internal/controller/queue_controller.go:166-226 | the same for an InferenceJob, charged its requests |
| QueueOutcome.NewEntriesAreOfQueuedJobs | internal/controller/queue_controller.go:147-226 | a new entry is of a Queued job and charges its demand, and there is at most one |
| QueueOutcome.TotalIsSum | internal/controller/queue_controller.go:138-145 | the ledger total on a resource is the sum of what its entries charge |
| QueueAdmission.ComparatorIsStrictWeakOrder | internal/controller/queue_controller.go:190-195 | the comparator is a strict weak order, and two jobs tie iff their classes have equal values and they are of the same age |
| QueueOutcome.BlockedHeadBlocksAll | internal/controller/queue_controller.go:197-208 | no bypass: when the demand of the first of the queued jobs does not fit on some resource nobody is admitted |
| QueueAdmission.PassNeverOvercommits | internal/controller/queue_controller.go:138-145 | under charges that are not negative a pass leaves each resource at most at the larger of its charge and the quota, and never raises an over-committed one; the exact condition is OvercommitsExactly |
| QueueAdmission.OvercommitsExactly | internal/controller/queue_controller.go:138-145 | no pass over a ledger, whatever the jobs and classes, lifts a resource over the larger of its charge and the quota iff the ledger's positive charges alone stay within that bound |
| QueueAdmission.NegativeDemandOvercommits | api/v1/trainjob_types.go:36-48 | with a negative worldSize a pass lifts the charge over the quota: the input behind OvercommitsExactly |
| QueueAdmission.UpdateFlagIsExact | internal/controller/queue_controller.go:229-232 | a write is due iff an entry was dropped or appended, that is, iff the list differs |
| QueueAdmission.PassExists | internal/controller/queue_controller.go:179-226 | whatever the jobs are, some ledger is one the pass may leave: whoever waits, there is a head |
| QueueAdmission.CleanAfterPass | internal/controller/queue_controller.go:104-136 | a second pass drops nothing |
| QueueAdmission.SecondPassChangesNothing | internal/controller/queue_controller.go:179-232 | a second pass on unchanged jobs changes nothing iff every job tied for the first place is listed or does not fit behind the other |
| QueueAdmission.WithoutTiesSecondPassIdle | internal/controller/queue_controller.go:190-195 | without ties in priority and age a second pass changes nothing |
| QueueAdmission.TiedHeadsBreakTheFixedPoint | internal/controller/queue_controller.go:190-195 | two tied jobs for which it does |
| QueueReconciler.Reconciler.Reconcile | internal/controller/queue_controller.go:74-233 | a completed pass leaves the survivors in order and at most one more entry, of a queued job that was not listed and fits and that no queued job comes before by class value and age; no finished job is listed; it writes iff the ledger differs; a failed pass changes nothing |
| QueueReconciler.CleanUsed | internal/controller/queue_controller.go:104-136 | the loop keeps exactly the entries of jobs that are there, unfinished and not ahead, and its flag says whether one was dropped |
| QueueReconciler.RemainingQuota | internal/controller/queue_controller.go:138-145 | what remains is quota minus the sum of charges for every resource, in any order of the map, absent ones being zero |
| QueueReconciler.TotalNeeded | internal/controller/queue_controller.go:150-155 | the demand is requests times WorldSize on every resource |
| QueueReconciler.CollectQueued | internal/controller/queue_controller.go:147-177 | exactly the queued jobs of both kinds are collected, in any order of the maps |
| QueueReconciler.SortByPriority | internal/controller/queue_controller.go:190-195 | the array ends up a permutation of what it was, with class values that never rise and, among equal ones, ages that never fall |
| QueueReconciler.PickHead | internal/controller/queue_controller.go:190-197 | the picked job is collected and no collected one has a higher class value, or an equal one and is older |
| QueueReconciler.CheckFit | internal/controller/queue_controller.go:198-207 | the flag says whether every dimension fits, and the charge is the whole demand |
| QueueReconciler.FindEntry | internal/controller/queue_controller.go:210-216 | finds an entry of the job iff there is one |
| QueueReconciler.AdmitHead | internal/controller/queue_controller.go:209-226 | appends the head's entry iff it fits and is not listed |
| TrainJobReconciler.Reconciler.Reconcile | internal/controller/trainjob_controller.go:64-155 | for any number of successful calls and any copy of the job in the cache the method leaves the store of the call machine, and panics iff that does |
| TrainJobReconciler.Reconciler.DriveGang | internal/controller/trainjob_controller.go:101-129 | the branch of a started job, from its Service to its status write, is the machine's, cut short at any call |
| TrainJobReconciler.Reconciler.CheckQueue | internal/controller/trainjob_controller.go:83-98 | the gate opens iff the ledger holds an entry of the job with its RequeueCount |
| TrainJobReconciler.Reconciler.ShouldVictimRequeue | internal/controller/trainjob_controller.go:157-194 | the release check is the machine's |
| TrainJobReconciler.Reconciler.DeletePodGroup | internal/controller/trainjob_controller.go:589-600 | so is the deletion of the group, NotFound being ignored |
| TrainJobReconciler.Reconciler.EnsureMasterService | internal/controller/trainjob_controller.go:406-460 | the Service step is the machine's, cut short at any call |
| TrainJobReconciler.Reconciler.BringUpToDate | internal/controller/trainjob_controller.go:425-450 | the compared and patched Service ends up with the wanted selector and port, and the flag says whether anything differed |
| TrainJobReconciler.Reconciler.EnsureWorkerPodGroup | internal/controller/trainjob_controller.go:659-713 | so is the group step, with the status it leaves in each branch |
| TrainJobReconciler.Reconciler.CreatePodGroup | internal/controller/trainjob_controller.go:663-677 | creating the group is the machine's |
| TrainJobReconciler.Reconciler.ClearDetail | internal/controller/trainjob_controller.go:703-709 | clearing the stale detail is the machine's |
| TrainJobReconciler.Reconciler.EnsureWorkerPods | internal/controller/trainjob_controller.go:462-484 | so is the pod loop, cut short at any call |
| TrainJobReconciler.Reconciler.AggregateWorkerStatus | internal/controller/trainjob_controller.go:503-527 | so is listing and counting |
| TrainJobReconciler.Reconciler.CountWorkers | internal/controller/trainjob_controller.go:510-525 | the counting loop computes the counts AggregateCounts is about |
| TrainJobReconciler.Reconciler.DeleteWorkerPodsForAttempt | internal/controller/trainjob_controller.go:602-615 | so is the deletion loop |
| TrainJobReconciler.Reconciler.HandleFailedAttempt | internal/controller/trainjob_controller.go:631-645 | so is the failure branch, with the status it leaves |
| TrainJobReconciler.Reconciler.ApplyWorkerStatus | internal/controller/trainjob_controller.go:647-657 | the counters and phase are applied, and the flag says whether the phase changed |
| InferenceJobReconciler.Reconciler.Reconcile | internal/controller/inferencejob_controller.go:57-213 | for any number of successful calls and any copy of the job in the cache the method leaves the store of the call machine |
| InferenceJobReconciler.Reconciler.FinishDeletion | internal/controller/inferencejob_controller.go:70-100 | so does the deletion branch |
| InferenceJobReconciler.Reconciler.AddFinalizer | internal/controller/inferencejob_controller.go:108-114 | so does adding the finalizer |
| InferenceJobReconciler.Reconciler.CheckQueue | internal/controller/inferencejob_controller.go:123-138 | the gate opens iff the ledger lists the job |
| InferenceJobReconciler.Reconciler.ServePod | internal/controller/inferencejob_controller.go:139-184 | so does judging the pod and creating a missing one |
| InferenceJobReconciler.Reconciler.EnsureWorkerPod | internal/controller/inferencejob_controller.go:263-281 | the pod is created only if it is still missing |
| InferenceJobReconciler.Reconciler.DrainPod | internal/controller/inferencejob_controller.go:185-200 | so does the Failing branch |
| InferenceJobReconciler.GetPodRestartCount | internal/controller/inferencejob_controller.go:255-261 | the loop sums the restart counts |
| InferenceJobReconciler.RemoveFinalizer | internal/controller/inferencejob_controller.go:75-83 | the rebuilt list is the one RemovesOnlyItsFinalizer is about |
| InferenceJobReconciler.HasFinalizer | internal/controller/inferencejob_controller.go:101-107 | found iff it is there |
| InferenceJobReconciler.LastFailure | internal/controller/inferencejob_controller.go:166-184 | the last container with a termination on record wins |
| InferenceLifecycle.RemovesOnlyItsFinalizer | internal/controller/inferencejob_controller.go:75-83 | the other finalizers stay, in their order |
| InferenceLifecycle.WithoutMembers | internal/controller/inferencejob_controller.go:77-82 | exactly the own finalizer goes, wherever and however often it stands |
| InferenceEffects.MissingPodIsRecreated | internal/controller/inferencejob_controller.go:215-281 | a pass over a served job without a pod creates one and leaves it in Starting if it never ran, in Restarting otherwise, in Failing for a budget below zero; nothing else changes |
| InferenceEffects.ServedPass | internal/controller/inferencejob_controller.go:139-184 | a pass over a served job with a pod: Failing above MaxRestarts; else, for a pod being deleted, Starting or Restarting; for a ready one Running; for a crashed one Restarting, or Failing at MaxRestarts; else the phase stays. The last recorded termination is kept when it fails |
| InferenceEffects.RestartsIsSum | internal/controller/inferencejob_controller.go:255-261 | the restart count is the sum of the containers' restarts |
| InferenceEffects.LastExitIsLast | internal/controller/inferencejob_controller.go:166-184 | the recorded exit is that of the last container with a termination, the current one before the last |
| InferenceEffects.FailingPass | internal/controller/inferencejob_controller.go:185-200 | a pass over a Failing job marks its pod deleted and changes nothing else; without a pod it ends in Failed |
| InferenceEffects.FailedPass | internal/controller/inferencejob_controller.go:201-203 | over a Failed job a pass does nothing |
| InferenceEffects.DeletedPass | internal/controller/inferencejob_controller.go:70-100 | a pass over a deleted job marks its pod deleted; without a pod the own finalizer goes, and with the last finalizer the job |
| InferenceEffects.FinalizerPass | internal/controller/inferencejob_controller.go:101-114 | a pass over a job without the finalizer appends it and does nothing else |
| InferenceEffects.WaitingPass | internal/controller/inferencejob_controller.go:119-138 | a new job is queued, and a queued one started iff the ledger lists it; nothing else changes |
| InferenceLifecycle.CallWrites | internal/controller/inferencejob_controller.go:57-213 | an InferenceJob pass writes inference jobs and inference pods only |
| Refinement.TrainPassLeads | internal/controller/trainjob_controller.go:64-155 | what the TrainJob reconciler leaves, cut short anywhere and from any version of its job, is what its own Begin and Step actions leave, nothing else happening |
| Refinement.InferencePassLeads | internal/controller/inferencejob_controller.go:57-213 | the same for the InferenceJob reconciler |
| Refinement.QueuePassLeads | internal/controller/queue_controller.go:74-233 | every ledger an undisturbed queue pass may leave is left by its own calls: reading the queue, listing the jobs, listing the classes if anybody waits, writing if it differs |
| Names.AtoiItoa | internal/controller/trainjob_controller.go:536-543 | printing and parsing a counter gives it back |
| Names.ServiceNameInjective | internal/controller/trainjob_controller.go:289-291 | Services of different jobs have different names |
| Names.GroupNameInjective | internal/controller/trainjob_controller.go:715-721 | (job, attempt) and the group name determine each other, for all job names |
| Names.PodNameInjective | internal/controller/trainjob_controller.go:333-341 | (job, attempt, rank) and the pod name determine each other, for all job names |
| Names.AttemptSelectorExact | internal/controller/trainjob_controller.go:506-506 | the attempt selector matches exactly that job's pods of that attempt |
| Names.MasterSelectorExact | internal/controller/trainjob_controller.go:293-310 | the master selector matches exactly the rank-0 worker pod of the current attempt |
| Names.FailureSummaryRoundTrip | internal/controller/trainjob_controller.go:529-543 | the failure record has the attempt and rank the pod was built with |

## Left out

- PodsWithinQuota: counts the worker pods of jobs that exist or are still listed; those of deleted jobs whose entry is gone are outside, because the bound is false for them (Witnesses.DeletedTrainReleasesBeforeItsPods, PodChargeKeptExactly).
- PodInvariant.RunInv: and the theorems about worker pods hold where passes begin with stored versions; otherwise they are false (LagWitnesses.OutdatedCopyBreaksQuota, OutdatedCopies).
- TrainStepKeepsLedger: outdated reads of groups, pods, services and preemptors within a pass are not modelled; a pass reads them as stored at that call.
- TrainPassLeads: two overlapping passes over one job are not modelled; the work queue rules them out.
- StrandedVictim: is stated for passes that begin with stored versions; it says what the controllers do not do, not what an operator may do by hand.
- WokenWhenMovable: says that the job is enqueued, not when the work queue gets round to it.
- SortByPriority: the library sort is modelled as an insertion sort; only order and permutation are used.
- BringUpToDate: a Service has its selector and its ports; the target port is its integer value.
- Content of pods (images, commands, env, probes, volumes, checkpoint mounts), owner references, and reasons, messages and times of failure records; an inference failure keeps its exit code only.
- The scheduler: which victims it picks, its preemption plan, timeouts of pod groups. It may report anything on a group except take a PreemptedBy back.
- Several namespaces (pods are listed by labels alone), several queues, a missing or deleted queue, jobs that name no queue.
- Deletion of worker pods and pod groups that takes time, and the race it opens for a group recreated while the old one terminates.
- Overflow of 32-bit counters and of quantities; a queue without a quota map, on which the remaining-quota loop panics.
- An InferenceJob whose name equals a worker pod's name, and reuse of a deleted job's name while its old entry is listed.
- CompletePass: says what RunningWorkers and ReadyWorkers are when they are stored, which is only together with a change of phase; in between they may lag, and nothing is claimed of them.
- Entries of an unknown job type, which cleanup drops without setting the update flag; the types are the two constants.
