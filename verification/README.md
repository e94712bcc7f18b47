# The agent pool operator, modelled and proved

The operator keeps, for every AgentPool object, a set of single-use Azure Pipelines agent pods. Every
pass of its control loop reads the job queue of Azure DevOps (ADO), recycles completed pods and their
cache volumes, scales the pods up or down, keeps an offline placeholder agent registered while no agent
is wanted, and writes what it did to the object's status. Any call may fail; most errors are swallowed or
left to the next pass. This project models that loop and the allocator of cache-volume slots beneath it,
and proves what survives arbitrary failures over whole runs.

## How it is modelled

| file | content |
|---|---|
| `Base.dfy`, `Naming.dfy` | small shared facts; names of slots, pods and placeholders, with a parser for slot names |
| `Store.dfy`, `Ledger.dfy` | pods, claims, AgentPools, the agents registered in ADO; the invariants; what a run is observed by |
| `Cluster.dfy` | the API server and ADO as a class; each call may fail and lets the environment move first |
| `Jobs.dfy` | the loop over the job list, the target |
| `Allocator.dfy` | provisioning, assignment with rollback, release and counting of slots |
| `Stages.dfy`, `Pass.dfy` | what each stage, and a whole pass, does to the store: a relation between two states |
| `Controller.dfy` | the control loop, method by method, proved to follow that relation |
| `Course.dfy`, `Scaling.dfy`, `Invariants.dfy`, `Dummies.dfy`, `Convergence.dfy` | theorems about one pass |
| `Capacity.dfy`, `Accounting.dfy`, `Losses.dfy`, `Supply.dfy` | and about slots: how many there are, their books, why they get lost, whether they suffice |
| `Witnesses.dfy` | concrete passes and runs that do what the documentation does not say |
| `Runs.dfy` | theorems about whole runs, and the method `Operate` that performs them |

**State and failure.** `Cluster` holds the store. Every call to it may fail without effect, and before it
takes effect the environment may move any number of times. What the environment does to a pod is a
timeline fixed when the pod is created but unknown to the operator (`Fate`: when it starts, ends, is
deleted from outside); what ADO answers, its job lists and the ids of its pools, is an arbitrary function
of the question and the time (`Azure`). To hold for all timelines and all such functions is to hold for
every behaviour of the environment. A ghost ledger counts failed calls by kind, writes, token reads, pod names
chosen, and *unsafe instants*: after each move of the environment and each successful write the store is
inspected, and `Cluster.Ok` says that it has been safe every time.

**Passes and runs.** `Controller.Reconcile` guarantees `Passes.PassOf`, a relation that records the state
after each stage. The theorems are lemmas about that relation, so they hold for every outcome the code can
have. A run (`Runs.RunOf`) is any sequence of passes of any AgentPools, waiting, and users creating, editing
and deleting AgentPools; `Runs.Operate` shows that everything the code does is such a run, and that every instant of it is safe.

**Keeping proofs small.** Some predicates (`Base.Counts`, `Ledgers.SafeNow`, `Ledgers.Idle`, `Passes.FullOf`,
`Accounting.StoreStep`, and the `Is...` predicates of `Allocator.dfy` and `Stages.dfy`) are written with a
quantifier over one value and a trigger, so that a proof only sees their content when it mentions the trigger.

## Hypotheses

They are in the model or in `requires` clauses, by the names in brackets. `Runs.FreshStart` and
`Runs.FreshRegistry` give states in which what is required of the beginning of a run holds.

- Reads see the operator's own writes; a failed call has no effect; a delete takes effect at once; phase
  Unknown does not occur; claims are never deleted from outside. Label patches are merge patches (section 2
  of RFC 7396) without a version check.
- One ADO organisation: ids of ADO pools and agents of AgentPools that name different organisations would
  coincide in the registry.
- Passes do not overlap: the controller is set up with the default single worker
  (`internal/controller/agentpool_controller.go:560-567`). AgentPools are created, edited and
  deleted between passes; one deleted before it has its finalizer is gone at once (`Clusters.Doomed`).
- Template names differ (`Distinct`), where slot counts matter also in their first 20 bytes
  (`DistinctCuts`), and no other pool owns a claim of a planned name (`NamesOwned`); over runs that follows
  from the names of AgentPools and templates alone (`NamesApartInRun`).
- `podLabels` does not rebind the key `agentpool` (`OwnLabel`), `minAgents <= maxAgents` where it is used,
  ids of ADO pools and agents are positive int32 numbers (`IdsOk`; `Resolved` says of a pass that the ADO pool
  id it read is not 0, whether from the status or from ADO, and `PoolIDsOk` that ADO gives no such id), pending
  counts fit int32 where stated.
- For convergence under failures the ADO pool id is persisted (`Settled`); a pass without failures may be the
  one that finds it.
- Pod names are new to the pods and claim labels of the namespace where the books are kept (no increase of the
  ledger's `reused`).
- For the placeholder over whole runs: no two AgentPools of any namespaces share a name
  (`PoolNamesDiffer`), an AgentPool is created only when no placeholder of its name is left (`NewNames`),
  and, where a persisted id is said to name a registered agent, ADO does not hand out an id that the status
  of another AgentPool still names (`NewIds`).

## Where the code and its documentation disagree

The model follows the code.

- `internal/controller/pvc.go:237-238` says that the next reconcile heals a failed rollback. Nothing ever
  does: with fresh pod names a stranded slot stays stranded (`Accounting.NeverRecovered`,
  `Runs.BooksOfRun`), and each release that fails in a rollback costs exactly one
  (`Losses.EachFailedRollbackCostsOne`).
- `docs/production.md:12-17` describes the life of a slot as assigned and released on completion.
  Scale-down deletes pods without releasing their slots (`Losses.ScaleDownStrands`), and so does cleanup
  once the spec has no cache volumes left (`Losses.UncachedCleanupStrands`). A pool all of whose slots of
  one template are stranded never creates an agent again (`Runs.BlockedForGood`); two failed calls are enough
  to get there (`Witnesses.FailedRollbackStarves`). The scaling target is therefore reached, and the distance
  to it removed, exactly when every template has a free claim for each missing agent
  (`Scaling.ScalingTarget`, `Convergence.Arrives`); no slot being stranded is enough for that
  (`Supply.TargetReached`).
- `api/v1alpha1/agentpool_types.go:193-197` ties the placeholder id to zero active agents. A pool without
  free slots can be at zero agents without a placeholder (`Dummies.DummyIffZero` gives the exact condition
  for the status, `Dummies.RegisteredIffZeroAgents` for ADO). After a status write lost in an
  unregistration the id that stays behind blocks registration; at target zero ADO ends up with the
  placeholder exactly if it had it or no id was persisted (`Dummies.StaleIdBlocksRegistration`;
  `Witnesses.LostUnregistrationBlocks` is a run in which that happens).
- A second placeholder appears exactly when one is there, its id is not known, the look-up fails and the
  registration does not (`Dummies.SecondDummyIff`; `Witnesses.FailedLookupMayDuplicate` shows two passes
  in which a lost status write leads there).
- Scale-down keeps its own count at or above the target. The pods themselves fall below it exactly when the
  environment takes more of those left alone than the surplus (`Invariants.NotBelowTarget`;
  `Witnesses.OutsideDeleteUndercuts` is a pass without failures in which that happens).
- Scale-down is said to skip busy agents so as not to interrupt their work
  (`internal/controller/agentpool_controller.go:442-444`). It goes by the job list read earlier in the pass, so
  an agent reserved since then is deleted (`Invariants.BusyNeverDeleted`, `Witnesses.ReservedMeanwhile`).
- A pass is said to compute the desired state from scratch (`internal/controller/agentpool_controller.go:75-76`).
  The id of the ADO pool it does not: once persisted it is never looked up again, so after the pool name in the
  spec was edited passes go on serving the pool it used to name (`Course.RenamedPoolIsMissed`).
- The queue length is cut to an int32 (`internal/controller/agentpool_controller.go:139`): one that does not fit
  counts as negative, and the target drops to minAgents (`Jobs.LongQueueWraps`).
- Slot names do not keep pools apart: two short pool names suffice for a collision
  (`Naming.ShortPoolNamesCollide`), and then provisioning does not give every planned slot to its pool
  (`Capacity.EverySlotIff` is exact). Passes stay within their pool nevertheless
  (`Invariants.PassIsIsolated`).
- AgentPools of one name in two namespaces that use one ADO pool share a placeholder agent
  (`Dummies.SharedNameSharesDummy`), and deleting one takes it from the other
  (`Dummies.SharedNameLosesDummy`).
- Level-triggered and idempotent (`internal/controller/agentpool_controller.go:75-76`) is true of the store,
  but a pass that is short of slots may assign and roll back some in vain every time; `Convergence.Fixpoint`
  says exactly when.

## Model

| member | source | states |
|---|---|---|
| Naming.SlotNameRoundTrip | internal/controller/pvc.go:44-56 | a parser that splits at the last dash recovers the slot number and everything before it from every slot name, whatever dashes the pool and template names contain |
| Naming.SlotNameInjective | internal/controller/pvc.go:44-56 | within one pool a slot name determines the slot and the first 20 bytes of the template name |
| Naming.SlotNamesCollideIff | internal/controller/pvc.go:44-56 | slot names of two pools are equal exactly when slot and cut stem are |
| Naming.StemsOfOneTemplate | internal/controller/pvc.go:44-56 | for one template the slot names of two pools share a stem exactly when the pool names agree in their first 40 bytes, so pools with shorter names never do |
| Naming.ShortPoolNamesCollide | internal/controller/pvc.go:44-56 | two different pools share every slot name although neither name is cut |
| Naming.SlotNameLength | internal/controller/pvc.go:44-56 | slot names of int32 slots are at most 78 bytes long |
| Naming.PodNameIsNotDummy | internal/controller/agentpool_controller.go:319 | no agent pod of any pool bears the name of any placeholder agent |
| Naming.PodNamesDiffer | internal/controller/agentpool_controller.go:319 | pod names have at most 47 bytes, and two are equal exactly when the suffix and the first 40 bytes of the pool name are |
| Naming.PodNameRoundTrip | internal/controller/agentpool_controller.go:319 | the suffix is what follows the last dash of a pod name, and the cut pool name what precedes it |
| Naming.DummyNameInjective | internal/controller/agentpool_controller.go:494 | placeholder names of different pool names differ |
| Store.ExclusiveMounts | internal/controller/pvc.go:92-98 | under the invariant two active pods never mount one claim, and a mounted claim is labelled assigned with exactly its pod |
| Store.SafeUnderCreatePod | internal/controller/agentpool_controller.go:316-345 | adding an active pod that owns its claims keeps exclusivity, and keeps the limit if its pool was below it |
| Store.SafeUnderRelease | internal/controller/pvc.go:200-205 | freeing a claim no active pod mounts keeps the invariant |
| Store.ReleaseUndoesGrant | internal/controller/pvc.go:237-251 | releasing what was assigned from free claims restores the labels exactly |
| Clusters.MergePatch | internal/controller/pvc.go:160-164 | a merge patch against an unchanged object yields the modified object |
| Clusters.Cluster.Interfere | internal/controller/pvc.go:125-173 | between any two calls pods advance, end or vanish and job lists change; no move makes the store unsafe |
| Clusters.Cluster.PatchPvc | internal/controller/pvc.go:160-164 | the patch has its effect or fails without one; whether the patched store is safe is left to the caller to prove |
| Clusters.Cluster.CreatePod | internal/controller/agentpool_controller.go:334-337 | a pod appears in phase Pending or the call fails, also when the name is taken; the store stays safe if the pod owns its claims and the pool is below its limit |
| Jobs.CountJobs | internal/azuredevops/client.go:79-91 | the loop returns the number of unfinished jobs and exactly the agents they reserve |
| Jobs.BusyWithinPending | internal/azuredevops/client.go:79-91 | there are never more busy agents than unfinished jobs |
| Jobs.Clamp | internal/controller/agentpool_controller.go:580-589 | the nearest value within the limits when they are ordered; when they cross, the lower limit for values below it and the upper one for all others |
| Jobs.DesiredByQueue | internal/controller/agentpool_controller.go:139 | a queue no longer than minAgents gives the target minAgents, one at least maxAgents long gives maxAgents, any other one agent for each job |
| Jobs.LongQueueWraps | internal/controller/agentpool_controller.go:139 | a queue longer than an int32 can say gives the target minAgents |
| Jobs.DesiredCoversBusy | internal/controller/agentpool_controller.go:139 | with no more jobs than maxAgents the target is at least the number of busy agents |
| Allocator.EnsurePVCPool | internal/controller/pvc.go:58-90 | existing claims keep their labels and only planned ones appear, in the order of the plan up to the one failed call; success means every planned claim exists |
| Allocator.ReleasePVC | internal/controller/pvc.go:200-205 | the claim is free and names no pod, or nothing changed and the failure is counted; exclusivity is kept |
| Allocator.ReleasePVCsForPod | internal/controller/pvc.go:175-198 | frees claims of the pool labelled with the pod and no others; if they could be listed, those left number exactly the failed patches, else none is freed; reports a failure exactly when there was one |
| Allocator.RollbackAssignedPVCs | internal/controller/pvc.go:237-251 | frees claims of the assignment only and tries every one: those left number exactly the failed calls, if the assignment names no claim twice |
| Allocator.FindAndAssignPVCs | internal/controller/pvc.go:125-173 | success assigns one formerly free claim per template; the first failed call ends it, and after a failure as many claims stay assigned as releases failed, so none if none did; capacity is reported only when a template had no free claim |
| Allocator.AssignmentOutcome | internal/controller/pvc.go:125-173 | without failing calls an assignment succeeds exactly when every template has a free claim, and then uses one of each |
| Allocator.CountFreePVCSlots | internal/controller/pvc.go:207-235 | the least number of free claims of a template, at most maxAgents |
| Allocator.FreeCountExact | internal/controller/pvc.go:207-235 | if k slots are counted free, exactly the next k assignments without failing calls succeed, and the one after them fails and changes nothing |
| Controller.CleanupPod | internal/controller/agentpool_controller.go:284-310 | releases the pod's claims and deletes the pod even if the release failed |
| Controller.CleanupCompletedPods | internal/controller/agentpool_controller.go:275-313 | only claims of completed pods are released and only completed pods deleted; every pod is tried once whatever failed before: those left are no more than the failed deletes, those that claims still name no more than the failed releases; success means no failed call |
| Controller.CreateAgentPod | internal/controller/agentpool_controller.go:315-345 | one pod mounting one formerly free claim per template, or an error after one failed call with everything rolled back but one claim for each failed release; the name has the documented form |
| Controller.CreateAgents | internal/controller/agentpool_controller.go:141-152 | creates at most the wanted number and stops at the first attempt that creates none, which it does only at capacity or at a failed call; leaves each template one free claim fewer per pod, and with new names keeps as many claims of the pod it could not create as releases failed |
| Controller.CountActivePods | internal/controller/agentpool_controller.go:569-578 | the Running and Pending pods of the listing, in order |
| Controller.ScaleDown | internal/controller/agentpool_controller.go:442-482 | deletes at most the given number of listed pods, never a busy one; it tries the idle ones in the order of the listing, each once, until enough are gone, and neither a failed delete nor a pod already gone stops it: of those tried the ones still there are no more than the failed deletes |
| Controller.ManageDummyAgent | internal/controller/agentpool_controller.go:484-531 | recovers, registers or unregisters exactly when target and known id call for it; registers over an existing agent only after a failed look-up |
| Controller.FetchPAT | internal/controller/agentpool_controller.go:220-247 | success exactly if the token was read; on failure the status written is the persisted one, and whether that write fails does not matter |
| Controller.ResolvePoolID | internal/controller/agentpool_controller.go:249-273 | the id of the one ADO pool of the name in the spec is in memory and persisted, or the look-up or the status write failed and the status is as before |
| Controller.AdjustPods | internal/controller/agentpool_controller.go:141-159 | scale-up or scale-down towards the target, with the count the status will report |
| Controller.HandleDeletion | internal/controller/agentpool_controller.go:185-218 | unregisters the known placeholder if the token can be read and ADO lets it, and drops the finalizer whatever became of that: of its calls exactly those failed whose effect is missing |
| Controller.Reconcile | internal/controller/agentpool_controller.go:75-183 | every pass follows the pass relation and keeps every instant safe; it asks the work queue for a retry exactly when a read or write of the object, the pod listing or the final status write failed |
| Course.RunsToTheEnd | internal/controller/agentpool_controller.go:75-183 | once the ADO pool id is known a pass gets to the pods and the final status exactly if the object, the token, the job list and the pods could be read, whatever else fails |
| Course.RunsToTheEndAtFirst | internal/controller/agentpool_controller.go:97-108 | a pass that has yet to find the ADO pool id must be able to persist it as well |
| Course.ProvisioningNeverStops | internal/controller/agentpool_controller.go:112-115 | a pass that stops had a failed call other than those of provisioning, and one that stops before provisioning creates no claim |
| Course.TokenFirst | internal/controller/agentpool_controller.go:97-102 | no pass touches claims, pods or the agents registered in ADO without having read the token, which it does at most once |
| Course.PoolIDAfter | internal/controller/agentpool_controller.go:249-273 | the only ADO pool id a pass ever persists is the one ADO gave, during the pass, for the name in the spec, and only where none was |
| Course.RenamedPoolIsMissed | internal/controller/agentpool_controller.go:104-117 | a persisted id is kept and the jobs of its pool are read whatever name the spec has now |
| Course.DeletionRemoves | internal/controller/agentpool_controller.go:185-218 | a deletion removes the object exactly if it could be read and written, also when the token could not be read or the placeholder not be unregistered |
| Scaling.CreatedExactly | internal/controller/agentpool_controller.go:141-152 | without failing calls scale-up creates as many pods as are wanted or as every template has free claims for |
| Scaling.OneFailedAttempt | internal/controller/agentpool_controller.go:141-152 | scale-up makes one attempt for each pod it creates and one more exactly if it stays short; that one ended at its only failed call, but for its rollback, or for want of a free claim |
| Scaling.DeletedExactly | internal/controller/agentpool_controller.go:442-482 | when nothing moves scale-down deletes the lesser of the surplus and the idle pods less the failed deletes |
| Scaling.EveryIdleTried | internal/controller/agentpool_controller.go:442-482 | whatever moves and fails, if scale-down deleted too few pods the idle ones still there are no more than the deletes that failed |
| Scaling.FirstIdleFirst | internal/controller/agentpool_controller.go:455-481 | unless a delete failed, no idle pod listed before one that was deleted is left |
| Scaling.ScalingTarget | internal/controller/agentpool_controller.go:137-159 | a pass without failures and moves ends with max(target, busy) active pods exactly when every template has a free claim for each missing agent |
| Scaling.TargetByQueue | internal/controller/agentpool_controller.go:139 | the target of a pass by the queue it read: minAgents for a short one, maxAgents for a long one, else one agent for each job |
| Scaling.ScalingByQueue | internal/controller/agentpool_controller.go:137-159 | a pass without failures and moves ends with that many active agents, or all busy ones if those are more, exactly when the claims suffice |
| Scaling.TargetCoversBusy | internal/controller/agentpool_controller.go:139 | with pending at most maxAgents that maximum is the target |
| Scaling.TruthfulStatus | internal/controller/agentpool_controller.go:137-170 | if nothing moves, the reported count is the real one whatever failed, exactly unless user labels took created pods away |
| Scaling.BornAreAgents | internal/controller/agentpool_controller.go:319 | every pod a pass creates bears the documented name for its pool, never that of a placeholder |
| Invariants.PassKeepsInv | internal/controller/pvc.go:125-205 | after any pass, whatever fails and moves, every claim mounted by an active pod is labelled with that pod |
| Invariants.PassKeepsBound | internal/controller/agentpool_controller.go:137-159 | a pass leaves no more active pods than there were or than maxAgents |
| Invariants.NeverBothWays | internal/controller/agentpool_controller.go:141-159 | no pass both creates and scales down, and scale-down leaves at least the target of the snapshot |
| Invariants.NotBelowTarget | internal/controller/agentpool_controller.go:154-159 | scale-down leaves exactly the snapshot less what it deleted and what the environment took besides, so it ends below the target exactly if that exceeds the surplus left in place |
| Witnesses.OutsideDeleteUndercuts | internal/controller/agentpool_controller.go:442-482 | a whole pass without failures that ends below its target because a pod was deleted from outside after the listing |
| Invariants.BusyNeverDeleted | internal/controller/agentpool_controller.go:442-481 | no pass deletes a Running or Pending pod the job snapshot names as busy; one that is busy when deleted was reserved after the snapshot was taken |
| Witnesses.ReservedMeanwhile | internal/controller/agentpool_controller.go:442-481 | a whole pass without failures that deletes an agent reserved between the snapshot and the delete |
| Invariants.PassIsIsolated | internal/controller/agentpool_controller.go:125-130 | a pass changes no pod, claim or AgentPool outside its own pool, and new claims bear its label |
| Invariants.OtherPoolUntouched | internal/controller/pvc.go:66-88 | for every other pool a pass is nothing but the passing of time |
| Invariants.CreationIsTransaction | internal/controller/agentpool_controller.go:315-345 | pod creation is all or nothing: one pod with one formerly free claim per template and nothing else changed, or no change at all unless a rollback release failed |
| Invariants.CleanupDoesItsJob | internal/controller/agentpool_controller.go:275-313 | active pods and their claims are untouched; every completed pod of the snapshot is tried once: those left are no more than the failed deletes, those that claims still name no more than the failed releases; without failures none is left and no claim names one |
| Capacity.EnoughSlots | internal/controller/pvc.go:58-90 | successful provisioning gives every template at least maxAgents claims |
| Capacity.PlannedAsLabelled | internal/controller/pvc.go:92-121 | every claim planned bears the name its labels say: of a template of the pool and a slot below maxAgents, free |
| Capacity.EnoughSlotsIff | internal/controller/pvc.go:58-90 | from an empty store it gives exactly maxAgents precisely when no two template names agree in their first 20 bytes |
| Capacity.EverySlotIff | internal/controller/pvc.go:58-90 | whatever claims exist before, provisioning makes every planned name a slot of its template exactly when cut template names differ and nobody else owns a planned name |
| Accounting.Balance | internal/controller/pvc.go:175-205 | the slots of a template are free, held by a pod that mounts them, or stranded, and the three counts add up |
| Accounting.Books | internal/controller/pvc.go:175-251 | the stranded slots after a pass are the earlier ones not released, those that were held and lost their pod, and those assigned in the pass to a pod that is not there, each counted once |
| Losses.EachFailedRollbackCostsOne | internal/controller/pvc.go:237-251 | the slots a pass leaves assigned to pods it did not create number exactly the releases that failed in its rollbacks, and none is another pool's |
| Losses.FailedCleanupsBound | internal/controller/agentpool_controller.go:284-304 | while the spec has cache volumes, the pods whose slots cleanup does not release though it deletes them are no more than the releases that failed in it, and none is another pool's |
| Losses.UnsweptSlots | internal/controller/pvc.go:175-198 | nor does cleanup leave more slots of one template assigned than pods |
| Losses.PassBooks | internal/controller/pvc.go:175-251 | with fresh names the slots a pass strands are, each counted once, those whose pod was deleted by scale-down or from outside, those cleanup did not release, and one for each failed release of a rollback |
| Accounting.NeverRecovered | internal/controller/pvc.go:237-251 | with fresh names stranded slots only grow, by exactly the losses of the pass |
| Losses.OnlyDeletionsStrand | internal/controller/agentpool_controller.go:456-479 | unless a release fails, only pods deleted by scale-down or from outside strand slots |
| Losses.ScaleDownStrands | internal/controller/agentpool_controller.go:456-479 | every slot held by a pod deleted by scale-down is stranded |
| Losses.UncachedCleanupStrands | internal/controller/agentpool_controller.go:284-304 | when the spec has no cache volumes left, cleanup strands every slot still held by a pod it deletes |
| Supply.ProvisioningSuffices | internal/controller/pvc.go:58-90 | scale-up runs out of claims only if more slots of a template are stranded than the target leaves spare; with none stranded, never |
| Supply.TargetReached | internal/controller/agentpool_controller.go:132-159 | with no slot stranded a pass without failures and moves ends with exactly max(target, busy) active pods |
| Dummies.SecondDummyIff | internal/controller/agentpool_controller.go:496-516 | a pass makes a second agent of a name appear exactly when the target is zero, no id is known, ADO has the name, the look-up fails and the registration does not |
| Dummies.AtMostOneDummy | internal/controller/agentpool_controller.go:496-528 | while look-ups answer, no pass registers a placeholder name twice, whatever status writes were lost |
| Dummies.DummiesStayAtHome | internal/controller/agentpool_controller.go:251-273 | placeholders are registered only in the ADO pool the persisted status names, also when later status writes are lost |
| Witnesses.FailedLookupMayDuplicate | internal/controller/agentpool_controller.go:497-510 | two whole passes, the first losing its status write and the second failing its look-up, after which ADO has two placeholders |
| Dummies.DummiesStayKnown | internal/controller/agentpool_controller.go:487-531 | while no status write is lost, every registered placeholder is the one its AgentPool's status names |
| Dummies.IdsStayNamed | internal/controller/agentpool_controller.go:487-531 | while no status write is lost and no id still named is handed out again, the persisted id of an AgentPool not being deleted names a registered agent of its placeholder name |
| Dummies.TeardownLeavesNone | internal/controller/agentpool_controller.go:186-218 | a deletion leaves no placeholder exactly when it unregistered it or there was none; without failures it leaves none |
| Dummies.NothingBeforeFinalizer | internal/controller/agentpool_controller.go:85-95 | until the finalizer is persisted a pass writes nothing else |
| Dummies.StaleIdBlocksRegistration | internal/controller/agentpool_controller.go:496 | after a failure-free pass at target zero ADO has the placeholder exactly if it had it before or no id was persisted |
| Witnesses.LostUnregistrationBlocks | internal/controller/agentpool_controller.go:484-531 | a run in which a status write lost in an unregistration leaves a pool at target zero without its placeholder, although no call of the last pass fails |
| Dummies.SharedNameSharesDummy | internal/controller/agentpool_controller.go:496-503 | a failure-free pass at target zero adopts the placeholder of an AgentPool of the same name that uses the same ADO pool |
| Dummies.SharedNameLosesDummy | internal/controller/agentpool_controller.go:186-218 | an unregistering deletion takes away the agent another AgentPool's status names exactly when both statuses name the same agent |
| Dummies.DummyIffZero | api/v1alpha1/agentpool_types.go:193-197 | after a pass without failures and moves the status names a placeholder exactly when it reports zero agents, with the one exact exception of a pool without free claims |
| Dummies.RegisteredIffZeroTarget | internal/controller/agentpool_controller.go:487-531 | where statuses and registry agree, a failure-free pass leaves the placeholder registered in ADO exactly when its target is zero |
| Dummies.RegisteredIffZeroAgents | api/v1alpha1/agentpool_types.go:193-197 | and if nothing moves, exactly when it reports zero agents, with the same exact exception |
| Convergence.NeverFurther | internal/controller/agentpool_controller.go:110-164 | in a pass during which nothing moves missing slots, completed pods, agents off target and placeholder mismatch never increase in sum, whatever fails |
| Convergence.Arrives | internal/controller/agentpool_controller.go:97-178 | one failure-free full pass, the one that finds the ADO pool id included, brings that sum to zero exactly when every template has a free claim for each missing agent |
| Convergence.Quiet | internal/controller/agentpool_controller.go:110-178 | at zero a pass creates, deletes, patches and registers nothing, whatever fails, and its status is determined |
| Convergence.Fixpoint | internal/controller/agentpool_controller.go:75-183 | a second failure-free pass leaves the whole store, the persisted status included, as it is, whether or not the first had the claims it needed; it writes nothing exactly if it had, or the first template has no free claim |
| Convergence.BlockedPass | internal/controller/pvc.go:125-173 | a pass over a pool whose planned claims all exist and whose slots of some template are all stranded creates no pod and gains no slot, whatever succeeds |
| Runs.Operate | internal/controller/agentpool_controller.go:75-183 | carrying out any script of passes, waits, creations, edits and deletions is a run, and every instant of it is safe |
| Runs.ExclusiveInRun | internal/controller/pvc.go:125-205 | every state of every run labels the claims of active pods with exactly their pods |
| Runs.NeverShared | internal/controller/pvc.go:92-98 | no run lets two active pods mount one claim or a free claim be in use |
| Runs.PoolIDInRun | internal/controller/agentpool_controller.go:249-273 | in every run a persisted ADO pool id is one that ADO gave for a name the spec has or had |
| Runs.BoundInRun | internal/controller/agentpool_controller.go:137-159 | active pods never exceed the largest maxAgents in force, under any failures and passes of other pools |
| Runs.OneDummyInRun | internal/controller/agentpool_controller.go:496-528 | as long as look-ups were answered ADO has never held two agents of one placeholder name |
| Runs.OneDummyAnywhereInRun | internal/controller/agentpool_controller.go:496-528 | and never two placeholders of one AgentPool in different ADO pools |
| Runs.DummiesKnownInRun | internal/controller/agentpool_controller.go:175-178 | as long as no status write was lost every registered placeholder equals the persisted id |
| Runs.IdsNamedInRun | internal/controller/agentpool_controller.go:175-178 | and conversely the persisted id of an AgentPool not being deleted names a registered placeholder of its name |
| Runs.RegisteredIffZeroTargetInRun | internal/controller/agentpool_controller.go:487-531 | so in such a run ADO has the placeholder after a failure-free full pass exactly when its target was zero |
| Runs.NoneLeftBehind | internal/controller/agentpool_controller.go:186-218 | in such a run a deletion leaves no placeholder exactly when it unregistered it or there was none |
| Runs.BooksOfRun | internal/controller/pvc.go:175-251 | over a whole run with fresh names no slot is recovered: the stranded slots are the initial ones, those whose pod was deleted by scale-down or from outside, those cleanup did not release, and one for each failed release of a rollback |
| Runs.FailuresOfRun | internal/controller/pvc.go:175-251 | over such a run, if the pool keeps cache volumes, the failed releases account for the rest: no more pods go unreleased in cleanups than releases failed there, and if no release failed only deletions strand slots |
| Runs.BlockedForGood | internal/controller/pvc.go:125-173 | once all slots of a template are stranded they stay so, and whatever passes a run consists of, the number of the pool's active agents never grows again until its spec is edited |
| Witnesses.FailedRollbackStarves | internal/controller/agentpool_controller.go:315-345 | a run from a store without pods and claims in which a failed pod creation and a failed release strand the only slot, and the next pass, without any failure, leaves the pool at zero agents with target one |
| Runs.NothingStrandedInRun | internal/controller/agentpool_controller.go:132-159 | as long as no release failed and no holder was removed except by cleanup, no slot is stranded |
| Runs.NamesOwnedInRun | internal/controller/pvc.go:44-90 | as long as slot stems of AgentPools differ, no pass of any pool creates a claim of another one's planned names |
| Runs.NeverAtCapacity | internal/controller/pvc.go:58-90 | in such a run, with slot stems that differ, a pass whose provisioning succeeded never hits capacity and creates all the pods it wants unless a call fails |
| Runs.DistanceInRun | internal/controller/agentpool_controller.go:75-183 | while nothing moves, passes of any pools never take a pool further from its goal |
| Runs.ArrivesForGood | internal/controller/agentpool_controller.go:75-183 | after one failure-free full pass with enough claims, be it the first of its life, a pool stays at its goal, and its passes write only the status |

## Left out

- HTTP, JSON, authentication and error texts of the ADO client; ADO is an abstract registry and a job list.
- Set-up of the manager, flags, TLS, leader election, metrics, events, logging and condition messages.
- The pod spec except name, `agentpool` label, claims and phase; the other labels are copied fields.
- Secret contents: reading the token succeeds or fails.
- The distribution of random suffixes: any six lower-case letters and digits, possibly colliding; what depends on fresh names says so through the ledger's `reused` counter.
- Caches of the API client, graceful termination, phase Unknown, calls that fail after taking effect.
- Pods and claims with the pool's label that somebody else creates.
- Kubernetes' rejection of invalid objects, for example a pod with two volumes of one name; with distinct template names there are none.
- Unregistering an id ADO does not know: the model allows either answer.
- Runs.NeverAtCapacity: needs slot stems of different AgentPools and templates to differ, because two pools whose slot names collide do not get all their slots.
- Runs.DummiesKnownInRun: AgentPools are created only when no placeholder of their name is left; what a pass of a re-created AgentPool does with one left over is stated by Dummies.SecondDummyIff and Dummies.StaleIdBlocksRegistration for the single pass.
- Losses.PassBooks: needs pod names that no pod and no claim label of the namespace bears, because a reused name can take over a stranded slot; how many slots a cleanup strands is bounded from above only, because a failed listing of the claims of a pod may concern any number of them.
