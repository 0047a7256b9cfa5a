# Node drain: a verified model

Nodedrain is a Kubernetes operator that drains and reboots nodes one at a time. This project
models its reconciler, its plugin and reboot managers and its log adapter in Dafny 4.11, and
proves what they keep over whole runs. `dafny verify dfyconfig.toml` verifies everything.

## How it is built

- `NodeTypes`, `World`: requested and current states, node records, kube nodes, and `Event`, every
  effect on them: each persisted write and each outside call of the controller, and what users,
  machines and the clock do. `Apply` is the persisted state after one effect.
- `Protocol`: a guarded transition relation. `Allowed` says which effect the controller may have in
  which persisted state, given at most the last two effects. A `Run` is `Valid` when every effect is
  allowed where it happens. Outside effects are always allowed.
- `Safety`, `CheckTiming`: what every valid run keeps, after every single effect.
- `Reconcile`: one reconcile as a function. Its effects stop at the first failure: every failed
  call and every failed write makes the source return, so the failures and crashes of one reconcile
  differ only in how many effects precede them, and `fuel` is that number. Calls answer through
  `Answers`. A `Behaviour` is any sequence of such reconciles and outside effects, and
  `BehavioursAreValid` shows that each one is a valid run.
- `Controller`: the class `NodeReconciler`, the same reconcile in the imperative form of the source,
  each method proved equal to its function.
- `Convergence`: progress under Active when nothing fails.
- `Stages`, `RollingReboot`: a rolling reboot ends under fair rounds, whatever fails on the way.
  `Stages` ranks the states of a node and shows that no effect of the controller raises a rank, and
  `RollingReboot` counts rounds.
- `Outcomes`: what one reconcile makes of every request in every state, stated on the state before and
  after it and on what the host and the plugins answer. `Answering`: what the recorded effects say is
  what was answered.
- `Trap`, `Fairness`: a controller that runs in the cluster it drains and moves only to present nodes
  that are not cordoned. Fair rounds exist for it, and a rolling reboot can be finished, exactly when
  it is not trapped on a node that it has begun to drain.
- `Boundaries`: the guarantees put together for the controller, and where they end.
- `Plugins`, `ZapFields`: the loops of the drain manager and of the log adapter.

A *work turn* of a node is a stretch of Next, Draining, Drained, Undraining and Rebooting.

Assumptions: one worker, fresh reads, and outside effects only between reconciles, except that time
passes in a reconcile: before a test of a stored time, while a reboot-required check runs, and while
the health and drain-ok checks run. What other calls take counts as part of the wait before the next
test, or as time after the reconcile; the write that records a verdict takes no time. The plugins
are those loaded at the start, `Config.plugins`, and every poll and every hook run asks all of them;
a plugin without a reply has failed. A kube patch of `unschedulable` makes the controller the
field's owner when it sets it and leaves it without an owner when it clears it. Times are stored in
whole seconds, as `metav1.Time` is.

## What was found

- Periodic reboot checks can be closer together than the interval, because the last-checked time is
  stored in whole seconds. `PeriodicSpacing` bounds what k checks take for every interval, and for
  every interval and every k the bound is reached (`SpacingIsExact`). With an interval of whole seconds
  it is k - 1 intervals less one second in all, and the stored times keep the full interval
  (`WholeSecondSpacing`).
- The two-minute limit on a reboot-required verdict holds when the health check begins
  (`CommitsOnPositiveVerdict`), not when Draining is written: from every state with a recent positive
  verdict there is a reconcile that writes Draining on one older than two minutes (`OldVerdictHappens`).
  The limit is kept at the write if and only if the age plus the time of the two checks allows it, in
  one reconcile (`DrainsOnAnOldVerdict`) and in every run (`AgeAtDraining`).
- A controller that runs on a node of its own cluster can be trapped. It cordons the node it drains
  and waits to be moved, and if every other node is cordoned and waits for its own reboot, nothing
  that is tolerated in a rolling reboot ever ends that (`TrappedForGood`). One node is enough
  (`OneNodeDeadlocks`). Rolling reboots can be finished exactly when not trapped
  (`FinishesIffNotTrapped`), and with two nodes or more, where every node outside a turn is
  schedulable or asked for Active, they never are (`RoomyForGood`).
- A node asked to drain while its current state is empty breaks mutual exclusion
  (`UnsetBreaksExclusion`), and nothing else does (`OnlyUnsetBreaksExclusion`).
- A drained node that is asked for Cordoned and then for Drained again sits at Next for ever and
  blocks every other node (`DetourBegins`, `DetourEndsStuck`, `StuckBlocksEverybody`). With everything
  favourable, a Drained or RebootIfRequired request at Next does nothing exactly when the `Drained`
  flag is set on a cordoned node and, for a reboot, a positive verdict is on record and not yet due
  again (`NextWaitsIffStuck`).
- A node asked for Active while another owner holds `unschedulable` stays at Next and blocks every
  other node (`WithheldIsLeftAlone`, `WithheldBlocksEverybody`). Two reconciles make a node asked for
  Active idle exactly when it is not so held (`IdleIffNotHeld`).
- A failure between the reboot pod and the write of Rebooting reboots the node twice
  (`LostWriteRebootsAgain`), and so does an uncordon by someone else while it is Rebooting
  (`OutsideUncordonRebootsAgain`); these are the only ways (`OneRebootPodPerTurn`).

## Model

| member | source | states |
|---|---|---|
| `Protocol.StateChangesFollowEdges` | internal/controller/node_controller.go:190-334 | every change of a named current state, in any run, is an edge of the state graph and is made by the controller on that node; no record returns to the empty state |
| `Safety.OnlyUsersDrainUnset` | internal/controller/node_controller.go:339-365 | the controller never makes a record that asks to drain with an empty state; only a user's create or edit does |
| `Safety.StartsWorking` | internal/controller/node_controller.go:649-672 | a node enters a work turn only through Next while no record at all works, or by being drained from the empty state |
| `Safety.OnlyUnsetBreaksExclusion` | api/v1/node_types.go:64-71 | a second node starts to work only by the drain of a node that was asked to drain with an empty state |
| `Safety.MutualExclusion` | internal/controller/node_controller.go:649-672 | at most one node is in a work turn after every effect of every run that never asks an empty-state node to drain |
| `Safety.CommitsAfterTheChecks` | internal/controller/node_controller.go:470-494 | Draining is written only right after a passed health check and a passed drain-ok check of that node |
| `Safety.CommittedNodesPassedTheChecks` | internal/controller/node_controller.go:465-494 | a node past Next has passed both checks in its present work turn |
| `Safety.EvictionIsChecked` | internal/controller/node_controller.go:465-552 | every node-drain call, retries and re-drains included, follows both checks in the same work turn, with every loaded plugin consenting in each and every node ready, and comes right after a PreDrain in which the hook of every loaded plugin succeeded; the node is cordoned and is not the one the controller runs on |
| `Safety.LeavesCommitted` | internal/controller/node_controller.go:569-631 | a committed node leaves by OK only right after a PostDrain in which the hook of every loaded plugin succeeded |
| `Safety.CommittedUntilPostDrain` | internal/controller/node_controller.go:512-566 | after PreDrain a node stays in its turn until PostDrain, a write of Cordoned, or the removal of its record |
| `Safety.PreDrainIsPaired` | internal/controller/node_controller.go:569-631 | between a PreDrain and the node's return to OK there is a PostDrain in which the hook of every loaded plugin succeeded, unless Cordoned was written or the record went |
| `Safety.RebootIsSafe` | internal/controller/node_controller.go:274-292 | when a reboot pod is created its node is the only one in a turn, is Drained with the flag set, is unschedulable, and has its present boot ID saved |
| `Safety.CommitsOnPositiveVerdict` | internal/controller/node_controller.go:238-263 | a turn under RebootIfRequired gets past Next only by a write of Draining whose health check began on a positive verdict at most two minutes old; the verdict is still the one on record at the write, however long the two checks took |
| `Safety.AgeAtDraining` | internal/controller/node_controller.go:241-253 | in every run the verdict is at most two minutes old where Draining is written if and only if its age when the health check began plus the time of both checks is |
| `Safety.RebootFollowsPositiveVerdict` | internal/controller/node_controller.go:238-292 | a reboot in a turn that was under RebootIfRequired at every point follows a write of Draining in that turn whose health check began, also in that turn, on a positive reboot-required verdict at most two minutes old |
| `Safety.RebootingHasAPod` | internal/controller/node_controller.go:274-292 | a Rebooting node has had a reboot pod since which it stayed Rebooting, and its boot ID is still the saved one unless it booted since |
| `Safety.HandBackFollowsABoot` | internal/controller/node_controller.go:294-316 | outside container mode a Rebooting node is set Active only after a boot later than its reboot pod, with a true Ready condition, still drained and unschedulable, and with the saved boot ID and requirement cleared |
| `Safety.NoSecondDrain` | internal/controller/node_controller.go:190-199 | after Rebooting is written the node stays Rebooting, drained and cordoned, or is Undraining, for the rest of its turn, unless someone else uncordons it |
| `Safety.OneRebootPodPerTurn` | internal/controller/node_controller.go:274-292 | two reboot pods in one turn need an outside uncordon between them or a failure right after the first pod |
| `Safety.StatusConsistency` | internal/controller/node_controller.go:554-563 | a Drained or Rebooting node stems from a write of Drained since which it stayed one of the two, and is drained and unschedulable unless someone else uncordoned it after that write |
| `Safety.DrainingIsNotDrained` | internal/controller/node_controller.go:465-494 | after every effect of every run a Draining node has the Drained flag clear |
| `Safety.UncordonDiscipline` | internal/controller/node_controller.go:207-216 | the controller makes a node schedulable only in Undraining right after an all-nodes-ready check, or under Active outside the committed states with no foreign owner |
| `Safety.ForeignCordonIsKept` | internal/controller/node_controller.go:207-216 | a foreign cordon on a node that does not reach Undraining survives everything the controller does, in any run |
| `Reconcile.CompleteUndrainIsAllowed` | internal/controller/node_controller.go:587-605 | the end of an undrain keeps the run valid, wherever it fails; the write of OK needs a PostDrain whose recorded replies are successes of all plugins |
| `Reconcile.CloseUndrainIsAllowed` | internal/controller/node_controller.go:592-602 | resetting Drained and writing OK right after the hooks keep the run valid, wherever it fails |
| `Reconcile.UndrainIsAllowed` | internal/controller/node_controller.go:569-631 | the undrain keeps the run valid and hands on only nodes that need none |
| `Reconcile.ChecksAreAllowed` | internal/controller/node_controller.go:194-204 | resetting a stale Drained and the periodic check keep the run valid |
| `Reconcile.RequestIsAllowed` | internal/controller/node_controller.go:206-235 | the switch over the requested state keeps the run valid; only nodes asked to drain have work left |
| `Reconcile.ActiveIsAllowed` | internal/controller/node_controller.go:207-219 | the Active branch keeps the run valid, and stops before any write when another owner holds the field |
| `Reconcile.CordonedIsAllowed` | internal/controller/node_controller.go:221-227 | the Cordoned branch keeps the run valid and ends in Cordoned |
| `Reconcile.VerdictIsAllowed` | internal/controller/node_controller.go:238-263 | the reboot-required decision keeps the run valid, and a turn goes on from Next only with a positive verdict on record that is at most two minutes old then |
| `Reconcile.RenewVerdictIsAllowed` | internal/controller/node_controller.go:241-253 | renewing a verdict that is older than two minutes keeps the run valid, and afterwards the verdict is recent |
| `Reconcile.DrainChecksAreAllowed` | internal/controller/node_controller.go:470-494 | the checks before a drain keep the run valid and hand on only nodes that may be evicted |
| `Reconcile.AskDrainOkIsAllowed` | internal/controller/node_controller.go:481-494 | the drain-ok check and the write of Draining keep the run valid right after a passed health check |
| `Reconcile.EvictPodsIsAllowed` | internal/controller/node_controller.go:496-566 | cordon, PreDrain, eviction and the write of Drained keep the run valid in this order, wherever it fails |
| `Reconcile.EvictNowIsAllowed` | internal/controller/node_controller.go:512-566 | PreDrain, eviction and the write of Drained keep the run valid on a cordoned node that the controller does not run on |
| `Reconcile.StartRebootIsAllowed` | internal/controller/node_controller.go:275-293 | saving the boot ID, the reboot pod and the write of Rebooting keep the run valid, wherever it fails |
| `Reconcile.FinishRebootIsAllowed` | internal/controller/node_controller.go:294-321 | clearing the boot ID and setting Active keep the run valid, wherever it fails |
| `Reconcile.ClearingIsAllowed` | internal/controller/node_controller.go:303-309 | clearing the boot ID of a node that has rebooted keeps the run valid |
| `Reconcile.HandBackIsAllowed` | internal/controller/node_controller.go:311-314 | setting Active right after the clearing keeps the run valid |
| `Reconcile.RebootIsAllowed` | internal/controller/node_controller.go:274-322 | the reboot part keeps the run valid |
| `Reconcile.ProgressIsAllowed` | internal/controller/node_controller.go:237-334 | the work and queue part keeps the run valid |
| `Reconcile.ReconcileIsAllowed` | internal/controller/node_controller.go:150-337 | refinement: for every state, all answers and every point of failure, each effect of a reconcile is allowed by the protocol |
| `Reconcile.ActsKeepValid` | internal/controller/node_controller.go:150-337 | any sequence of reconciles and outside effects keeps a run valid and its history unchanged at the start |
| `Reconcile.BehavioursAreValid` | internal/controller/node_controller.go:150-337 | every behaviour of the controller, with any failures, crashes and outside effects, is a valid run |
| `Controller.NodeReconciler.constructor` | internal/controller/node_controller.go:84-111 | a new reconciler has had no effect yet |
| `Controller.NodeReconciler.Perform` | internal/controller/node_controller.go:367-424 | one call or persisted write: it happens and is recorded, or nothing changes and the reconcile ends |
| `Controller.NodeReconciler.SetCurrentState` | internal/controller/node_controller.go:376-388 | writes the current state unless it is already that |
| `Controller.NodeReconciler.SetUnschedulable` | internal/controller/node_controller.go:404-413 | cordons or uncordons unless the node is already so, and leaves the records alone |
| `Controller.NodeReconciler.IsClusterHealthy` | internal/utils/drain-manager.go:187-208 | yes exactly when no present node has a failing Ready condition |
| `Controller.NodeReconciler.IsHealthyWith` | internal/utils/drain-manager.go:210-264 | yes exactly when all nodes pass and every plugin consents |
| `Controller.NodeReconciler.RunPluginHooks` | internal/utils/drain-manager.go:318-372 | the reply of every loaded plugin, and success exactly when every hook succeeds |
| `Controller.NodeReconciler.RunCloseUndrain` | internal/controller/node_controller.go:592-602 | equals its specification, at every point of failure |
| `Controller.NodeReconciler.RunCompleteUndrain` | internal/controller/node_controller.go:587-605 | equals its specification, at every point of failure |
| `Controller.NodeReconciler.RunUndrain` | internal/controller/node_controller.go:569-631 | equals its specification, at every point of failure |
| `Controller.NodeReconciler.RunChecks` | internal/controller/node_controller.go:194-204 | equals its specification, at every point of failure |
| `Controller.NodeReconciler.RunPeriodicCheck` | internal/controller/node_controller.go:426-463 | equals its specification, at every point of failure |
| `Controller.NodeReconciler.RunRequest` | internal/controller/node_controller.go:206-235 | equals its specification, at every point of failure |
| `Controller.NodeReconciler.RunRenewVerdict` | internal/controller/node_controller.go:241-253 | equals its specification, and answers whether the verdict now on record is positive |
| `Controller.NodeReconciler.RunVerdict` | internal/controller/node_controller.go:238-263 | equals its specification, at every point of failure |
| `Controller.NodeReconciler.RunDrainChecks` | internal/controller/node_controller.go:470-494 | equals its specification, at every point of failure |
| `Controller.NodeReconciler.RunAskDrainOk` | internal/controller/node_controller.go:481-494 | equals its specification, at every point of failure |
| `Controller.NodeReconciler.RunEvictNow` | internal/controller/node_controller.go:512-566 | equals its specification, at every point of failure |
| `Controller.NodeReconciler.RunEviction` | internal/controller/node_controller.go:540-566 | equals its specification, at every point of failure |
| `Controller.NodeReconciler.RunEvictPods` | internal/controller/node_controller.go:496-566 | equals its specification, at every point of failure |
| `Controller.NodeReconciler.RunDrain` | internal/controller/node_controller.go:465-567 | equals its specification, at every point of failure |
| `Controller.NodeReconciler.RunStartReboot` | internal/controller/node_controller.go:275-293 | equals its specification, the guards of RebootNode included |
| `Controller.NodeReconciler.IsNodeRebooted` | internal/utils/reboot-manager.go:213-262 | yes exactly in container mode, or when the boot ID differs and some Ready condition is true |
| `Controller.NodeReconciler.RunFinishReboot` | internal/controller/node_controller.go:294-321 | equals its specification: clears and hands back exactly when the node has rebooted |
| `Controller.NodeReconciler.RunReboot` | internal/controller/node_controller.go:274-322 | equals its specification, at every point of failure |
| `Controller.NodeReconciler.RunIsNextNode` | internal/controller/node_controller.go:649-672 | the scan over all records finds exactly whether nobody works, and only then writes Next |
| `Controller.NodeReconciler.RunProgress` | internal/controller/node_controller.go:237-334 | equals its specification, at every point of failure |
| `Controller.NodeReconciler.RunReconcile` | internal/controller/node_controller.go:190-336 | equals its specification on a live record, at every point of failure |
| `Controller.NodeReconciler.ReconcileNode` | internal/controller/node_controller.go:150-337 | equals its specification for every name, only adds to the history, and keeps a valid run valid |
| `Convergence.ChecksChangeLittle` | internal/controller/node_controller.go:194-204 | before the switch only the Drained flag of a schedulable node and the reboot verdict change |
| `Convergence.UndrainCompletes` | internal/controller/node_controller.go:569-606 | with a healthy cluster, or on a node that is schedulable already, an undrain ends in OK, undrained and schedulable, touching no other node |
| `Convergence.ActiveStep` | internal/controller/node_controller.go:190-220 | from every current state, Drained flag and cordon, one smooth reconcile under Active brings the node one step closer to idle and touches no other |
| `Convergence.OwnedStep` | internal/controller/node_controller.go:206-220 | the same whoever owns `unschedulable`: the node gets closer to idle unless another owner holds it, and being held never changes |
| `Convergence.IdleIffNotHeld` | internal/controller/node_controller.go:206-220 | two smooth reconciles of a node asked for Active make it idle if and only if it is not held: foreign owner, not in a committed state, and not OK and schedulable already |
| `Convergence.ActiveRanksFall` | internal/controller/node_controller.go:190-220 | in any order of reconciles of any number of nodes, each node gets closer with each of its own |
| `Convergence.ConvergesToActive` | internal/controller/node_controller.go:190-220 | once each node asked for Active has been reconciled twice, in any order, the whole cluster is OK, undrained and schedulable, and stays so |
| `Convergence.AdoptionKeepsCordon` | internal/controller/node_controller.go:339-365 | creating a record for a node and reconciling it leaves the node as schedulable as it was and asks for no drain; the first state is Cordoned or OK, or stays empty when another owner holds a schedulable node's field |
| `Stages.QueueStep` | internal/controller/node_controller.go:228-234 | an OK node asked to reboot is queued, and a queued one gets its turn exactly when nobody works |
| `Stages.TurnStep` | internal/controller/node_controller.go:237-293 | exact: from Next, Draining or Drained, one smooth reconcile hands the node back if and only if the verdict counts there and is against a reboot, which is what the host answers now when the stored verdict is missing or older than two minutes, and the stored one otherwise; if not, it ends Rebooting, drained and cordoned, or at Draining when the controller runs on the node |
| `Stages.VerdictInTurn` | internal/controller/node_controller.go:238-263 | the verdict hands the node back exactly when it counts and is against a reboot, and otherwise leaves its turn as it is |
| `Stages.GivesUp` | internal/controller/node_controller.go:254-262 | a verdict against a reboot hands the node back from Next or Drained, wherever the controller runs and whatever else is answered |
| `Stages.RebootingStep` | internal/controller/node_controller.go:294-321 | a Rebooting node waits unchanged for its boot and is handed back after it |
| `Stages.ActiveStages` | internal/controller/node_controller.go:190-220 | a node asked for Active goes through Undraining to OK, undrained and schedulable, with the exact stage after each reconcile |
| `Stages.UndrainingStep` | internal/controller/node_controller.go:569-631 | a node asked to reboot again while Undraining finishes the undrain and is queued in the same reconcile |
| `Stages.EffectKeepsStage` | internal/controller/node_controller.go:190-334 | no effect that the controller may have raises the rank of its node, and a node starts to work only when nobody works |
| `Stages.ControllerRollsOn` | internal/controller/node_controller.go:150-337 | along any effects of the controller, cut off anywhere, no node of a rolling reboot moves back and one node works at a time |
| `Stages.StageEnds` | internal/controller/node_controller.go:150-337 | what one smooth reconcile does to every stage of a node that does not wait for its boot, for the controller to leave it, or for the cluster to be ready: the next stage exactly, which is a lower one unless it is not the node's turn |
| `Answering.ReconcileTells` | internal/controller/node_controller.go:150-337 | every effect of a reconcile, wherever it fails, is on its own node; each check records the verdict that the host gave in this reconcile, and when; each poll and each hook run records the reply of every loaded plugin |
| `Outcomes.NoKubeNode` | internal/controller/node_controller.go:154-158 | a name without a kube node is left alone |
| `Outcomes.RecordIsCreated` | internal/controller/node_controller.go:339-365 | a kube node without a record gets one that asks for what the node already is, with an empty state, and nothing else changes |
| `Outcomes.RecordIsRemoved` | internal/controller/node_controller.go:173-188 | a record that is being deleted goes in any state, and nothing else changes |
| `Outcomes.PeriodicOutcome` | internal/controller/node_controller.go:426-463 | a node that does no work is checked exactly when its last check is missing or older than the interval, which is a day if less than five minutes are configured; the record then holds the host's answer and the whole second of it, and is otherwise as before |
| `Outcomes.CordonedOutcome` | internal/controller/node_controller.go:221-227 | from every state one smooth reconcile under Cordoned ends in Cordoned and unschedulable, with the request unchanged and every other node untouched; an undrain in progress is finished first |
| `Outcomes.QueuedOutcome` | internal/controller/node_controller.go:228-234 | a node asked to drain or to reboot is queued from OK and from Cordoned, and after finishing an undrain in progress |
| `Outcomes.TurnOutcome` | internal/controller/node_controller.go:649-672 | a queued node asked to drain or to reboot gets Next exactly when every record is OK, Cordoned or Queued |
| `Outcomes.DrainedOutcome` | internal/controller/node_controller.go:465-567 | in its turn a node asked for Drained ends cordoned and Drained with the flag set, in one favourable reconcile; the node that the controller runs on is cordoned and stays undrained |
| `Outcomes.DrainedIsLeftAlone` | internal/controller/node_controller.go:264-272 | a drained and cordoned node asked for Drained is left alone |
| `Outcomes.NextOutcome` | internal/controller/node_controller.go:470-494 | a turn leaves Next exactly when every node is ready and every loaded plugin is unsupported or says yes, to both questions |
| `Outcomes.DrainingOutcome` | internal/controller/node_controller.go:496-566 | a drain past its checks cordons the node, and drains it exactly when the PreDrain hook of every loaded plugin runs; a reboot then begins in the same reconcile, and a failed hook leaves Draining |
| `Outcomes.UndrainingNeedsHooks` | internal/controller/node_controller.go:587-590 | wherever a reconcile fails, it takes a node out of Undraining only if the PostDrain hook of every loaded plugin runs |
| `Outcomes.UndrainingOutcome` | internal/controller/node_controller.go:569-606 | a reconcile in which no write fails takes a node out of Undraining exactly when these hooks run and, if it is still cordoned, every node is ready |
| `Outcomes.RebootingOutcome` | internal/controller/node_controller.go:294-321 | a Rebooting node, drained and cordoned, is handed back exactly in container mode or when its boot ID differs and some Ready condition is true, with the boot ID cleared and the requirement reset; otherwise nothing happens |
| `RollingReboot.RollingStep` | internal/controller/node_controller.go:150-337 | every reconcile of every node, failing anywhere, and every tolerated event keeps a rolling reboot going and moves no node back; a smooth reconcile moves its node on if it can advance |
| `RollingReboot.SomebodyIsNext` | internal/controller/node_controller.go:323-334 | while the summed rank is positive some node can advance, unless it is itself blocked |
| `RollingReboot.RoundLowersTotal` | internal/controller/node_controller.go:206-334 | a round that smoothly reconciles every node once at a moment when it is not blocked lowers the summed rank, whatever fails besides, unless it is zero |
| `RollingReboot.RollingRebootTerminates` | internal/controller/node_controller.go:206-334 | from any point of a rolling reboot of N nodes, mid-drain crashes and the controller's own node included, 13N fair rounds bring every node to Active, OK, schedulable and undrained, whatever other reconciles fail in them |
| `RollingReboot.AskedNodesFinish` | internal/controller/node_controller.go:206-334 | N undrained OK nodes that are all asked to reboot are Active, OK, schedulable and undrained after 12N fair rounds |
| `Trap.TrappedForGood` | internal/controller/node_controller.go:496-510 | a controller on a node that it has begun to drain, with every other node cordoned and waiting for its own reboot, stays there under all reconciles, all failures and all tolerated events in which it moves only to present nodes that are not cordoned |
| `Trap.TrappedIsUnfair` | internal/controller/node_controller.go:496-510 | so no round of such a rolling reboot is fair |
| `Trap.RoomyForGood` | internal/controller/node_controller.go:496-510 | with at least two nodes and every node outside a turn schedulable or asked for Active, this stays so under all reconciles, failures and tolerated events, and the controller is never trapped |
| `Fairness.FairRoundExists` | internal/controller/node_controller.go:206-334 | a controller that is not trapped has a fair round that keeps it in the cluster and untrapped; in a cluster with room also one in which every check finds a reboot required |
| `Fairness.FairRoundIffNotTrapped` | internal/controller/node_controller.go:496-510 | a fair round that keeps the controller in the cluster exists if and only if it is not trapped |
| `Fairness.RollingRebootCanFinish` | internal/controller/node_controller.go:206-334 | from every untrapped point of a rolling reboot fair rounds that keep the controller in the cluster bring every node to Active, OK, schedulable and undrained; in a cluster with room also when every check finds a reboot required, and then every node that waited for its reboot gets its reboot pod, outside container mode, and right after it Rebooting |
| `Fairness.FinishesIffNotTrapped` | internal/controller/node_controller.go:496-510 | rounds that keep the controller in the cluster and finish the rolling reboot exist if and only if it is not trapped |
| `Boundaries.ControllerIsSafe` | internal/controller/node_controller.go:150-337 | in every behaviour that never asks an empty-state node to drain: one node at a time, every eviction checked and never of the controller's own node, every reboot on the only working node |
| `Boundaries.UnsetBreaksExclusion` | internal/controller/node_controller.go:237-272 | a node asked to drain with an empty state is drained next to any working node |
| `Boundaries.StuckBlocksEverybody` | internal/controller/node_controller.go:264-272 | a node at Next with Drained and its cordon left over, asked for Drained, or to reboot on a positive verdict, never leaves, is never drained, and no node ever gets a turn, in any run, until someone acts on it from outside or a check finds no reboot required |
| `Boundaries.NextWaitsIffStuck` | internal/controller/node_controller.go:194-199 | with everything favourable, the reconcile of a Drained or RebootIfRequired request at Next has no effect at all if and only if the node is cordoned with Drained set and, for a reboot, a positive verdict is on record and not due again |
| `Boundaries.DetourBegins` | internal/controller/node_controller.go:221-227 | a drained node asked for Cordoned leaves its turn at once, with Drained still set |
| `Boundaries.DetourEndsStuck` | internal/controller/node_controller.go:228-234 | asked for Drained again it queues, takes its turn, and is stuck |
| `Boundaries.WithheldIsLeftAlone` | internal/controller/node_controller.go:207-213 | a node asked for Active at Next under another owner of `unschedulable` is left alone by its reconcile, but for a stale Drained |
| `Boundaries.WithheldBlocksEverybody` | internal/controller/node_controller.go:207-213 | it stays there and no node ever gets a turn, in any run, until someone acts on it from outside |
| `Boundaries.HostEndsDraining` | internal/controller/node_controller.go:490-510 | the reconcile at Next of the node that the controller runs on writes Draining, cordons it, and stops |
| `Boundaries.LastHostIsTrapped` | internal/controller/node_controller.go:496-510 | if every other node is cordoned and waits for its own reboot, the controller is trapped then |
| `Boundaries.OneNodeDeadlocks` | internal/controller/node_controller.go:496-510 | a one-node cluster that runs its own controller is trapped by the first required reboot that gets its turn, and no tolerated schedule ends that |
| `Boundaries.DrainsOnAnOldVerdict` | internal/controller/node_controller.go:243-253 | a reconcile with a recent positive verdict writes Draining however long its two checks take, and the verdict is recent then if and only if its age plus their time allows it |
| `Boundaries.OldVerdictHappens` | internal/controller/node_controller.go:243-253 | from every such state some reconcile writes Draining on a verdict older than two minutes |
| `Boundaries.RebootEffects` | internal/controller/node_controller.go:274-293 | a reconcile of a drained node with a fresh positive verdict creates the reboot pod and writes Rebooting, and nothing else |
| `Boundaries.LostWriteRebootsAgain` | internal/controller/node_controller.go:283-291 | a failure between the reboot pod and the write of Rebooting leads to a second pod in the same turn, in a behaviour of two reconciles |
| `Boundaries.OutsideUncordonRebootsAgain` | internal/controller/node_controller.go:194-199 | after the pod and the write of Rebooting, an uncordon by someone else and one reconcile lead to a second drain and a second pod in the same turn |
| `Boundaries.RetryFinishesReboot` | internal/controller/node_controller.go:294-316 | a reconcile cut off between clearing the boot ID and setting Active, followed by a retry: the retry clears again and sets Active, and creates no reboot pod |
| `Boundaries.RetryWaitsForReady` | internal/controller/node_controller.go:294-320 | if the node is not Ready at the retry, the retry has no effect and the node stays Rebooting |
| `World.EffectiveInterval` | internal/controller/node_controller.go:431-434 | the configured interval if it is at least five minutes, and a day otherwise |
| `CheckTiming.LastCheckedNeverFalls` | internal/controller/node_controller.go:446-463 | no writer sets the last-checked time of a record back |
| `CheckTiming.CheckGap` | internal/controller/node_controller.go:435-442 | a periodic check comes more than one interval after the stored time of the one before |
| `CheckTiming.PeriodicSpacing` | internal/controller/node_controller.go:426-463 | for every interval I, k periodic checks of a node span at least k-2 times the whole seconds of I plus a nanosecond, and I, less one second in all |
| `CheckTiming.RecordedSpacing` | internal/controller/node_controller.go:426-463 | for every interval the stored times of k periodic checks span at least k-1 times the whole seconds of the interval plus a nanosecond |
| `CheckTiming.WholeSecondSpacing` | internal/controller/node_controller.go:426-463 | with an interval of whole seconds k periodic checks span at least k-1 intervals less one second in all, and their stored times at least k-1 intervals |
| `CheckTiming.SpacingIsExact` | internal/controller/node_controller.go:435-455 | for every interval, every start and every k, k reconciles of an idle node can make k checks that span exactly the bound of PeriodicSpacing |
| `Plugins.IsClusterNodesHealthy` | internal/utils/drain-manager.go:187-208 | yes exactly when no Ready condition of any node is other than true |
| `Plugins.IsNodeReady` | internal/utils/reboot-manager.go:244-251 | yes exactly when some Ready condition is true |
| `Plugins.Poll` | internal/utils/drain-manager.go:218-263 | for every order: yes exactly when each plugin is unsupported or supported and says yes; one line per plugin, which is not-supported, refused or OK exactly for those answers and else carries the error that the plugin raised; each error is returned as often as plugins raise it, and no other; a warning exactly when not a clean yes |
| `Plugins.LineOf` | internal/utils/drain-manager.go:275-302 | the line of a plugin from its two answers alone: failed, with that error, exactly if it raises one; not supported, refused or OK exactly for No, Yes and No, Yes and Yes |
| `Plugins.OneMoreError` | internal/utils/drain-manager.go:218-263 | one more plugin adds its own error to the multiset of errors, once, and nothing if it raises none |
| `Plugins.PollOne` | internal/utils/drain-manager.go:275-302 | the line of one plugin, and its error exactly if the line is a failure |
| `Plugins.NoErrorsIffNoneFailed` | internal/utils/drain-manager.go:260-262 | errors are collected exactly when some plugin failed |
| `Plugins.ConsentMeansCleanSummary` | internal/utils/drain-manager.go:305-309 | all plugins consent exactly when no line is an error or a refusal |
| `Plugins.IsHealthy` | internal/utils/drain-manager.go:210-264 | yes exactly when all nodes pass and all plugins consent; a warning exactly when not; one status line per plugin and each error as often as plugins raise it, or none of either when a node fails |
| `Plugins.CallsAreTheSupported` | internal/utils/drain-manager.go:322-341 | among the plugins visited exactly the supported ones are called, each once |
| `Plugins.RunHooks` | internal/utils/drain-manager.go:318-372 | for every order: success exactly when no plugin errs; on success each supported plugin was called once and no other; on failure the visits end at the failing plugin |
| `Plugins.LoadPlugins` | internal/utils/drain-manager.go:90-132 | loading succeeds exactly when each accepted file yields a non-empty ID and no two the same; then files and IDs are in bijection |
| `Plugins.TakenTwice` | internal/utils/drain-manager.go:124-126 | an ID that is already registered means that two accepted files share it |
| `ZapFields.ConvertToZapAny` | internal/utils/hclog.go:135-160 | on the arguments alone: they are paired from the back; the fields of every pair stand at their place, one keyed by the first argument if that is a string, and else one positional field for each argument; a single argument at the front makes the last field; the number of fields is that of the pairs, rounded up, plus one for each pair whose first argument is no string; reading the fields back gives the arguments again, and every positional field names the place of its value |
| `ZapFields.ConvertItems` | internal/utils/hclog.go:143-156 | one turn of the loop keeps all this for the arguments behind the loop variable, which comes down by two |
| `ZapFields.EveryFieldHasItsPair` | internal/utils/hclog.go:143-156 | every field comes from a pair, in the form of that pair, or is the last one and stands for the single argument at the front; so positional fields come from no other place |
| `ZapFields.KeysAreKept` | internal/utils/hclog.go:147-149 | the value after a string key is logged under that key |
| `ZapFields.NameFindsValue` | internal/utils/hclog.go:143-156 | the argument at the index that a positional field names is its value |

## Left out

- Requeue delays: what a reconcile returns to the work queue is not modelled; progress is stated for schedules that reconcile every node.
- Stale cache reads, several workers, and outside writes in the middle of a reconcile: excluded by the assumptions above.
- Fairness among queued nodes: the source has no order, so nothing is claimed beyond the rolling reboot.
- Clusters in which some node is asked for Cordoned or Drained: what one reconcile makes of them is proved, but no progress of the others, because a Drained node keeps its turn by design.
- A requested state outside the four of the schema: the API server refuses it.
- Pod construction, polling, exec and eviction internals: they succeed, fail or answer.
- The controller deleting its own pod on a node about to be drained: modelled as returning without draining; where it runs next is an outside effect.
- The loop over managed fields that finds the owner of `unschedulable`: the owner is a field of the kube node.
- The ignored cleanup of helper pods under Active: it changes nothing that is modelled.
- Decimal rendering of positional field names: a name is its index.
- Configuration loading, logging setup, the webhook, the plugin transport, and the copying of plugin output to the log: no protocol logic.
