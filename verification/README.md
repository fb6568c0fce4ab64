# Hardware-failure recovery: a model and its proofs

The repository keeps distributed training alive when a GPU goes bad. This project models its two state
machines and the algorithms they rest on, and proves what each is for.

**Training.** Ranks of a process group meet in collectives; rank 0 publishes checkpoints by temporary file
and rename; any rank may die at any moment; the group is recreated and resumes from the directory.
`Workload` is the run that never crashes, with the numerical work left uninterpreted. `TrainingMachine` is
the job as a machine of atomic actions: choosing a checkpoint, loading it, computing, leaving a collective,
each single file-system call of a save, raising, dying, and recreating the group on whatever a crash left.
A collective is identified by how many the rank has entered before, and completes at a rank only after all
ranks have entered it. `TrainingInvariant`, `TrainingSteps` and `TrainingPreservation` hold the
invariant and its preservation, `TrainingTheorems` the results, and `OneStep` says of a single step, save or
crash what happens to rows, messages and files. `CheckpointStore` and `CheckpointNames`
are the directory and its file names, `FixtureTraining` is the smaller job of the local fixture,
`DataPartition` the dealing of rows, `TrainingLog`, `Quiescence` and
`RecoveryFence` the harness that pauses a rank and expects the next generation exactly at the fence.
`GroupProgress` shows that a live group never deadlocks and finishes; `FenceGap` drives one to the point
where its log lags.

**The node-health controller.** `Nodes` has the Node as an object with an annotation map and a taint
buffer changed in place, beside the functions that say what each mutation means. `Health` is the isolation
policy, `Reconciler` a whole pass as a function, `Pods` the selection and eviction of pods, and `Controller`
the pass as an imperative program over the object and an API server. `Cluster` interleaves the controller
with everyone else: reads from a cache that may be stale, version-checked writes that may fail, listing,
single evictions, binding, creation, deletion, and edits of the Node by others. `ClusterInvariant`,
`ClusterSteps` and `ClusterTheorems` prove what holds over its runs, `BoundedRecovery` and `RecoveryPasses`
how soon a node is free again, `PassRefinement` that the machine's steps do what `Controller` does,
`ClusterEnvironment` that everybody else is free to act, and `ClusterWitnesses` constructs runs that show
where promises stop. `HealthSources` and `Prometheus` are the two sources of evidence and the simulator that
feeds one of them; `NodeAliases` is the harness's alias table.
`Decimal`, `Strings` and `Options` are helpers.

Times are integer nanoseconds in the controller and reals in the harness; all integers are unbounded, as in
Python, and the controller's durations are far from the limits of 64 bits.

## What the proofs found

- The comment on `RecoveryWindow` ("continuous healthy period required before untainting",
  apps/gpu-node-health-controller/internal/controller/node_controller.go:58) holds only for evidence whose
  pass went through. Evidence seen by a pass whose `Update` failed leaves no trace:
  `ReleasedDespiteMissingEvidence` constructs the run. `NoEarlyClearing` gives the exact condition, in every
  run: let k be the last pass a window before the release; an unbroken healthy window precedes the release if
  and only if no failed pass from k on saw other evidence. `WrittenEvidenceCounts` draws the conclusion for
  runs in which no such write fails.
- A pass that goes through without writing may have read a version that no longer carries the recovery
  record. This never happens on evidence of the metric source, which stamps every observation: a pass that
  goes through has written, however stale the cache is (`MetricPassesCount`). Nor does it happen, whatever the
  evidence, while reads never go back behind an earlier one, as in the cache of one running controller
  (`ForwardPassesCount`, `AnnotatedPassesCount`). In both cases recovery is bounded in passes that go through
  (`FreeOnMetrics`, `FreeOnForwardReads`). With annotation evidence and a read older than one already made,
  such as that of a restarted controller that lists from a lagging API server, a healthy pass after the window
  can leave the node isolated: `StalePassFreesNobody` constructs the run. In general a late pass frees the node
  if and only if the version it read carries the current record (`LatePassFreesExactly`, `FreeExactly`).
- `sorted(...)[-1]` stops following the steps at 1,000,000 (`NameOrderBreaksAtOneMillion`);
  `FallbackExactly` says for which sets of files it picks the newest. The protocol is nevertheless safe
  without any bound on the steps: the fallback matters only before the first `latest.pt`, and there it
  can only come up with the save before or the new one. So refinement, bounded loss and monotone progress
  are proved for all step counts.
- The log lags behind the store between the rename of `latest.pt` and the line that announces it. The
  harness's fence is exact in a halted group, where rank 0 cannot be between the two
  (`HaltedMeansBlocked`); in an arbitrary state it is exact if and only if rank 0 is not
  (`FenceExactly`). Every job long enough for two saves can reach a state in which it is wrong
  (`FenceCanLag`), so a window that ends while rank 0 hangs there records the older checkpoint.
- `recoverNode` after `isolateNode` is the identity exactly under the condition of
  `RecoverUndoesIsolateExactly`; a stale marker with another value is overwritten and then dropped.
- A further series never turns a set that is not healthy into a healthy one, unless it is the first one:
  an absent metric is unknown, and one clear series is enough for healthy (`InsertionHealsExactly`).

## Assumptions

- Training: one generation is gone before the next writes (no late writers); all generations of a run get the
  same arguments, which fix the shuffled stream, the initial model and the seeds; accumulation, reduction and
  update are deterministic functions; a rename is atomic and durable (the code syncs the file, not the
  directory), and only unsynced content can be torn by a crash; a run name starts on an empty directory, and
  only the job writes there. A stream that ends, a checkpoint that cannot
  be loaded, and any exception are deaths of the rank.
- Controller: times round-trip through their text form (RFC 3339, section 5.6; `DecimalTimesRoundTrip` shows
  that such forms exist); successive clock readings
  increase strictly; whoever gives a pod its node, the scheduler or the pod's creator, heeds the current
  taints; nobody else writes the controller's own annotation keys; one pass per Node at a time. Where a
  theorem needs other actors to leave the exact degraded taint alone as well, it says `guarded`.
- Harness: reading the log and reading the clock is one instant; logs only grow.

## Model

| member | source | states |
|---|---|---|
| TrainingTheorems.CrashResumeRefinement | apps/smollm-training-workload/train.py:314-459 | Crash and resume refines the run that never crashed: in every reachable state of every history of crashes, torn files and restarts, for any world size, a rank that is not in the middle of a step holds exactly the uninterrupted run's adapter/optimizer/scheduler/scaler, generator state, `tokens_seen` and cursor for its step; the cursor is step × `gradient_accumulation`. |
| TrainingTheorems.HistoriesAgree | apps/smollm-training-workload/train.py:387-459 | Two runs of the same arguments, with whatever different crashes, hold the same state after the same step. |
| Workload.ExamplesCountSteps | apps/smollm-training-workload/train.py:393-422 | The cursor counts whole steps, so the value rank 0 saves is right for every rank. |
| TrainingSteps.ModelOfStep | apps/smollm-training-workload/train.py:405-428 | Any rank that may leave the gradient all-reduce ends up with the reference model of its step, whichever order the ranks arrived in. |
| TrainingSteps.TokensOfStep | apps/smollm-training-workload/train.py:430-435 | The metrics all-reduce: adding up what the ranks have sent, one after the other, leads from the reference token count of one step to that of the next. |
| Workload.SumOfParts | apps/smollm-training-workload/train.py:430-435 | The sum of concatenated counts is the sum of the sums; with `SumOfOne`, and `RunningTotal` as the adding up one by one, this fixes what is added to `tokens_seen`. |
| OneStep.RunStarts | apps/smollm-training-workload/train.py:255-317 | A rank of any run that has not completed a step holds the initial model, its own seeded generators, and empty counts. |
| OneStep.ReferenceStep | apps/smollm-training-workload/train.py:393-435 | One step of the uninterrupted run for any rows, results and totals that fit: each rank accumulates over its dealt rows with its own generators, gradients are reduced in rank order, tokens are added up, the cursor moves by `gradient_accumulation`. |
| OneStep.LeavingGradients | apps/smollm-training-workload/train.py:405-428 | Leaving the gradient all-reduce updates the model by the reduction of the messages of all ranks, entry q being that of rank q, and sends this rank's own token count. |
| OneStep.LeavingMetrics | apps/smollm-training-workload/train.py:430-444 | Leaving the metrics all-reduce adds the messages of all ranks to `tokens_seen`; rank 0 alone reports the step; a save begins exactly at the multiples of `checkpoint_every`. |
| OneStep.LeavingGather | apps/smollm-training-workload/train.py:444-458 | Leaving the gather, rank 0 saves the generator states of all ranks, each under its rank. |
| OneStep.FailedSave | apps/smollm-training-workload/train.py:90-105 | A save of the machine that raises after any number of calls leaves the old directory, or the old one with the file complete, without the temporary file, and rank 0 dead: what `AtomicTorchSave` promises of a failing call. |
| OneStep.CrashAtAnyMoment | apps/smollm-training-workload/train.py:314-328 | Every run can be cut short at any moment by a crash that tears any files not synced; the group starts again on the rest. |
| OneStep.DeathAtAnyMoment | apps/smollm-training-workload/train.py:387-459 | Any live rank may die at any moment, which changes nothing else, and any save may raise. |
| TrainingSteps.LeavingIsSafe | apps/smollm-training-workload/train.py:387-459 | Whoever may leave a collective finds that all ranks have entered it, all with the reference contribution for the same purpose and step. |
| TrainingSteps.RestoreKeepsLockstep | apps/smollm-training-workload/train.py:314-374 | Reading the chosen file never fails in a reachable state, and gives every rank its own share of the reference state at the step the generation resumes from. |
| TrainingSteps.PublishStepFile | apps/smollm-training-workload/train.py:82-87 | Publishing a newer numbered file changes what would be resumed to that file or not at all, however the names sort. |
| TrainingPreservation.ActionKeeps | apps/smollm-training-workload/train.py:314-459 | Every atomic action of every rank, of the file system, and of a crash keeps the whole invariant (ranks against the reference run, collectives, store, publication, logs). |
| TrainingPreservation.LeaveKeepsPublished | apps/smollm-training-workload/train.py:387-459 | Leaving a collective keeps the tie between rank 0's position, the files on disk and its log. |
| TrainingPreservation.ReplaceKeepsStore | apps/smollm-training-workload/train.py:103-105 | The rename publishes the saved state under its final name and changes nothing else a reader can see. |
| TrainingPreservation.NewGenerationOk | apps/smollm-training-workload/train.py:314-356 | A group created on any complete store starts correctly, whatever the previous generation left behind. |
| TrainingTheorems.SameCheckpointForAll | apps/smollm-training-workload/train.py:318-328 | While any rank has yet to join the first barrier nothing changes what is resumed, so all ranks of a generation load the same checkpoint. |
| TrainingTheorems.CollectivesMatch | apps/smollm-training-workload/train.py:387-459 | What two ranks contribute under the same call number is for the same purpose, and no rank leaves a collective before all have entered it. |
| TrainingTheorems.LockstepWithinOne | apps/smollm-training-workload/train.py:387-459 | No live rank is ever more than one completed step ahead of another. |
| TrainingTheorems.BoundedLoss | apps/smollm-training-workload/train.py:388-459 | In every reachable state the furthest step a joined rank has completed exceeds the step `latest_checkpoint` would resume by at most `checkpoint_every`; no bound on the number of steps is assumed. |
| TrainingTheorems.LossStaysBounded | apps/smollm-training-workload/train.py:82-87 | The same for a step completed earlier by a rank or generation that is gone: at no later moment is it more than one period beyond what would be resumed. |
| TrainingTheorems.CrashConsistentStore | apps/smollm-training-workload/train.py:82-105 | At every crash point, whatever the crash tears, the file `latest_checkpoint` returns is a complete payload with the reference state of its step; if there is none nothing had been saved. |
| TrainingTheorems.ProgressIsNeverLost | apps/smollm-training-workload/train.py:161-162 | Neither the step in `latest.pt` nor the step a new generation would resume ever decreases, across all generations. |
| TrainingTheorems.FiveCallsSave | apps/smollm-training-workload/train.py:90-105 | Undisturbed, the five file-system calls of the machine have the effect that `AtomicTorchSave` promises as a whole. |
| TrainingInvariant.DurableIsMonotone | apps/smollm-training-workload/train.py:443-459 | What must be resumable before a collective can be entered only grows in program order. |
| CheckpointStore.CheckpointDirectory.AtomicTorchSave | apps/smollm-training-workload/train.py:90-105 | Whatever call raises, creating the temporary file included, the directory afterwards is the old one, or the old one with the destination complete; the temporary file is gone, and no crash in between shows anything else. |
| CheckpointStore.CheckpointDirectory.SaveCheckpoint | apps/smollm-training-workload/train.py:161-162 | The numbered file, then `latest.pt`: exact result for each failing call, and the only three published directories a crash can leave. |
| CheckpointStore.TempsAreInvisible | apps/smollm-training-workload/train.py:82-98 | Directories that differ only in temporary files give the same choice and the same resumed step. |
| CheckpointStore.LastAfterAdding | apps/smollm-training-workload/train.py:86-87 | Adding a file makes that file the last in name order, or leaves the last one as it was. |
| CheckpointStore.FallbackExactly | apps/smollm-training-workload/train.py:86-87 | For any set of step files without `latest.pt`: the sorted fallback picks the newest exactly when every older step is at most the newest numeral cut to the older one's width. |
| CheckpointStore.SixDigitFallbackPicksGreatest | apps/smollm-training-workload/train.py:86-87 | With all steps below 1,000,000 the fallback picks the greatest step, for any set of files. |
| CheckpointNames.NameOrderIsStepOrder | apps/smollm-training-workload/train.py:161 | Below 1,000,000 the order of `step_{step:06d}.pt` is numeric order, both ways. |
| CheckpointNames.NameOrderExactly | apps/smollm-training-workload/train.py:161 | For every pair of steps, the exact arithmetic condition under which the older name sorts first. |
| CheckpointNames.NameOrderBreaksAtOneMillion | apps/smollm-training-workload/train.py:86-87 | The bound is needed: 1,000,000 sorts before 999,999. |
| CheckpointNames.SearchFindsOnlyStepFiles | apps/smollm-training-workload/train.py:83-97 | The glob matches published step files and nothing else; no temporary file, and no other file is called `latest.pt`. |
| CheckpointNames.NameOfStep | apps/smollm-training-workload/train.py:161 | The name of a step is `step_`, its decimal numeral filled with zeros to six digits and no further, and `.pt`. |
| FixtureTraining.ActionKeeps | apps/local-training-workload/train.py:134-166 | The local fixture, with a barrier in every step: every action of every rank, of a save, and of a crash keeps its invariant. |
| FixtureTraining.SameCheckpointForAll | apps/local-training-workload/train.py:134-148 | All ranks of a generation start from the same checkpoint, and each rank's step counts the all-reduces it has left since. |
| FixtureTraining.LockstepWithinOne | apps/local-training-workload/train.py:150-165 | No rank, alive or dead, is more than one step ahead of another. |
| FixtureTraining.BoundedLoss | apps/local-training-workload/train.py:134-165 | In every reachable state no rank, alive or dead, has completed a step more than `checkpoint_every` beyond what would be resumed. |
| FixtureTraining.ProgressIsNeverLost | apps/local-training-workload/train.py:104-105 | The step a new generation resumes never decreases over any run. |
| FixtureTraining.CrashAtAnyMoment | apps/local-training-workload/train.py:134-150 | At any moment of any run a rank may die, and the group may be recreated on the published files. |
| DataPartition.RankExamples | apps/smollm-training-workload/train.py:198-205 | The one-pass loop with its skip counter yields exactly the rows dealt to the rank from its cursor on. |
| DataPartition.DealtRows | apps/smollm-training-workload/train.py:198-205 | Row j after cursor k is the stream's row rank + (k + j) × `world_size`, and the rows end exactly where the stream does. |
| DataPartition.ResumedDealing | apps/smollm-training-workload/train.py:376-385 | A generation that restarts at the saved cursor gets exactly the rows the previous one had left. |
| DataPartition.StepReadsDealtRows | apps/smollm-training-workload/train.py:393-394 | The rows a step of the machine reads are the next ones the generator yields. |
| DataPartition.ComputeReadsConsumed | apps/smollm-training-workload/train.py:393-422 | In every generation of every run, what a rank sends and keeps of a step is the accumulation, with the model and generators it holds, over exactly the rows of the stream dealt to it for that step. |
| DataPartition.NothingRepeated | apps/smollm-training-workload/train.py:198-205 | Rows of different ranks or different steps are disjoint. |
| DataPartition.NothingSkipped | apps/smollm-training-workload/train.py:198-205 | The rows of the first n steps of all ranks are exactly the first n × `gradient_accumulation` × `world_size` rows. |
| RecoveryFence.PausedRankHaltsGroup | tests/recovery/aws_training/harness.py:216-235 | Once one rank stops, the others together take at most 46 × (`world_size` − 1) more actions, however they are scheduled: the group halts. |
| RecoveryFence.ActionsFitSlack | apps/smollm-training-workload/train.py:387-459 | While one rank stands still no other rank leaves a collective the stopped rank has not entered. |
| RecoveryFence.HaltedMeansBlocked | apps/smollm-training-workload/train.py:430-459 | In a halted group a live rank 0 waits in a collective or has finished: it is never caught inside a save. |
| RecoveryFence.FenceExactly | apps/smollm-training-workload/train.py:455-459 | The logged checkpoint never exceeds `latest.pt`; for a live rank 0 it is what a new generation resumes exactly unless the save in progress has published `latest.pt` and not yet announced it. |
| RecoveryFence.HaltedLogIsTheFence | tests/recovery/aws_training/harness.py:231-235 | The pair read from the log of a halted group is its true position: the step completed, and the checkpoint that will be resumed, at most one period behind. |
| RecoveryFence.NextGenerationResumesTheFence | tests/recovery/aws_training/harness.py:327-341 | Pause, stall, read the pair, lose ranks, recreate the group: every rank of the next generation reports, and holds, exactly the fence. |
| GroupProgress.NeverStuck | apps/smollm-training-workload/train.py:387-459 | The group never deadlocks: while nobody is dead and somebody has not finished, some rank can take an ordinary action. |
| GroupProgress.LiveRunIsBounded | apps/smollm-training-workload/train.py:387-459 | From every reachable state, however the ranks are scheduled: as long as nobody dies they take at most world × (64 × remaining steps + 30) actions. |
| GroupProgress.LiveGroupFinishes | apps/smollm-training-workload/train.py:387-459 | Where such a run cannot go on, every rank is done and holds the state of the uninterrupted run after `max_steps`. |
| FenceGap.FenceCanLag | apps/smollm-training-workload/train.py:455-459 | For every job long enough for two saves and every world size, a reachable state in which the log announces the first checkpoint and a new generation would resume the second. |
| TrainingLog.ExtractorsFindMaxima | tests/recovery/common/observations.py:109-116 | The extractors return the maximum over all matching lines, or nothing when there is none. |
| TrainingLog.Append | tests/recovery/common/observations.py:109-125 | What one more log line does to the three extractors, `resumed_checkpoint_step` included. |
| Quiescence.WaitForQuiescence | tests/recovery/aws_training/harness.py:590-639 | The closure over `last_observation` and `stable_since` returns the first pair that was seen at two polls a window apart with no other pair in between, polls without a pair not counting. Whatever the outcome, no earlier poll gave a reason to fail or completed a stable run; each failure names the first reason met, in the order of the checks, and a timeout means there was none. |
| Quiescence.ObservedExactly | tests/recovery/aws_training/harness.py:615-619 | The pair a poll sees is the greatest step and the greatest checkpoint any line of the log reports. |
| Quiescence.PollsAreBounded | tests/recovery/common/polling.py:14-28 | The polling loop makes at most ceil(timeout / interval) rounds. |
| Quiescence.StableRunMeansStable | tests/recovery/aws_training/harness.py:626-634 | For append-only logs a stable run of polls shows the pair was the log's at every moment between its ends. |
| Quiescence.QuiescentInterval | tests/recovery/aws_training/harness.py:590-639 | The returned pair was the log's (max step, max checkpoint) throughout an interval at least `quiescence_window` long. |
| Health.ReleaseExactly | apps/gpu-node-health-controller/internal/health/isolation_policy.go:16-37 | Owned isolation is given up exactly for healthy evidence on a recovering node whose recorded start is a window old; isolation is taken up exactly on degraded (or recovering) evidence. |
| Health.StateExactly | apps/gpu-node-health-controller/internal/health/isolation_policy.go:25-36 | The recorded state for every observation, anything unrecognized being unknown, and the start of recovery: kept while recovering, the time of the pass otherwise. |
| Health.StateRoundTrip | apps/gpu-node-health-controller/internal/health/state.go:25-33 | Every decided state is read back from its annotation as written. |
| Nodes.Node.SetAnnotation | apps/gpu-node-health-controller/internal/controller/node_controller.go:318-324 | A missing key reads as empty; the flag is true exactly when the map changed. |
| Nodes.Node.ApplyHealthAnnotations | apps/gpu-node-health-controller/internal/controller/node_controller.go:287-316 | The map becomes the specified one, and the combined flag is true exactly when it differs from before. |
| Nodes.HealthAnnotationsRead | apps/gpu-node-health-controller/internal/controller/node_controller.go:287-316 | Every annotation of the pass reads back as the decision and the observation; no recovery start survives a decision without one. |
| Nodes.HealthAnnotationsAgree | apps/gpu-node-health-controller/internal/controller/node_controller.go:287-316 | All other annotations, the ownership marker included, stay as they were. |
| Nodes.ChangesDoNotCancel | apps/gpu-node-health-controller/internal/controller/node_controller.go:295-304 | Writing different keys one after the other cannot undo a change, so or-ing the flags is exact. |
| Nodes.Node.EnsureDegradedTaint | apps/gpu-node-health-controller/internal/controller/node_isolation.go:46-54 | Appends the exact taint if and only if it is not there, in the slice's own array or a grown one. |
| Nodes.Node.RemoveDegradedTaint | apps/gpu-node-health-controller/internal/controller/node_recovery.go:27-39 | Compacting the slice while iterating over it leaves the other taints in their order, and reports removal exactly when there was a match. |
| Nodes.WithoutDegradedFilters | apps/gpu-node-health-controller/internal/controller/node_recovery.go:27-39 | The specified filter removes every copy of the taint, keeps every other taint as often as before, and is the identity when there is no match. |
| Nodes.Node.IsolateNode | apps/gpu-node-health-controller/internal/controller/node_isolation.go:33-42 | Claims ownership only together with adding the taint. |
| Nodes.Node.RecoverNode | apps/gpu-node-health-controller/internal/controller/node_recovery.go:15-23 | Touches only owned nodes; removes taint and marker together. |
| Nodes.RecoverUndoesIsolateExactly | apps/gpu-node-health-controller/internal/controller/node_recovery.go:15-39 | Recovery after isolation restores taints and annotations exactly if and only if there was no marker, or a marker that does not mean owned next to somebody else's taint. |
| Nodes.PaddedTimeReads | apps/gpu-node-health-controller/internal/controller/node_controller.go:326-336 | A recorded time is read without the white space around it; blank means none. |
| Strings.TrimOfPadded | apps/gpu-node-health-controller/internal/health/source/annotation.go:32-33 | Trimming removes exactly the white space around a core, for every string. |
| Reconciler.EffectiveWindow | apps/gpu-node-health-controller/internal/controller/node_controller.go:90-93 | A positive window is kept; any other becomes twenty seconds. |
| Reconciler.NextNodeReads | apps/gpu-node-health-controller/internal/controller/node_controller.go:83-113 | What a whole pass leaves on the Node: annotations, ownership, and taints, for every node, observation and time. |
| Reconciler.PassTouchesOnlyItsOwn | apps/gpu-node-health-controller/internal/controller/node_controller.go:257-273 | A pass keeps the list of other taints, in order, and all foreign annotations, and its write never passes the controller's own update filter. |
| Reconciler.WakesExactly | apps/gpu-node-health-controller/internal/controller/node_controller.go:257-273 | An update wakes the controller if and only if one of the three annotations of the annotation source reads differently afterwards. |
| Reconciler.EditsWakeExactly | apps/gpu-node-health-controller/internal/controller/node_controller.go:257-273 | Setting or changing a fault, device or confirmation wakes it unless that value was there, clearing one unless it was missing or empty, and no edit of another annotation does. |
| Reconciler.EvidenceIsRecorded | apps/gpu-node-health-controller/internal/controller/node_controller.go:83-101 | Source, reason and device are recorded as observed, with the time of the evidence, or that of the pass if the evidence has none. |
| Reconciler.ManagedMeansTainted | apps/gpu-node-health-controller/internal/controller/node_isolation.go:29-42 | After a pass "managed" implies the exact taint; a taint is claimed only when the pass added it, and removed only when owned. |
| Reconciler.DecisionIsStable | apps/gpu-node-health-controller/internal/controller/node_controller.go:87-101 | The Node a pass wants leads, on the same evidence, to the same decision, including a recovery that has just started. |
| Reconciler.PassIsIdempotent | apps/gpu-node-health-controller/internal/controller/node_controller.go:103-118 | Repeating a pass changes nothing, so nothing is written. |
| Controller.ApiServer.Update | apps/gpu-node-health-controller/internal/controller/node_controller.go:114-118 | A version-checked update stores the new Node exactly when the version is current and the API takes it. |
| Controller.Rewrite | apps/gpu-node-health-controller/internal/controller/node_controller.go:103-113 | The in-place part of a pass: the Node becomes the specified one and the dirty flag is true exactly when anything differs. |
| Controller.Reconcile | apps/gpu-node-health-controller/internal/controller/node_controller.go:67-249 | The whole pass: result, stored versions and attempted evictions in every case; a failed update leaves the stored Node alone and evicts nothing; without a change nothing is written. |
| PassRefinement.UndisturbedPass | apps/gpu-node-health-controller/internal/controller/node_controller.go:67-249 | Program and machine agree: from any state between passes, on any version, whatever the API refuses, the undisturbed steps Get, Write, List, Evict …, Return can be taken and have the result, stored versions and attempts that `Reconcile` promises, and exactly the attempted and accepted pods are terminating. |
| Pods.EvictImpacted | apps/gpu-node-health-controller/internal/controller/node_controller.go:199-248 | The loop attempts the listed impacted pods in order despite failures and collects exactly the refusals. |
| Pods.TargetsExactly | apps/gpu-node-health-controller/internal/controller/pod_evicter.go:46-55 | A listed pod is attempted exactly once if it is bound to the node, pending or active, not terminating, carries a non-blank job label and has opted in with "true"; if any of these is missing, never. |
| Pods.TargetsInOrder | apps/gpu-node-health-controller/internal/controller/node_controller.go:199-205 | The attempts follow the order of the listing. |
| Pods.ErrorExactlyWhenRefused | apps/gpu-node-health-controller/internal/controller/node_controller.go:206-229 | A pass returns an error exactly when some eviction failed with something other than NotFound. |
| ClusterSteps.ActionKeeps | apps/gpu-node-health-controller/internal/controller/node_controller.go:67-249 | Every atomic step of the controller and of every other actor keeps the cluster invariant. |
| ClusterSteps.BadEvidenceIsAlwaysWritten | apps/gpu-node-health-controller/internal/controller/node_controller.go:299-304 | With a clock that moves forward, a pass on degraded or missing evidence always changes the Node it read, however stale that copy is. |
| ClusterSteps.WriteKeepsRecovery | apps/gpu-node-health-controller/internal/health/recovery_policy.go:7-41 | A write keeps the recovery record true: a start is recorded exactly while recovering, and all evidence written since has been healthy. |
| ClusterSteps.ExposureNeverGrows | apps/gpu-node-health-controller/internal/controller/node_controller.go:191-194 | While the taint is stored, no bind, create, delete, progress or controller step adds to the impacted pods that do not tolerate it. |
| ClusterEnvironment.OthersCanDoAnything | apps/gpu-node-health-controller/internal/controller/node_controller.go:191-194 | The machine leaves everybody else free: between any two steps of the controller, creations, deletions and progress can turn the pods into any others that respect the taint. |
| ClusterEnvironment.BoundWhereAccepted | apps/gpu-node-health-controller/internal/controller/node_controller.go:191-194 | An unbound pod can be bound to any node, the tainted one only if it tolerates the exact taint. |
| ClusterTheorems.NoEarlyClearing | apps/gpu-node-health-controller/internal/health/recovery_policy.go:7-29 | In every run, whichever writes fail: a release of owned isolation ends a stretch of at least a window in which every pass that went through saw healthy evidence; and a window of nothing but healthy evidence precedes it if and only if no failed pass since the last possible start of such a window saw other evidence. |
| ClusterTheorems.StretchExactly | apps/gpu-node-health-controller/internal/health/recovery_policy.go:7-29 | The exact condition on the record of passes: an unbroken healthy window ends at pass i if and only if the failed passes of the shortest candidate missed nothing. |
| ClusterTheorems.WrittenEvidenceCounts | apps/gpu-node-health-controller/internal/controller/node_controller.go:114-118 | If no update on evidence other than healthy fails, every release follows a window of nothing but healthy evidence. |
| ClusterTheorems.FailedWriteHidesEvidence | apps/gpu-node-health-controller/internal/controller/node_controller.go:58-59 | For every recovering node: missing evidence inside the window postpones the release if its write goes through, and does not if the write fails. |
| ClusterWitnesses.ReleasedDespiteMissingEvidence | apps/gpu-node-health-controller/internal/controller/node_controller.go:114-118 | A concrete run on metric evidence from any fresh untainted Node, for any window of at least four ticks and any time format: isolated, recovering, one pass without evidence whose update fails, and released when the window ends, although no stretch of a window's length had healthy evidence only. |
| ClusterTheorems.RecoveringExactlyWhenStarted | apps/gpu-node-health-controller/internal/controller/node_controller.go:305-314 | In every reachable state the Node is recovering exactly when a recovery start is recorded. |
| ClusterTheorems.BadEvidenceResets | apps/gpu-node-health-controller/internal/health/isolation_policy.go:25-36 | Unknown or degraded evidence removes the recovery start and keeps owned isolation. |
| ClusterTheorems.TaintBeforeEvict | apps/gpu-node-health-controller/internal/controller/node_controller.go:103-118 | Whenever the controller lists or evicts, the same pass has successfully written the taint on degraded evidence. |
| ClusterTheorems.CleanPassEmptiesNode | apps/gpu-node-health-controller/internal/controller/node_controller.go:191-248 | A degraded pass that ends without a refused eviction leaves no impacted, non-tolerating pod on the node, whatever happened in between. |
| ClusterTheorems.TaintedPassEmptiesNode | apps/gpu-node-health-controller/internal/controller/node_controller.go:191-248 | The same without trusting others before the pass: if the Node stays tainted from the listing to the end of a pass without a refused eviction, no impacted, non-tolerating pod is left. |
| ClusterTheorems.ExposedExactly | apps/gpu-node-health-controller/internal/controller/pod_evicter.go:46-55 | The pods these theorems are about are those bound to the node that are alive and not terminating, belong to a training job, have opted in, and do not tolerate the taint. |
| ClusterTheorems.ExposureShrinks | apps/gpu-node-health-controller/internal/controller/node_controller.go:191-194 | Along any run during which the Node stays tainted the set of exposed pods only shrinks. |
| ClusterTheorems.TaintChangesExactly | apps/gpu-node-health-controller/internal/controller/node_isolation.go:33-42 | If others leave the taint alone, a step removes it if and only if it releases owned isolation, and adds it if and only if it is a pass on degraded evidence that goes through on an untainted Node. |
| ClusterTheorems.WritesAreNarrow | apps/gpu-node-health-controller/internal/controller/node_controller.go:103-118 | Every write in every run keeps the other taints in order, leaves "managed implies tainted", and does not wake the controller. |
| ClusterTheorems.OwnershipOverRuns | apps/gpu-node-health-controller/internal/controller/node_recovery.go:15-39 | Over every run taints added minus taints removed is the change of the marker; a taint that was there before the controller is neither claimed nor removed. |
| BoundedRecovery.OthersKeepRecord | apps/gpu-node-health-controller/internal/controller/node_controller.go:114-118 | No step of any actor but a pass that went through on a version with the current record moves the recovery record: failed writes, stale passes and foreign edits do not. |
| BoundedRecovery.FreshPassIsEffective | apps/gpu-node-health-controller/internal/controller/node_controller.go:71-118 | A pass on the current version that the API takes counts as effective. |
| BoundedRecovery.RunRecovers | apps/gpu-node-health-controller/internal/health/recovery_policy.go:17-28 | Along any run on healthy evidence the recorded recovery start stays where it is until an effective pass comes at or after start + window, and the node is free from then on. |
| BoundedRecovery.FreeExactly | apps/gpu-node-health-controller/internal/health/recovery_policy.go:17-28 | Over every run of the cluster: an owned node that sees only healthy evidence is free exactly if an effective pass came a window after its recovery started; otherwise it has been recovering since the same start, or, if no pass was effective, its record is the old one. |
| BoundedRecovery.FreeWithinWindow | apps/gpu-node-health-controller/internal/controller/node_controller.go:90-101 | If effective passes are at least d apart the node is free, and untainted if others leave the taint alone, within ceil(window / d) of them after the first, for every configured window; `RecoveryPasses` says when all passes that go through are effective. |
| BoundedRecovery.LatePassFreesExactly | apps/gpu-node-health-controller/internal/controller/node_controller.go:71-73 | A pass that goes through after the window frees the node if and only if it read a version with the current record. |
| RecoveryPasses.MetricsAreAlwaysWritten | apps/gpu-node-health-controller/internal/health/source/dcgm.go:135-137 | With a clock that moves forward, a pass on metric evidence changes the Node it read, healthy evidence included, however old the copy is. |
| RecoveryPasses.MetricPassesCount | apps/gpu-node-health-controller/internal/controller/node_controller.go:71-118 | In every run on metric evidence each pass that goes through on an owned node is effective, whatever the cache returns. |
| RecoveryPasses.ForwardPassesCount | apps/gpu-node-health-controller/internal/controller/node_controller.go:71-118 | If reads never go back behind an earlier one, each pass that goes through on healthy evidence of any source counts once the node is recovering, however far the cache lags. |
| RecoveryPasses.AnnotatedPassesCount | apps/gpu-node-health-controller/internal/health/source/annotation.go:26-70 | With forward reads and evidence that is what the annotation source answers from the copy read, the same holds on any owned node, recovering or not. |
| RecoveryPasses.PassedFreeExactly | apps/gpu-node-health-controller/internal/health/recovery_policy.go:17-28 | Where all passes count: an owned node that sees only healthy evidence is free exactly if a pass went through a window after its recovery started, and keeps that start until then. |
| RecoveryPasses.FreeOnMetrics | apps/gpu-node-health-controller/internal/controller/node_controller.go:90-101 | On metric evidence, passes that go through and are at least d apart free the node, and untaint it if others leave the taint alone, within ceil(window / d) of them after the first, however stale the cache is. |
| RecoveryPasses.FreeOnForwardReads | apps/gpu-node-health-controller/internal/controller/node_controller.go:71-101 | The same bound for reads that never go back: from a recovering node on any evidence, from any owned node on annotation evidence. |
| ClusterWitnesses.StalePassFreesNobody | apps/gpu-node-health-controller/internal/controller/node_controller.go:71-73 | A concrete run on annotation evidence, with the edits that confirm health, inject a fault and clear it: after the window a healthy pass goes through on the version from before the fault, has nothing to write, and the node stays isolated; the read goes back behind earlier ones. |
| HealthSources.AnnotationEvidence | apps/gpu-node-health-controller/internal/health/source/annotation.go:26-70 | A fault wins over a confirmation, health needs an explicit readable confirmation, bad or missing evidence carries the time of reading, and "recovering" is never observed; fault and device are reported trimmed, a confirmation with its own time. |
| HealthSources.EvaluateXIDMetrics | apps/gpu-node-health-controller/internal/health/source/dcgm.go:150-203 | The loop with its early returns. Degraded evidence names a critical value 31, 43, 62 or 79 as `critical-xid-<value>`, that of the first critical series, with its UUID or else its device; the other reasons are exact as well. |
| HealthSources.PolicyExactly | apps/gpu-node-health-controller/internal/health/source/dcgm.go:30-36 | The table: zero is clear, the four critical values say so in their reasons, nothing else is listed. |
| HealthSources.UnclassifiedOfParts | apps/gpu-node-health-controller/internal/health/source/dcgm.go:179-183 | The unclassified values are listed in the order of their series, none lost. |
| HealthSources.JoinOfParts | apps/gpu-node-health-controller/internal/health/source/dcgm.go:194-196 | Joining puts one comma between any two neighbours. |
| HealthSources.HealthyExactly | apps/gpu-node-health-controller/internal/health/source/dcgm.go:164-203 | Healthy exactly when there is a series and every series has the numeric value zero. |
| HealthSources.ScanDegradedExactly | apps/gpu-node-health-controller/internal/health/source/dcgm.go:169-193 | Degraded exactly when a critical series comes before every series without a value. |
| HealthSources.InsertionHealsExactly | apps/gpu-node-health-controller/internal/health/source/dcgm.go:164-203 | Inserting a series anywhere into a set that is not healthy makes it healthy if and only if the set was empty and the series is clear. |
| HealthSources.OrderDoesNotMatter | apps/gpu-node-health-controller/internal/health/source/dcgm.go:169-203 | For every family the parser can hand over, all series with a value or none, any permutation gives the same state. |
| HealthSources.NumericState | apps/gpu-node-health-controller/internal/health/source/dcgm.go:30-36 | That state by membership alone: degraded if some series is critical, healthy if all are zero, otherwise unknown. |
| HealthSources.OrderMattersWithoutValues | apps/gpu-node-health-controller/internal/health/source/dcgm.go:164-203 | About lists in the abstract only: the loop would depend on the order if series with and without a value were mixed, which no parsed family is. |
| HealthSources.MetricEvidence | apps/gpu-node-health-controller/internal/health/source/dcgm.go:150-203 | Whatever the classifier answers, healthy evidence included, carries the time of the reading itself and is never "recovering": the assumption about metric evidence that `MetricPassesCount` and the controller's theorems make. |
| Prometheus.SequentialIsOnePass | apps/dcgm-metrics-simulator/app.py:53-54 | The three replacements in sequence equal one pass that escapes every character once. |
| Prometheus.EscapeRoundTrip | apps/dcgm-metrics-simulator/app.py:53-54 | Label unescaping of the Prometheus text exposition format ("Text format details") inverts the escaping, for every string. |
| Prometheus.RenderRoundTrip | apps/dcgm-metrics-simulator/app.py:57-67 | Parsing a rendered page gives exactly one series with the original labels and value for every node name and value, and none for an absent value. |
| Prometheus.SimulatedState | apps/dcgm-metrics-simulator/app.py:57-67 | From the simulator through parser and classifier: the controller sees the state of the policy table, and the device `GPU-SIM-<node>-0`. |
| Prometheus.SimulatedEvidence | apps/dcgm-metrics-simulator/app.py:57-67 | And the whole evidence: state, reason and device that the classifier's contract allows for a simulated value, exactly, for every value and node name. |
| NodeAliases.NodeAliases.Get | tests/recovery/common/reporting.py:30-39 | An alias is assigned on first sight, by position, and never changes afterwards. |
| NodeAliases.AliasesDiffer | tests/recovery/common/reporting.py:30-39 | No two positions share an alias, beyond 26 nodes too. |
| NodeAliases.AliasTexts | tests/recovery/common/reporting.py:30-39 | The first 26 aliases end in "a" to "z" in order, the others in the one-based position: the 27th node is "27". |
| NodeAliases.NodeAliases.Injective | tests/recovery/common/reporting.py:30-39 | Different nodes have different aliases, after any sequence of lookups. |
| NodeAliases.NodeAliases.Mapping | tests/recovery/common/reporting.py:41-42 | `mapping` is the exact inverse of the stored table, both ways. |

## Left out

- apps/local-training-workload/train.py: model, optimizer and data; it saves no generator state and promises no exact replay, so `FixtureTraining` keeps only steps, collectives and published files, and takes the atomicity of a single save from `CheckpointStore`.
- The internals of PyTorch, NCCL, PEFT, tokenizers and datasets, including the parameter broadcast when DDP is built; a run with `gradient_accumulation` 0, in which DDP never synchronizes.
- The reported loss value, and the comparison of `run_config` (apps/smollm-training-workload/train.py:265-276 and 321-324). It refuses a checkpoint made with another model, dataset, revision of either, dataset configuration, world size, sequence length, gradient accumulation, LoRA rank or seed. It does not compare the shuffle buffer, learning rate, warm-up, `max_steps` or `checkpoint_every`, so a run resumed with other values of those continues on another stream or schedule; the theorems are about runs that keep all arguments.
- Late writers of a dead generation, stale scheduler caches, foreign edits of the controller's own keys, and edits of pod labels.
- client-go and controller-runtime: queues, requeueing and leader election; a failed `Get` other than NotFound, which ends a pass before it begins.
- Discovery, sorting and scraping of the DCGM exporter, its configurable source name, and the texts of parse errors, which stay out of the recorded reasons.
- The general Prometheus parser: only comments and single-family samples as the simulator renders them, and an abstract list of series for the classifier.
- The difference between a nil and an empty annotation map.
- Events, logging, the JSON Lines reporter, the simulator's HTTP server and lock, diagnostics and cleanup, command lines, Terraform and manifests.
- TrainingTheorems.BoundedLoss: speaks of ranks that are alive; steps completed by ranks that have died since are the subject of `LossStaysBounded`.
- RecoveryFence.PausedRankHaltsGroup: bounds the number of actions, not the time they take, because the model has no clock for the ranks.
