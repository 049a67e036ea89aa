# Verified model of the workflow orchestrator

The orchestrator stores workflows (draft, active, archived), executions of them, and one row per executed step.
Services create and change workflows, trigger executions and cancel them; an engine polls the store, runs the steps
of each pending execution in order through a runner and records what happened. All of them read and write the same
rows, and the repositories write blindly: no write looks at the status it replaces.

The project has three layers.

- **A state machine of everything that touches the store.** One repository call, runner call or clock tick is one
  step (`Environment`, `Machine`). One engine and any number of service calls interleave arbitrarily; repository
  faults, runner results and the cancellation of the engine's context are chosen freely at every step. The fault
  assumption is that a repository call that errs has had no effect.
- **What every run keeps** (`Safety`, `Guarantees`, `Histories`, `CleanRuns`, `CleanOutcomes`, `Workflows`,
  `SerialRuns`, `PollPass`, `PassFaults`, `EngineView`). Where a documented property fails, the exact condition under
  which it holds (`Races`, `WorkflowRaces`) and concrete runs in which it does not (`Witnesses`).
- **The code itself** (`Store`, `EngineCode`, `ServiceCode`): classes with the loops, branches and early returns of
  the source. Between any two repository calls of the engine's methods any service steps may happen, between those
  of a service method any steps of the engine and of other service calls; each method is proved to take exactly the
  machine's steps in that interleaving. `EngineCode.CodeIsARun`, and the last clause of every service method, say
  that the code never leaves the states the system reaches, so the properties of runs are properties of the code.

Three cores stand beside it: starting and stopping the engine (`Lifecycle`), naming and watching Kubernetes jobs
(`JobName`, `Watch`), and the step conversion of the gRPC transport (`Conversion`). `dafny verify dfyconfig.toml`
checks everything. Automatic induction is switched off on every lemma, so every inductive step is written out.

## Findings

- The documented execution state machine does not hold in the store. A step leaves the table exactly when the engine
  writes Running, or its final status, over a cancel that has landed, or when a cancel call writes over an execution
  that has ended since the call read it (`Races.ExactlyOffTheTable`, over runs `Races.RunsKeepTheTableIff`). These
  are five pairs of statuses, and all five happen (`Races.StatusEnvelope`, `Witnesses.RaceWritesHappen`).
- Making every service call whole is not enough: the engine still writes over the cancel of an execution that it has
  listed (`SerialRuns.WholeCancelOverwritten`). Then the table is kept exactly when that never happens, and it never
  happens if each cancel is for an execution that the engine is neither working on nor has listed as pending
  (`SerialRuns.SerialRunsKeepTheTable`).
- A cancel that lands between the engine's listing and its Running update, or after the last pre-step read, is
  overwritten (`CleanOutcomes.CancellationWindow` gives the exact window). One that a pre-step read has seen is final
  whatever fails afterwards (`Races.CancelReadIsFinal`).
- An execution can succeed without a single succeeded step, even when all service calls run one after the other: the
  engine runs the step list it read at the start of the pass, and a draft without steps may have been filled,
  activated and triggered since (`SerialRuns.StaleSnapshotSucceeds`). It happens exactly when the list the engine
  entered with is empty (`Guarantees.SuccessMeansEveryStep`), and never when workflows change only between passes
  (`SerialRuns.NoVacuousSuccess`).
- Interleaved halves of workflow calls break the workflow table: all four changes of status that it forbids happen
  (`WorkflowRaces.ForbiddenWritesHappen`), an active workflow turning back into an empty draft among them
  (`Workflows.LostUpdate`). A workflow's history is kept exactly as long as no Update that read the draft lands after
  the workflow has left draft, and no Activate lands on something other than the draft it read
  (`WorkflowRaces.HistoryKeptIff`; `WhatWasRead` ties the row a call holds to the row it read); an Archive never
  breaks it first. It is kept whenever no row of the workflow is
  written while another call holds one (`WorkflowRaces.InterleavedHistory`). That an active or archived workflow has
  steps survives every interleaving (`Workflows.ActiveHasSteps`).
- The engine is good for one Start and one Stop. After a restart, or when two Stop calls pass their check, some
  schedule closes a closed channel and none lets every thread finish (`Lifecycle.GoodForOneStartAndOneStop`). A loop
  that left because its context was cancelled leaves the engine marked as running.
- The engine drops a running execution exactly when its full Running write, a pre-step read or its final write is
  refused (`Races.ExactlyDropped`; each happens, `Witnesses.DropsHappen`). It then stays Running for good unless it
  is cancelled (`Races.DroppedForGood`), and every execution that is stored as Running while the engine is elsewhere
  got there that way (`Races.UnattendedWasDropped`).
- In a pass that meets refused calls an execution misses its end exactly when one of its own listing, Running writes,
  pre-step reads or final write is refused; no refusal of another execution's call, nor of a step row's, matters
  (`PassFaults.PassCoversUnderFaults`). The error column of a stored failure says where the run stopped, in agreement
  with the runner calls and the rows it left (`Guarantees.FailureNamesTheStep`).
- Step rows never get their times or error text (`Guarantees.StepRowColumns`).
- A pending execution behind ten newer ones of its workflow, or in a workflow with a hundred newer ones, is never run,
  unless the pass under way already has it in hand or is still to visit it (`PollPass.NeverDispatched`).
- A missing workflow or execution is reported as an internal error, never as not found: the repositories answer with
  an error, so the services' nil checks are dead.
- A job that has failed is reported with its container's exit code, so a failed job whose container exited with 0
  counts as a success (`Watch.ZeroOnlyFromTheStepContainer`, `Watch.FailedJobCountsAsSuccess`).

## Model

| member | source | states |
|---|---|---|
| Domain.CheckTransition | domain/status.go:62-107 | a transition is accepted exactly when the table has the old status and lists the new one for it; otherwise the error says which of the two failed |
| Domain.TransitionWorkflow | domain/status.go:37-77 | accepts draft to active and active to archived and nothing else |
| Domain.TransitionExecution | domain/status.go:44-92 | accepts pending to running or canceled and running to succeeded, failed or canceled and nothing else |
| Domain.TransitionStepExecution | domain/status.go:53-107 | accepts pending to running or skipped and running to succeeded or failed and nothing else |
| Safety.EnvStepEffect | service/execution_service.go:32-166 | whatever the services do to an execution already stored is to cancel it or to append Trigger's rows; new executions start untouched and the clock never runs back |
| Safety.EngineKeepsInv | engine/engine.go:116-371 | every engine step keeps the system invariant: who may have entered the step loop, what the engine holds at each control point, and the shape of its rows |
| Safety.ExecuteKeepsInv | engine/engine.go:116-371 | the invariant holds after any interleaving of engine and service steps, with any faults |
| Guarantees.AtMostOnceDispatch | engine/engine.go:128-288 | an execution enters the step loop at most once; the runner is called at most once per step, in step order, each time with that step's own definition, and never after a call that reported an error or a non-zero exit code |
| Guarantees.LogsOnlyGrow | engine/engine.go:177-288 | the recorded dispatches and runner calls are histories: no step of any actor rewrites them |
| Races.StatusEnvelope | engine/engine.go:162-229 | each write to an execution's status is a stutter, a table edge or one of five race writes, and nothing makes an execution pending again |
| Witnesses.RaceWritesHappen | service/execution_service.go:143-163 | each of the five race writes happens in some run, so the envelope is exact |
| Races.ExactlyOffTheTable | engine/engine.go:162-229 | in every reachable state and for every step, an execution leaves the table if and only if the engine's unrefused Running or final write finds it canceled, or an unrefused cancel write finds it ended |
| Races.RunsKeepTheTableIff | domain/status.go:44-50 | a run of any interleaving keeps the execution table if and only if none of its steps is one of those two |
| Races.ExactlyDropped | engine/engine.go:171-233 | the engine lets go of an execution that is stored as running if and only if its full Running write, a pre-step read (or the cancel write there) or its final write is refused |
| Races.DroppedForGood | engine/engine.go:128-143 | a dropped execution stays running or is canceled from outside, with the same rows and runner calls, in every continuation |
| Races.UnattendedWasDropped | engine/engine.go:171-233 | whatever is stored as running while the engine is not working on it was dropped at some step of the run |
| Races.CancelReadIsFinal | engine/engine.go:189-201 | once a pre-step read has seen the cancel the execution stays canceled and no step of it runs any more, under any faults |
| Races.ContextDoneLetsGo | engine/engine.go:179-187 | finding its context canceled before a step the engine writes Canceled, or nothing when that is refused, and never writes the row or a step row or calls the runner for it again |
| Witnesses.DropsHappen | engine/engine.go:171-233 | at each of the three places a reachable run drops a running execution |
| Guarantees.RecordAgreement | engine/engine.go:168-229 | in every reachable state Succeeded and Failed come with ordered start and finish times, Failed with an error text, Succeeded and Pending without one |
| Guarantees.RowShape | engine/engine.go:177-371 | under any faults the engine's rows are succeeded rows for the first steps, at most one row in another state, then only skipped rows, in step order and under the steps' names |
| Guarantees.StepRowColumns | engine/engine.go:241-337 | a step row has an exit code exactly when it succeeded or failed, 0 when it succeeded, and never times or an error |
| Guarantees.StepRowEdges | db/step_execution_repo.go:135-182 | every write to a step row's status is a stutter or an edge of the step table, and rows stay in place |
| Guarantees.SuccessMeansEveryStep | engine/engine.go:177-233 | a stored success has, for every step of the list the engine used, a succeeded row with exit code 0 and one runner call with that step that reported no error and exit code 0; so it is vacuous exactly when that list was empty |
| Guarantees.FailureNamesTheStep | engine/engine.go:205-337 | under any faults the error of a stored failure names the step whose call came back bad, with its exit code and reason, or else tells which write was refused; the runner calls and the rows that are left agree with it |
| Histories.WhereItCameFrom | engine/engine.go:116-229 | under any interleaving and faults the steps an execution is run with are those its workflow had when a pass listed it, its start time is the moment of the engine's first Running write and its finish time that of the engine's last call before the final write |
| Histories.PassesGoFromNewToOld | engine/engine.go:116-143 | at every point of a pass what is still queued is older than what is in hand, executions and workflows alike |
| Guarantees.SettledForGood | engine/engine.go:128-143 | once the engine is past an execution it never writes it or its rows again and never runs it again; only a cancel can still overwrite its status |
| CleanRuns.ExecuteKeepsClean | engine/engine.go:146-238 | without faults, the state of the cancellation window and the exact rows of every engine run are invariant under all interleavings with the services |
| CleanOutcomes.CaughtMeansTookHold | engine/engine.go:189-201 | the window's automaton is caught exactly when a cancel landed after the Running update and a later pre-step read came before the final update |
| CleanOutcomes.CancellationWindow | engine/engine.go:171-229 | the row ends Canceled exactly when a cancel lands after the Running update and a later pre-step read sees it; then no step from that read on ran and each has a skipped row |
| CleanOutcomes.RunOutcome | engine/engine.go:177-337 | in a run in which no cancel took hold, overwritten cancels included, the runner is called with each step in order up to the first call that reports an error or a non-zero exit code; that step's row is Failed with the exit code, those before it Succeeded, those after it Skipped; unless a cancel lands after the final update the execution ends Failed with that step in its error, or Succeeded if there was none |
| CleanOutcomes.RowAccounting | service/execution_service.go:65-75 | after a clean run over the triggered steps there are exactly 2n rows: Trigger's n, still pending, and the engine's n, for the same steps in the same order and all final |
| Workflows.ActiveHasSteps | service/workflow_service.go:106-191 | under any interleaving of reads and writes an active or archived workflow has steps, and so had every triggered snapshot |
| Workflows.LostUpdate | service/workflow_service.go:115-139 | an update that read the draft can overwrite the activated workflow with an empty draft |
| WorkflowRaces.ExactlyBreaksHistory | service/workflow_service.go:106-191 | after any interleaving that has kept a workflow's history, the next step breaks it (leaves the table, changes the active row, or activates something other than the stored draft) if and only if it is an Update that read the draft landing after it has left draft, or an Activate landing on something other than the draft it read |
| WorkflowRaces.HistoryKeptIff | domain/status.go:37-41 | over any interleaving from an empty store a workflow's history, edges of the workflow table included, is kept if and only if neither of those two writes happens |
| WorkflowRaces.InterleavedHistory | service/workflow_service.go:106-191 | if no row of a workflow is written while another call holds one of the same workflow, every change of its status is an edge of the table and it does not change while active, however else the calls interleave |
| WorkflowRaces.ForbiddenWritesHappen | domain/status.go:37-41 | each of the four changes of status that the workflow table forbids happens in some run |
| Workflows.HalvesMakeTheWhole | service/workflow_service.go:106-191 | the repository calls of a service call, run back to back, have its whole effect and leave no call open |
| SerialRuns.WorkflowHistory | domain/status.go:37-41 | with whole calls every change of a workflow's status is an edge of the table, so it never goes back, and an active workflow does not change |
| SerialRuns.ArchivedAsActivated | service/workflow_service.go:145-191 | an active workflow found archived later was archived by one call that found it as it was activated and changed only the status |
| SerialRuns.SerialEdges | engine/engine.go:162-229 | with every service call whole, a step takes a status off the table exactly when the engine writes over a cancel |
| SerialRuns.SerialRunsKeepTheTable | domain/status.go:44-50 | over such runs from an empty store the execution table is kept exactly when the engine never writes over a cancel, which holds if each cancel is for an execution the engine neither works on nor has listed |
| SerialRuns.WholeCancelOverwritten | engine/engine.go:128-162 | a whole cancel call on a listed execution is followed by the engine's Running write over it |
| SerialRuns.NoVacuousSuccess | service/execution_service.go:47-75 | with whole calls and workflow changes only between passes, a stored success has a succeeded step row |
| SerialRuns.StaleSnapshotSucceeds | engine/engine.go:122-137 | without the condition on passes, an execution of a one-step workflow succeeds with no succeeded row |
| PollPass.RemainingDecreases | engine/engine.go:116-143 | every engine step brings the end of the pass closer, whatever interferes or fails |
| PollPass.PassTerminates | engine/engine.go:116-143 | from any point the pass ends within a number of engine steps fixed by what it has listed |
| PollPass.ListedIffNewest | db/execution_repo.go:121-178 | the listing holds an execution exactly when it belongs to the workflow and fewer than the limit are newer |
| Safety.ListingOk | db/execution_repo.go:121-178 | the listing holds at most the limit, rows as they are stored, newest first |
| PollPass.WorkflowListedIffNewest | db/workflow_repo.go:132-178 | the listing holds a workflow exactly when fewer than the limit are newer |
| Safety.WindowOk | db/workflow_repo.go:132-178 | the listing holds at most the limit, rows as they are stored, newest first |
| PollPass.PassCovers | engine/engine.go:116-143 | an undisturbed pass ends every pending execution in its window as Succeeded or Failed and changes no other |
| PassFaults.EveryListedIsAsked | engine/engine.go:122-133 | whatever is refused and whoever interferes, a pass that got its list asks for the executions of each of the newest 100 workflows before it is over |
| PassFaults.PassCoversUnderFaults | engine/engine.go:116-238 | in a pass that meets refused calls a pending execution in the window ends Succeeded or Failed if and only if none of the listing of its workflow, its Running writes, its pre-step reads and its final write is refused |
| PassFaults.EveryRemainingStepIsTried | engine/engine.go:340-371 | once the engine skips the rest of an execution it tries every remaining step, whatever is refused, and each try that is not refused adds that step's skipped row |
| PollPass.NothingStaysPending | engine/engine.go:122-137 | with at most 100 workflows and 10 executions of each, nothing is pending after an undisturbed pass |
| PollPass.NeverDispatched | engine/engine.go:122-137 | a pending execution behind ten newer ones of its workflow, or in a workflow with a hundred newer ones, that the engine neither has in hand nor is still to visit is never dispatched: under any interleaving and faults it stays pending or is canceled, and the runner is never called for it |
| PollPass.AfterAPassNothingIsPending | engine/engine.go:116-143 | after an undisturbed pass nothing in the window is pending |
| PollPass.SecondPassWritesNothing | engine/engine.go:116-143 | when nothing in the window is pending, passes write nothing, even when they meet faults |
| Store.Database.CreateWorkflow | db/workflow_repo.go:56-96 | the caller's row under a fresh id, or nothing happens |
| Store.Database.GetWorkflow | db/workflow_repo.go:98-130 | the stored row, or an error for a fault or a missing row |
| Store.Database.ListWorkflows | db/workflow_repo.go:132-178 | the newest rows first, up to the limit, without limit for 0 |
| Store.Database.UpdateWorkflow | db/workflow_repo.go:180-224 | overwrites the whole row whatever it held, an error without effect when it is missing |
| Store.Database.CreateExecution | db/execution_repo.go:54-85 | the caller's row under a fresh id, without step rows, or nothing happens |
| Store.Database.GetExecution | db/execution_repo.go:87-119 | the stored row, or an error for a fault or a missing row |
| Store.Database.ListByWorkflow | db/execution_repo.go:121-178 | the workflow's newest executions first, up to the limit |
| Store.Database.UpdateExecution | db/execution_repo.go:180-215 | overwrites status, times and error blindly, keeps id and workflow |
| Store.Database.UpdateExecutionStatus | db/execution_repo.go:217-255 | overwrites the status alone, blindly |
| Store.Database.CreateStepRow | db/step_execution_repo.go:55-88 | appends the row at a fresh id |
| Store.Database.UpdateStepStatus | db/step_execution_repo.go:135-182 | overwrites the status, and the exit code only when one is given |
| Store.Database.RunnerExecute | engine/engine.go:288-288 | the runner's result is the surroundings' choice; the call is logged with the position and the step it was given |
| EngineCode.Engine.ProcessStep | engine/engine.go:241-337 | under any interference takes the machine's steps from the row's creation, through a runner call with the step itself, to the loop head, or to skipping with the step's error |
| EngineCode.Engine.SkipRemainingSteps | engine/engine.go:340-371 | takes the machine's skipping steps for each remaining step and goes on after errors |
| EngineCode.Engine.MarkRunning | engine/engine.go:161-174 | both Running writes in order, or back to the listing when one is refused |
| EngineCode.Engine.Close | engine/engine.go:208-233 | the final full-row write, its failure ignored |
| EngineCode.Engine.ProcessExecution | engine/engine.go:146-238 | from a listed pending execution to the next one, through exactly the machine's steps |
| EngineCode.Engine.ProcessPendingExecutions | engine/engine.go:116-143 | exactly one whole pass of the machine, whatever interferes and fails |
| EngineCode.Engine.PollLoop | engine/engine.go:95-113 | as many passes of the machine begin as there are ticks before the context ends or Stop is signalled |
| EngineCode.CodeIsARun | engine/engine.go:116-371 | wherever the engine's code is after starting on an empty store, the state is the one the system reaches by the interleaving the code has met, so everything proved of reached states holds of the code |
| EngineCode.CodeIsSafe | engine/engine.go:116-371 | wherever the code is, the store satisfies the system invariant |
| EngineCode.CodeCovers | engine/engine.go:116-143 | undisturbed passes of the code have ended every execution that was pending in the window and left every other as it was |
| EngineCode.CodeCoversUnderFaults | engine/engine.go:116-238 | a pass of the code that meets refused calls has ended an execution exactly when none of the calls that matter to it was refused |
| ServiceCode.HeldApartRun | service/execution_service.go:143-163 | a half-done call can be held across any interleaving of the engine and the other calls: they do the same with it as without it, and it is still held afterwards |
| ServiceCode.CancelHalves | service/execution_service.go:143-163 | the halves of Cancel with any steps of the engine and other calls between write Canceled over whatever the row has become |
| ServiceCode.ChangeHalves | service/workflow_service.go:115-139 | the halves of Update, Activate and Archive with any such steps between write what was decided on the row read over whatever the stored row has become |
| ServiceCode.TriggerHalves | service/execution_service.go:38-62 | Trigger's check and insert with any such steps between insert a pending execution of the workflow as it was read, started when it was read |
| ServiceCode.InsertionRound | service/execution_service.go:65-75 | one round of Trigger's loop with any such steps in it adds the row of the next step of that workflow, or ends the call |
| ServiceCode.ExecutionService.Cancel | service/execution_service.go:138-166 | under interference of the engine and other calls, exactly the two halves of the machine with their steps between; success and each error case by what was read and what the write met; stays on a run of the system |
| ServiceCode.ExecutionService.Trigger | service/execution_service.go:32-78 | refused for a missing or inactive workflow without effect, otherwise as Launch |
| ServiceCode.ExecutionService.Launch | service/execution_service.go:51-77 | exactly the machine's insert and row steps with the steps of the engine and other calls between; a refused row leaves the execution and the rows before it |
| ServiceCode.ExecutionService.InsertRows | service/execution_service.go:64-77 | one pending row per step in step order, stopping at the first refusal |
| ServiceCode.WorkflowService.Create | service/workflow_service.go:41-61 | a new draft with the given columns and a fresh id appended to the table, or an error without effect |
| ServiceCode.WorkflowService.Update | service/workflow_service.go:106-142 | conflict for an active workflow; otherwise name and description are the given ones if given and those read if not, steps the given ones unless empty, id and status those read, in one full-row write after whatever others did |
| ServiceCode.WorkflowService.Activate | service/workflow_service.go:145-169 | refused without steps or from a status other than draft; otherwise writes back what was read as active |
| ServiceCode.WorkflowService.Archive | service/workflow_service.go:172-191 | refused unless active when read; otherwise writes back what was read as archived |
| Lifecycle.AtMostOneLiveLoop | engine/engine.go:58-113 | while nothing has panicked at most one poll loop is alive and a live loop means running; the flag stays up until a Stop, whatever happens to the context |
| Lifecycle.StopMeansStopped | engine/engine.go:74-113 | with one successful Start, once a Stop has received from doneCh the loop is gone and no further pass begins, and once it has returned the flag stays down |
| Lifecycle.GoodForOneStartAndOneStop | engine/engine.go:58-113 | some schedule panics exactly when a second Start has succeeded or a second Stop is past its check, and exactly otherwise all threads can finish; without cancelling a context they can exactly if the loop also has a Stop, a cancelled context or has left |
| Lifecycle.PassAfterTheStopSignal | engine/engine.go:101-112 | a pass can still begin after stopCh is closed |
| Lifecycle.Switch.Start | engine/engine.go:58-71 | refuses when it finds the flag up, otherwise launches a loop of its own, whatever runs between |
| Lifecycle.Switch.Stop | engine/engine.go:74-92 | returns normally only with both channels closed and, without a restart, no live loop; it waits exactly while doneCh is open |
| JobName.TrimSpec | runner/k8s/runner.go:186-187 | trimming takes the hyphens off both ends and nothing else |
| JobName.GenerateJobName | runner/k8s/runner.go:175-202 | prefix, short ID, hyphen and sanitised step clipped to 63 octets, without trailing hyphens; by its parts, the head and, after a hyphen, what clipping leaves of the step |
| JobName.SanitizedByCharacter | runner/k8s/runner.go:176-187 | each character is the lower-cased one if that is a letter a-z, a digit or a hyphen, and a hyphen otherwise; then the hyphens at both ends go |
| JobName.NameIsALabel | runner/k8s/runner.go:175-202 | for every step name and hexadecimal short ID a label of sections 2.3.1 and 2.3.4 of RFC 1035, starting with prefix and short ID |
| JobName.NamesAgreeIff | runner/k8s/runner.go:175-202 | names agree exactly when the short IDs agree and the clipped steps do; when nothing is clipped, exactly when the sanitised steps do |
| JobName.SanitizingIsIdempotent | runner/k8s/runner.go:176-187 | a sanitised step name is its own sanitised form |
| Watch.IsJobComplete | runner/k8s/runner.go:312-319 | some condition is Complete and true |
| Watch.IsJobFailed | runner/k8s/runner.go:322-329 | some condition is Failed and true |
| Watch.GetJobExitCode | runner/k8s/runner.go:332-357 | the code of the first terminated step container of the first pod, 1 when there is none |
| Watch.WatchJobCompletion | runner/k8s/runner.go:272-309 | an error when the watch cannot be opened, otherwise what its first decisive turn calls for |
| Watch.FirstDecisiveTurnDecides | runner/k8s/runner.go:282-309 | the outcome depends on the first decisive turn alone, and the loop waits exactly when there is none |
| Watch.OutcomeIsUnique | runner/k8s/runner.go:282-309 | a stream of turns has one outcome |
| Watch.ZeroOnlyFromTheStepContainer | runner/k8s/runner.go:298-351 | exit code 0 without error exactly when the first decisive turn is a finished job whose first pod's step container terminated with 0, complete or failed alike |
| Watch.FailedJobCountsAsSuccess | runner/k8s/runner.go:302-305 | a failed job whose container exited with 0 yields exit code 0 without error |
| Conversion.ToDomainSteps | transport/rpc/workflow_service.go:160-180 | the same steps in the same order, an unset timeout as zero |
| Conversion.ToWireSteps | transport/rpc/workflow_service.go:203-219 | an error exactly when some timeout is outside int32; otherwise the same steps, zero timeouts unset |
| Conversion.OutAndBack | transport/rpc/workflow_service.go:160-219 | converting out and back is the identity, and fails exactly when a timeout is outside int32 |
| Conversion.InAndBack | transport/rpc/workflow_service.go:133-156 | converting in and back out never fails and only unsets explicit zero timeouts |

## Left out

- EngineCode.Engine.PollLoop: does not close doneCh on its way out; the channels and the deferred close are in `Lifecycle`.
- Store.Database.ListWorkflows: no offset and no order but newest first, which is what the engine asks for.
- Store.Database.ListByWorkflow: no offset and no order but newest first, likewise.
- Engine.processExecution's error results: they are only logged by the caller, so `ProcessExecution` returns nothing.
- More than one engine on one store: the code makes no claim across processes.
- SQL text, drivers, JSON encoding of steps and UUID parsing: ids are positions in creation order, so a malformed id does not occur.
- Rows created at the same instant: the order by creation time is taken to be the order of insertion.
- The read-only service calls Get, List, ListByWorkflow and GetWithSteps.
- ListByExecution: no modelled operation reads step rows back.
- A service read that fails by a fault changes nothing, so in the state machine it is the same as not happening.
- Workflow creation and update times: no modelled decision reads them.
- The clock is read where the preceding repository call left it, not between two calls; it never runs backwards.
- The validator of workflow inputs is a given verdict; its rules are a library's.
- Status strings outside the declared constants: the database is taken to hold only what the code writes.
- The step row's author and the execution logs are bookkeeping of the model; no modelled operation reads them.
- Runner.Execute is an arbitrary result; creating, listing and cleaning up jobs and containers, and log retrieval, are not modelled.
- The select's random choice and fairness: any ready branch may be taken, and nothing is claimed about how long a loop keeps taking ticks.
- A watch channel that was closed delivers events without a job for ever; the loop then waits for its context, which a finite list of turns shows as waiting.
- Unicode case mapping is a parameter of the naming functions; idempotence assumes that it fixes lower-case letters, digits and the hyphen.
- HTTP and gRPC handlers, error-to-status mappings, tracing, metrics, logging and configuration: no effect on the modelled state.
