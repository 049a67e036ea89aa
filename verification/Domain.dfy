/** Entities, statuses and transition tables of the workflow orchestrator (package domain). */
module Domain {

  datatype Option<+T> = None | Some(value: T)

  datatype WorkflowStatus = Draft | Active | Archived

  datatype ExecutionStatus = ExecPending | ExecRunning | ExecSucceeded | ExecFailed | ExecCanceled

  datatype StepStatus = StepPending | StepRunning | StepSucceeded | StepFailed | StepSkipped

  const WORKFLOW_TRANSITIONS: map<WorkflowStatus, seq<WorkflowStatus>> :=
    map[Draft := [Active], Active := [Archived], Archived := []]

  const EXECUTION_TRANSITIONS: map<ExecutionStatus, seq<ExecutionStatus>> :=
    map[
      ExecPending := [ExecRunning, ExecCanceled],
      ExecRunning := [ExecSucceeded, ExecFailed, ExecCanceled],
      ExecSucceeded := [],
      ExecFailed := [],
      ExecCanceled := []
    ]

  const STEP_TRANSITIONS: map<StepStatus, seq<StepStatus>> :=
    map[
      StepPending := [StepRunning, StepSkipped],
      StepRunning := [StepSucceeded, StepFailed],
      StepSucceeded := [],
      StepFailed := [],
      StepSkipped := []
    ]

  datatype TransitionError<S> = UnknownStatus(from: S) | ForbiddenTransition(from: S, to: S)

  /** The lookup the three Transition functions share: the source looks the current status up in its
      table and scans the row for the wanted one. */
  function CheckTransition<S(==)>(table: map<S, seq<S>>, from: S, to: S): (r: Option<TransitionError<S>>)
    ensures r.None? <==> from in table && to in table[from]
    ensures r.Some? ==> r.value == if from in table then ForbiddenTransition(from, to) else UnknownStatus(from)
  {
    if from !in table then Some(UnknownStatus(from))
    else if Scan(table[from], to) then None
    else Some(ForbiddenTransition(from, to))
  }

  predicate Scan<S(==)>(valid: seq<S>, to: S)
    ensures Scan(valid, to) <==> to in valid
  {
    valid != [] && (valid[0] == to || Scan(valid[1..], to))
  }

  /** TransitionWorkflow: draft to active, active to archived. */
  function TransitionWorkflow(from: WorkflowStatus, to: WorkflowStatus): (r: Option<TransitionError<WorkflowStatus>>)
    ensures r.None? <==> (from == Draft && to == Active) || (from == Active && to == Archived)
    ensures r.Some? ==> r.value == ForbiddenTransition(from, to)
  {
    assert from.Draft? || from.Active? || from.Archived?;
    CheckTransition(WORKFLOW_TRANSITIONS, from, to)
  }

  /** TransitionExecution: pending to running or canceled, running to succeeded, failed or canceled. */
  function TransitionExecution(from: ExecutionStatus, to: ExecutionStatus):
      (r: Option<TransitionError<ExecutionStatus>>)
    ensures r.None? <==>
            || (from == ExecPending && (to == ExecRunning || to == ExecCanceled))
            || (from == ExecRunning && (to == ExecSucceeded || to == ExecFailed || to == ExecCanceled))
    ensures r.Some? ==> r.value == ForbiddenTransition(from, to)
  {
    assert from.ExecPending? || from.ExecRunning? || from.ExecSucceeded? || from.ExecFailed? || from.ExecCanceled?;
    CheckTransition(EXECUTION_TRANSITIONS, from, to)
  }

  /** TransitionStepExecution: pending to running or skipped, running to succeeded or failed. */
  function TransitionStepExecution(from: StepStatus, to: StepStatus): (r: Option<TransitionError<StepStatus>>)
    ensures r.None? <==>
            || (from == StepPending && (to == StepRunning || to == StepSkipped))
            || (from == StepRunning && (to == StepSucceeded || to == StepFailed))
    ensures r.Some? ==> r.value == ForbiddenTransition(from, to)
  {
    assert from.StepPending? || from.StepRunning? || from.StepSucceeded? || from.StepFailed? || from.StepSkipped?;
    CheckTransition(STEP_TRANSITIONS, from, to)
  }

  /** A stored status either stays or takes an edge of its table. */
  predicate ExecutionEdge(from: ExecutionStatus, to: ExecutionStatus) {
    from == to || TransitionExecution(from, to).None?
  }

  predicate WorkflowEdge(from: WorkflowStatus, to: WorkflowStatus) {
    from == to || TransitionWorkflow(from, to).None?
  }

  predicate StepEdge(from: StepStatus, to: StepStatus) {
    from == to || TransitionStepExecution(from, to).None?
  }

  datatype StepDefinition = StepDefinition(
    name: string, image: string, command: seq<string>, args: seq<string>, env: map<string, string>, timeoutSeconds: int)

  datatype Workflow = Workflow(
    id: nat, name: string, description: string, steps: seq<StepDefinition>, status: WorkflowStatus)

  /** The text of an execution's error column, by the place in the engine that produced it.
      `Blank` is the empty string; every other constructor prints as a non-empty message. */
  datatype ErrorText =
    | Blank
    | CreateFailed(cause: string)
    | LaunchFailed(cause: string)
    | RecordFailed(cause: string)
    | StepBroken(step: string, exitCode: int, reason: Option<string>)

  datatype Execution = Execution(
    id: nat, workflowId: nat, status: ExecutionStatus,
    startedAt: Option<nat>, finishedAt: Option<nat>, error: ErrorText)

  /** Who inserted a step row and for which position of the step list. The table has no such column:
      it is bookkeeping of the model, never read by any modelled operation. */
  datatype Author = ByTrigger(index: nat) | ByEngine(index: nat)

  datatype StepRow = StepRow(
    executionId: nat, stepName: string, status: StepStatus,
    startedAt: Option<nat>, finishedAt: Option<nat>, exitCode: Option<int>, error: ErrorText, author: Author)

  /** What runner.Execute reports. */
  datatype RunnerResult = RunnerResult(exitCode: int, error: Option<string>)

  predicate Good(r: RunnerResult) {
    r.error.None? && r.exitCode == 0
  }
}
