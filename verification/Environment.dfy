/** Everything that touches the store beside the engine: the two services, cut into their repository
    calls, and the clock. Any number of calls may be under way and each step below is atomic. */
module Environment {
  import opened Domain
  import opened State

  datatype WorkflowRequest =
    | Modify(name: Option<string>, description: Option<string>, steps: seq<StepDefinition>)
    | Activate
    | Archive

  datatype ServiceError = NotFound | Invalid | Conflict | Internal

  datatype Result<+T> = Success(value: T) | Failure(error: ServiceError)

  /** What Update, Activate and Archive do between their Get and their write: the row to write back. */
  function Decide(wf: Workflow, request: WorkflowRequest): Result<Workflow> {
    match request
    case Modify(name, description, steps) =>
      if wf.status == Active then Failure(Conflict)
      else Success(wf.(
        name := if name.Some? then name.value else wf.name,
        description := if description.Some? then description.value else wf.description,
        steps := if |steps| > 0 then steps else wf.steps))
    case Activate =>
      if |wf.steps| == 0 then Failure(Invalid)
      else if TransitionWorkflow(wf.status, Active).Some? then Failure(Conflict)
      else Success(wf.(status := Active))
    case Archive =>
      if TransitionWorkflow(wf.status, Archived).Some? then Failure(Conflict)
      else Success(wf.(status := Archived))
  }

  /** What Cancel checks before its write. */
  predicate Cancelable(status: ExecutionStatus)
    ensures Cancelable(status) <==> status == ExecPending || status == ExecRunning
  {
    && (status == ExecPending || status == ExecRunning)
    && TransitionExecution(status, ExecCanceled).None?
  }

  datatype EnvAction =
    | Elapse(duration: nat)
    | CancelRead(call: nat, execution: nat)
    | CancelWrite(call: nat, fault: Option<string>)
    | TriggerRead(call: nat, workflowId: nat)
    | TriggerExecution(call: nat, fault: Option<string>)
    | TriggerStep(call: nat, fault: Option<string>)
    | CreateWorkflow(name: string, description: string, steps: seq<StepDefinition>)
    | WorkflowRead(call: nat, workflowId: nat, request: WorkflowRequest)
    | WorkflowWrite(call: nat, fault: Option<string>)

  function Drop(w: World, call: nat): World {
    w.(calls := w.calls - {call})
  }

  function Hold(w: World, call: nat, held: Call): World {
    w.(calls := w.calls[call := held])
  }

  /** One repository call of a service call, or the clock moving on. A read that fails its check ends the
      call, as does a write that is refused. Reads that fail by a fault change nothing and are left to
      not happening at all. An action that does not fit the state of its call changes nothing. */
  function EnvStep(w: World, a: EnvAction): World {
    match a
    case Elapse(d) => w.(clock := w.clock + d)
    case CancelRead(c, e) =>
      if HasExecution(w, e) && Cancelable(w.executions[e].status) then Hold(w, c, Canceling(e)) else w
    case CancelWrite(c, fault) =>
      if c in w.calls && w.calls[c].Canceling? then
        var e := w.calls[c].execution;
        if Refusal(fault, HasExecution(w, e)).Some? then Drop(w, c)
        else Drop(NoteMark(SetExecutionStatus(w, e, ExecCanceled), e, CancelLanded), c)
      else w
    case TriggerRead(c, id) =>
      if id < |w.workflows| && w.workflows[id].status == Active then
        Hold(w, c, Triggering(w.workflows[id], w.clock))
      else w
    case TriggerExecution(c, fault) =>
      if c in w.calls && w.calls[c].Triggering? then
        if fault.Some? then Drop(w, c)
        else
          var Triggering(wf, startedAt) := w.calls[c];
          Hold(InsertExecution(w, PendingExecution(wf, startedAt), wf), c, Inserting(wf, |w.executions|, 0))
      else w
    case TriggerStep(c, fault) =>
      if c in w.calls && w.calls[c].Inserting? then
        var Inserting(wf, e, next) := w.calls[c];
        if next >= |wf.steps| || Refusal(fault, HasExecution(w, e)).Some? then Drop(w, c)
        else
          var row := NewStepRow(e, wf.steps[next], StepPending, ByTrigger(next));
          Hold(AddStepRow(w, row), c, Inserting(wf, e, next + 1))
      else w
    case CreateWorkflow(name, description, steps) => InsertWorkflow(w, Workflow(0, name, description, steps, Draft))
    case WorkflowRead(c, id, request) =>
      if id < |w.workflows| && Decide(w.workflows[id], request).Success? then
        Hold(w, c, Saving(Decide(w.workflows[id], request).value))
      else w
    case WorkflowWrite(c, fault) =>
      if c in w.calls && w.calls[c].Saving? then
        var wf := w.calls[c].workflow;
        if Refusal(fault, wf.id < |w.workflows|).Some? then Drop(w, c) else Drop(SaveWorkflow(w, wf), c)
      else w
  }

  function RunEnv(w: World, actions: seq<EnvAction>): World
    decreases |actions|
  {
    if actions == [] then w else RunEnv(EnvStep(w, actions[0]), actions[1..])
  }
}
