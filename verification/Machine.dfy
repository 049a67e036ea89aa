/** The engine as a state machine: one step per repository or runner call of engine.go.
    The control point says which call comes next and holds the locals that are live there. */
module Machine {
  import opened Domain
  import opened State
  import opened Environment

  const WORKFLOW_WINDOW := 100
  const EXECUTION_WINDOW := 10

  /** The execution being processed, the rest of its workflow's listing, and the workflows still to visit. */
  datatype Job = Job(workflow: Workflow, execution: Execution, queue: seq<Execution>, rest: seq<Workflow>)

  datatype Why = CanceledOutside | StepError(error: ErrorText)

  datatype Pc =
    | Idle
    | Listing(rest: seq<Workflow>)
    | Starting(job: Job)
    | Marking(job: Job)
    | Checking(job: Job, i: nat)
    | Creating(job: Job, i: nat)
    | Launching(job: Job, i: nat, row: nat)
    | Executing(job: Job, i: nat, row: nat)
    | Recording(job: Job, i: nat, row: nat, result: RunnerResult)
    | Skipping(job: Job, i: nat, why: Why)
    | Confirming(job: Job, i: nat, row: nat, why: Why)
    | Finishing(job: Job)
  {
    predicate HasJob() {
      !Idle? && !Listing?
    }

    /** The execution the engine is working on. */
    function Focus(): Option<nat> {
      if HasJob() then Some(job.execution.id) else None
    }
  }

  datatype Machine = Machine(world: World, pc: Pc)

  const INITIAL := Machine(EMPTY_WORLD, Idle)

  /** What the surroundings decide at one engine step: a repository fault, a canceled context, a runner result. */
  datatype Choice = Choice(fault: Option<string>, ctxDone: bool, result: RunnerResult)

  function NextWorkflow(rest: seq<Workflow>): Pc {
    if rest == [] then Idle else Listing(rest)
  }

  /** The inner loop of processPendingExecutions: skip what was not listed as pending. */
  function NextDispatch(workflow: Workflow, queue: seq<Execution>, rest: seq<Workflow>): Pc
    decreases |queue|
  {
    if queue == [] then NextWorkflow(rest)
    else if queue[0].status == ExecPending then Starting(Job(workflow, queue[0], queue[1..], rest))
    else NextDispatch(workflow, queue[1..], rest)
  }

  function Resume(job: Job): Pc {
    NextDispatch(job.workflow, job.queue, job.rest)
  }

  function Started(x: Execution, now: nat): Execution {
    x.(startedAt := Some(now), status := ExecRunning)
  }

  function Finished(x: Execution, now: nat, status: ExecutionStatus, error: ErrorText): Execution {
    x.(finishedAt := Some(now), status := status, error := error)
  }

  /** The head of the step loop: the next step, or the success path. */
  function LoopTop(w: World, job: Job, i: nat): Pc {
    if i < |job.workflow.steps| then Checking(job, i)
    else Finishing(job.(execution := Finished(job.execution, w.clock, ExecSucceeded, job.execution.error)))
  }

  /** The head of skipRemainingSteps at step `i`, or what its caller does after it. */
  function SkipFrom(w: World, job: Job, i: nat, why: Why): Pc {
    if i < |job.workflow.steps| then Skipping(job, i, why)
    else if why.CanceledOutside? then Resume(job)
    else Finishing(job.(execution := Finished(job.execution, w.clock, ExecFailed, why.error)))
  }

  function BrokenStep(step: StepDefinition, result: RunnerResult): ErrorText {
    StepBroken(step.name, result.exitCode, result.error)
  }

  function EngineStep(m: Machine, c: Choice): Machine {
    var w := m.world;
    match m.pc
    case Idle =>
      if c.fault.Some? then m else Machine(w, NextWorkflow(NewestWorkflows(w.workflows, WORKFLOW_WINDOW)))
    case Listing(rest) =>
      if rest == [] then Machine(w, Idle)
      else if c.fault.Some? then Machine(w, NextWorkflow(rest[1..]))
      else Machine(w, NextDispatch(rest[0], NewestExecutions(w.executions, rest[0].id, EXECUTION_WINDOW), rest[1..]))
    case _ => JobStep(w, m.pc, c)
  }

  function JobStep(w: World, pc: Pc, c: Choice): Machine
    requires pc.HasJob()
  {
    var job := pc.job;
    var e := job.execution.id;
    var steps := job.workflow.steps;
    var refusal := Refusal(c.fault, HasExecution(w, e));
    match pc
    case Starting(_) =>
      if refusal.Some? then Machine(w, Resume(job))
      else Machine(SetExecutionStatus(w, e, ExecRunning), Marking(job.(execution := Started(job.execution, w.clock))))
    case Marking(_) =>
      if refusal.Some? then Machine(w, Resume(job))
      else
        var w' := NoteEntry(SaveExecution(w, job.execution), e, job.workflow);
        Machine(w', LoopTop(w', job, 0))
    case Checking(_, i) =>
      if c.ctxDone then
        Machine(if refusal.Some? then w else SetExecutionStatus(w, e, ExecCanceled), Resume(job))
      else if refusal.Some? then Machine(w, Resume(job))
      else
        var w' := NoteMark(w, e, Fetched(i));
        var canceled := w.executions[e].status == ExecCanceled;
        Machine(w', if canceled then SkipFrom(w', job, i, CanceledOutside) else Creating(job, i))
    case Creating(_, i) =>
      if i >= |steps| then Machine(w, Resume(job))
      else if refusal.Some? then Machine(w, SkipFrom(w, job, i + 1, StepError(CreateFailed(refusal.value))))
      else Machine(AddStepRow(w, NewStepRow(e, steps[i], StepPending, ByEngine(i))), Launching(job, i, |w.stepRows[e]|))
    case Launching(_, i, r) =>
      var refused := Refusal(c.fault, HasRow(w, e, r));
      if refused.Some? then Machine(w, SkipFrom(w, job, i + 1, StepError(LaunchFailed(refused.value))))
      else Machine(SetStepStatus(w, e, r, StepRunning, None), Executing(job, i, r))
    case Executing(_, i, r) =>
      if i >= |steps| then Machine(w, Resume(job))
      else
        var w' := if HasExecution(w, e) then NoteRun(w, e, Run(i, steps[i], c.result)) else w;
        Machine(w', Recording(job, i, r, c.result))
    case Recording(_, i, r, result) =>
      var refused := Refusal(c.fault, HasRow(w, e, r));
      if i >= |steps| then Machine(w, Resume(job))
      else if !Good(result) then
        var w' := if refused.Some? then w else SetStepStatus(w, e, r, StepFailed, Some(result.exitCode));
        Machine(w', SkipFrom(w', job, i + 1, StepError(BrokenStep(steps[i], result))))
      else if refused.Some? then Machine(w, SkipFrom(w, job, i + 1, StepError(RecordFailed(refused.value))))
      else
        var w' := SetStepStatus(w, e, r, StepSucceeded, Some(result.exitCode));
        Machine(w', LoopTop(w', job, i + 1))
    case Skipping(_, i, why) =>
      if i >= |steps| || refusal.Some? then Machine(w, SkipFrom(w, job, i + 1, why))
      else
        var row := NewStepRow(e, steps[i], StepSkipped, ByEngine(i));
        Machine(AddStepRow(w, row), Confirming(job, i, |w.stepRows[e]|, why))
    case Confirming(_, i, r, why) =>
      var w' := if Refusal(c.fault, HasRow(w, e, r)).Some? then w else SetStepStatus(w, e, r, StepSkipped, None);
      Machine(w', SkipFrom(w', job, i + 1, why))
    case Finishing(_) =>
      Machine(if refusal.Some? then w else NoteMark(SaveExecution(w, job.execution), e, Closed), Resume(job))
  }

  // ---- runs ----

  datatype Action = Engine(choice: Choice) | Env(action: EnvAction)

  function Step(m: Machine, a: Action): Machine {
    match a
    case Engine(c) => EngineStep(m, c)
    case Env(x) => m.(world := EnvStep(m.world, x))
  }

  /** Any interleaving: one engine, any number of service calls. */
  function Execute(m: Machine, actions: seq<Action>): Machine
    decreases |actions|
  {
    if actions == [] then m else Execute(Step(m, actions[0]), actions[1..])
  }

  lemma {:induction false} ExecuteAll(m: Machine, first: seq<Action>, second: seq<Action>)
    ensures Execute(m, first + second) == Execute(Execute(m, first), second)
    decreases |first|
  {
    if first == [] {
      assert first + second == second;
    } else {
      assert (first + second)[1..] == first[1..] + second;
      ExecuteAll(Step(m, first[0]), first[1..], second);
    }
  }

  lemma {:induction false} ExecuteOne(m: Machine, a: Action)
    ensures Execute(m, [a]) == Step(m, a)
  {
    assert [a][1..] == [];
  }

  // ---- what is reached from an empty store ----

  predicate IsReached(m: Machine, actions: seq<Action>) {
    Execute(INITIAL, actions) == m
  }

  ghost predicate Reachable(m: Machine) {
    exists actions :: IsReached(m, actions)
  }

  /** The engine is not among those who act. */
  predicate EngineFree(actions: seq<Action>) {
    forall k :: 0 <= k < |actions| ==> actions[k].Env?
  }

  /** Where the engine stands makes no difference to the others, and they do not move it. */
  lemma {:induction false} OthersLeaveEngine(w: World, pc: Pc, pc': Pc, actions: seq<Action>)
    requires EngineFree(actions)
    ensures Execute(Machine(w, pc), actions) == Machine(Execute(Machine(w, pc'), actions).world, pc)
    decreases |actions|
  {
    if actions != [] {
      OthersLeaveEngine(EnvStep(w, actions[0].action), pc, pc', actions[1..]);
    }
  }

  /** What others do before one repository call, and what that call meets. */
  datatype Turn = Turn(before: seq<Action>, choice: Choice)

  function TakeTurn(m: Machine, t: Turn): Machine {
    EngineStep(Execute(m, t.before), t.choice)
  }

  /** The machine after `n` engine calls under the surroundings `oracle`. */
  function Reach(origin: Machine, oracle: nat -> Turn, n: nat): Machine {
    if n == 0 then origin else TakeTurn(Reach(origin, oracle, n - 1), oracle(n - 1))
  }

  /** How many passes have begun in the first `n` engine calls: a call made from Idle begins one. */
  function PassesBegun(origin: Machine, oracle: nat -> Turn, n: nat): nat {
    if n == 0 then 0
    else PassesBegun(origin, oracle, n - 1) + if Reach(origin, oracle, n - 1).pc.Idle? then 1 else 0
  }
}
