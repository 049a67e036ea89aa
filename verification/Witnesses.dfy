/** Concrete runs: the race writes of the status envelope all happen, and so does each way in which the engine
    drops a running execution. */
module Witnesses {
  import opened Domain
  import opened State
  import opened Environment
  import opened Machine
  import opened Safety
  import opened Guarantees
  import opened Races

  lemma {:induction false} Then(m: Machine, a: Action) returns (m': Machine)
    requires Reachable(m)
    ensures m' == Step(m, a) && Reachable(m')
  {
    m' := Step(m, a);
    var actions :| IsReached(m, actions);
    ExecuteAll(INITIAL, actions, [a]);
    ExecuteOne(m, a);
    assert IsReached(m', actions + [a]);
  }

  const GO := Engine(Choice(None, false, RunnerResult(0, None)))

  /** A one-step workflow, created and activated. */
  lemma {:induction false} ToActive(step: StepDefinition) returns (m: Machine)
    ensures Reachable(m)
    ensures m == Machine(World([Workflow(0, "w", "", [step], Active)], [], [], 0, map[], []), Idle)
  {
    assert IsReached(INITIAL, []);
    m := Then(INITIAL, Env(CreateWorkflow("w", "", [step])));
    m := Then(m, Env(WorkflowRead(0, 0, Activate)));
    m := Then(m, Env(WorkflowWrite(0, None)));
  }

  /** It is triggered and the engine has listed the execution. */
  lemma {:induction false} ToStarting(step: StepDefinition) returns (m: Machine)
    ensures Reachable(m)
    ensures var wf, x := Workflow(0, "w", "", [step], Active), Execution(0, 0, ExecPending, Some(0), None, Blank);
            && m.pc == Starting(Job(wf, x, [], []))
            && m.world == World([wf], [x], [[]], 0, map[0 := Inserting(wf, 0, 0)], [ExecLog(wf, [], [], [])])
  {
    var wf, x := Workflow(0, "w", "", [step], Active), Execution(0, 0, ExecPending, Some(0), None, Blank);
    m := ToActive(step);
    m := Then(m, Env(TriggerRead(0, 0)));
    m := Then(m, Env(TriggerExecution(0, None)));
    assert m.world == World([wf], [x], [[]], 0, map[0 := Inserting(wf, 0, 0)], [ExecLog(wf, [], [], [])]);
    assert NewestWorkflows([wf], WORKFLOW_WINDOW) == [wf] by { assert [wf][..0] == []; }
    m := Then(m, GO);
    assert NewestExecutions([x], 0, EXECUTION_WINDOW) == [x] by { assert [x][..0] == []; }
    m := Then(m, GO);
  }

  /** The engine has read the row and is about to create the row of the only step. */
  lemma {:induction false} ToCreating(step: StepDefinition) returns (m: Machine)
    ensures Reachable(m)
    ensures m.pc.Creating? && m.pc.i == 0 && |m.pc.job.workflow.steps| == 1 && m.pc.job.execution.id == 0
    ensures m.pc.job.queue == [] && m.pc.job.rest == []
    ensures HasExecution(m.world, 0) && m.world.executions[0].status == ExecRunning && m.world.stepRows[0] == []
  {
    m := ToStarting(step);
    m := Then(m, GO);
    m := Then(m, GO);
    m := Then(m, GO);
  }

  /** The engine has run the step and is about to write the outcome. */
  lemma {:induction false} ToFinishing(result: RunnerResult) returns (m: Machine)
    ensures Reachable(m) && m.pc.Finishing?
    ensures m.pc.job.execution.id == 0 && HasExecution(m.world, 0) && m.world.executions[0].status == ExecRunning
    ensures m.pc.job.execution.status == if Good(result) then ExecSucceeded else ExecFailed
  {
    m := ToCreating(StepDefinition("s", "", [], [], map[], 0));
    m := Then(m, GO);
    m := Then(m, GO);
    m := Then(m, Engine(Choice(None, false, result)));
    m := Then(m, GO);
  }

  /** A cancel call landing whole. */
  lemma {:induction false} ThenCanceled(m: Machine) returns (m': Machine)
    requires Reachable(m) && HasExecution(m.world, 0) && Cancelable(m.world.executions[0].status)
    ensures Reachable(m') && m'.pc == m.pc && HasExecution(m'.world, 0)
    ensures m'.world.executions[0].status == ExecCanceled
  {
    m' := Then(m, Env(CancelRead(7, 0)));
    m' := Then(m', Env(CancelWrite(7, None)));
  }

  predicate Writes(m: Machine, a: Action, from: ExecutionStatus, to: ExecutionStatus) {
    && HasExecution(m.world, 0) && HasExecution(Step(m, a).world, 0)
    && m.world.executions[0].status == from && Step(m, a).world.executions[0].status == to
  }

  /** The envelope is exact: each of the five race writes happens in some run. */
  lemma {:induction false} RaceWritesHappen(from: ExecutionStatus, to: ExecutionStatus) returns (m: Machine, a: Action)
    requires RaceWrite(from, to)
    ensures Reachable(m) && Writes(m, a, from, to)
    ensures !ExecutionEdge(from, to)
  {
    var result := RunnerResult(if to == ExecFailed || from == ExecFailed then 1 else 0, None);
    if to == ExecRunning {
      m := ToStarting(StepDefinition("s", "", [], [], map[], 0));
      m := ThenCanceled(m);
      a := GO;
    } else {
      m := ToFinishing(result);
      if from == ExecCanceled {
        m := ThenCanceled(m);
        a := GO;
      } else {
        m, a := CanceledTooLate(m);
      }
    }
  }

  /** A cancel call reads before the engine's final update and writes after it. */
  lemma {:induction false} CanceledTooLate(before: Machine) returns (m: Machine, a: Action)
    requires Reachable(before) && before.pc.Finishing? && before.pc.job.execution.id == 0
    requires HasExecution(before.world, 0) && before.world.executions[0].status == ExecRunning
    ensures Reachable(m) && Writes(m, a, before.pc.job.execution.status, ExecCanceled)
  {
    m := Then(before, Env(CancelRead(7, 0)));
    m := Then(m, GO);
    a := Env(CancelWrite(7, None));
  }

  /** Where the engine can drop a running execution: at its full Running write, at a pre-step read, or at its
      final write. */
  datatype Place = AtMarking | AtReading | AtFinishing

  /** At each of the three places a reachable run drops a running execution, and it is settled then. */
  lemma {:induction false} DropsHappen(place: Place) returns (m: Machine, c: Choice)
    ensures Reachable(m) && Inv(m) && Drops(m, Engine(c), 0)
    ensures match place
            case AtMarking => m.pc.Marking?
            case AtReading => m.pc.Checking?
            case AtFinishing => m.pc.Finishing?
    ensures Unattended(EngineStep(m, c), 0) && Settled(EngineStep(m, c), 0)
  {
    c := Choice(Some("refused"), false, RunnerResult(0, None));
    if place.AtFinishing? {
      m := ToFinishing(RunnerResult(0, None));
    } else {
      m := ToMarking(StepDefinition("s", "", [], [], map[], 0));
      if place.AtReading? {
        m := Then(m, GO);
      }
    }
    ReachableIsReached(m);
    DroppedForGood(m, c, 0, []);
    ExactlyDropped(m, c, 0);
  }

  lemma {:induction false} ToMarking(step: StepDefinition) returns (m: Machine)
    ensures Reachable(m) && m.pc.Marking? && m.pc.job.execution.id == 0 && |m.pc.job.workflow.steps| == 1
    ensures HasExecution(m.world, 0) && m.world.executions[0].status == ExecRunning
  {
    m := ToStarting(step);
    m := Then(m, GO);
  }

  lemma {:induction false} ReachableIsReached(m: Machine)
    requires Reachable(m)
    ensures Inv(m)
  {
    var actions :| IsReached(m, actions);
    assert Reached(actions) == m;
  }
}
