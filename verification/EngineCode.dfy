/** engine.go as it is written: nested loops over workflows, executions and steps. Each method is proved,
    under any interference and any faults, to go through exactly the machine's steps. */
module EngineCode {
  import opened Domain
  import opened State
  import opened Environment
  import opened Machine
  import opened Safety
  import opened Guarantees
  import opened PollPass
  import opened PassFaults
  import opened Store

  datatype Signal = CtxDone | StopSignal | Tick

  class Engine {
    const db: Database

    constructor (db: Database)
      ensures this.db == db
    {
      this.db := db;
    }

    /** processStep: from the creation of the step's row to the loop head, or to skipping on an error. */
    method ProcessStep(execution: Execution, step: StepDefinition, index: nat, ghost job: Job)
      returns (err: Option<ErrorText>)
      requires execution == job.execution && index < |job.workflow.steps| && step == job.workflow.steps[index]
      requires db.At(Creating(job, index))
      modifies db
      ensures old(db.tick) < db.tick && db.Begun() == old(db.Begun())
      ensures err.None? ==> db.At(LoopTop(db.world, job, index + 1))
      ensures err.Some? ==> err.value != Blank && db.At(SkipFrom(db.world, job, index + 1, StepError(err.value)))
    {
      hide Execute;
      hide Database.Valid;
      hide Database.Sole;
      hide Database.Begun;
      hide SkipFrom;
      hide LoopTop;
      hide Resume;
      var row, refused := db.CreateStepRow(NewStepRow(execution.id, step, StepPending, ByEngine(index)));
      if refused.Some? {
        return Some(CreateFailed(refused.value));
      }
      assert db.At(Launching(job, index, row));
      refused := db.UpdateStepStatus(execution.id, row, StepRunning, None);
      if refused.Some? {
        return Some(LaunchFailed(refused.value));
      }
      assert db.At(Executing(job, index, row));
      var result := db.RunnerExecute(execution.id, index, step);
      assert db.At(Recording(job, index, row, result));
      if result.error.Some? || result.exitCode != 0 {
        refused := db.UpdateStepStatus(execution.id, row, StepFailed, Some(result.exitCode));
        return Some(StepBroken(step.name, result.exitCode, result.error));
      }
      refused := db.UpdateStepStatus(execution.id, row, StepSucceeded, Some(result.exitCode));
      if refused.Some? {
        return Some(RecordFailed(refused.value));
      }
      return None;
    }

    /** skipRemainingSteps: one skipped row per remaining step, errors ignored. */
    method SkipRemainingSteps(execution: Execution, remaining: seq<StepDefinition>, from: nat,
        ghost job: Job, ghost why: Why)
      requires execution == job.execution && from <= |job.workflow.steps| && remaining == job.workflow.steps[from..]
      requires db.At(SkipFrom(db.world, job, from, why))
      modifies db
      ensures db.At(SkipFrom(db.world, job, |job.workflow.steps|, why)) && old(db.tick) <= db.tick
      ensures db.Begun() == old(db.Begun())
    {
      for k := 0 to |remaining|
        invariant old(db.tick) <= db.tick && db.Begun() == old(db.Begun())
        invariant db.At(SkipFrom(db.world, job, from + k, why))
      {
        SkipStep(execution, remaining[k], from + k, job, why);
      }
    }

    /** One round of skipRemainingSteps. */
    method SkipStep(execution: Execution, step: StepDefinition, index: nat, ghost job: Job, ghost why: Why)
      requires execution == job.execution && index < |job.workflow.steps| && step == job.workflow.steps[index]
      requires db.At(Skipping(job, index, why))
      modifies db
      ensures db.At(SkipFrom(db.world, job, index + 1, why)) && old(db.tick) < db.tick
      ensures db.Begun() == old(db.Begun())
    {
      hide Execute;
      hide Database.Valid;
      hide Database.Sole;
      hide Database.Begun;
      var row, refused := db.CreateStepRow(NewStepRow(execution.id, step, StepSkipped, ByEngine(index)));
      if refused.Some? {
        return;
      }
      refused := db.UpdateStepStatus(execution.id, row, StepSkipped, None);
    }

    /** The start of processExecution: the status-only write and the full-row write, both Running. */
    method MarkRunning(workflow: Workflow, listed: Execution, ghost queue: seq<Execution>, ghost rest: seq<Workflow>)
      returns (execution: Execution, ok: bool)
      requires db.At(Starting(Job(workflow, listed, queue, rest)))
      modifies db
      ensures old(db.tick) < db.tick && db.Begun() == old(db.Begun())
      ensures !ok ==> db.At(NextDispatch(workflow, queue, rest))
      ensures ok ==> db.At(LoopTop(db.world, Job(workflow, execution, queue, rest), 0))
    {
      hide Execute;
      hide Database.Valid;
      hide Database.Sole;
      hide Database.Begun;
      execution := listed;
      var refused := db.UpdateExecutionStatus(execution.id, ExecRunning);
      if refused.Some? {
        return execution, false;
      }
      execution := execution.(startedAt := Some(db.Now()), status := ExecRunning);
      refused := db.UpdateExecution(execution);
      if refused.Some? {
        return execution, false;
      }
      db.NoteLoopEntry(execution.id, workflow);
      return execution, true;
    }

    /** The end of processExecution on either path: the final full-row write. */
    method Close(execution: Execution, ghost job: Job)
      requires execution == job.execution && db.At(Finishing(job))
      modifies db
      ensures old(db.tick) < db.tick && db.At(Resume(job)) && db.Begun() == old(db.Begun())
    {
      hide Execute;
      hide Database.Valid;
      hide Database.Sole;
      hide Database.Begun;
      var refused := db.UpdateExecution(execution);
      if refused.None? {
        db.Note(execution.id, Closed);
      }
    }

    /** processExecution: from an execution listed as pending to the next one. */
    method ProcessExecution(workflow: Workflow, listed: Execution,
        ghost queue: seq<Execution>, ghost rest: seq<Workflow>)
      requires db.At(Starting(Job(workflow, listed, queue, rest)))
      modifies db
      ensures db.At(NextDispatch(workflow, queue, rest)) && old(db.tick) < db.tick
      ensures db.Begun() == old(db.Begun())
    {
      hide Execute;
      hide Database.Valid;
      hide Database.Sole;
      hide Database.Begun;
      var execution, ok := MarkRunning(workflow, listed, queue, rest);
      if !ok {
        return;
      }
      ghost var job := Job(workflow, execution, queue, rest);
      for i := 0 to |workflow.steps|
        invariant db.At(LoopTop(db.world, job, i)) && old(db.tick) < db.tick
        invariant db.Begun() == old(db.Begun())
      {
        if db.ContextDone() {
          var ignored := db.UpdateExecutionStatus(execution.id, ExecCanceled);
          return;
        }
        var current, refused := db.GetExecution(execution.id);
        if refused.Some? {
          return;
        }
        db.Note(execution.id, Fetched(i));
        if current.value.status == ExecCanceled {
          SkipRemainingSteps(execution, workflow.steps[i..], i, job, CanceledOutside);
          return;
        }
        var err := ProcessStep(execution, workflow.steps[i], i, job);
        if err.Some? {
          SkipRemainingSteps(execution, workflow.steps[i + 1..], i + 1, job, StepError(err.value));
          execution := execution.(finishedAt := Some(db.Now()), status := ExecFailed, error := err.value);
          Close(execution, job.(execution := execution));
          return;
        }
      }
      execution := execution.(finishedAt := Some(db.Now()), status := ExecSucceeded);
      Close(execution, job.(execution := execution));
    }

    /** processPendingExecutions: one pass, from idle to idle, and no other begins on the way. */
    method ProcessPendingExecutions()
      requires db.At(Idle)
      modifies db
      ensures db.At(Idle) && old(db.tick) < db.tick
      ensures db.Begun() == old(db.Begun()) + 1
    {
      hide Execute;
      hide Database.Valid;
      hide Database.Sole;
      hide Database.Begun;
      var workflows, refused := db.ListWorkflows(WORKFLOW_WINDOW);
      if refused.Some? {
        return;
      }
      for k := 0 to |workflows|
        invariant db.At(NextWorkflow(workflows[k..])) && old(db.tick) < db.tick
        invariant db.Begun() == old(db.Begun()) + 1
      {
        var workflow := workflows[k];
        ghost var rest := workflows[k + 1..];
        assert workflows[k..][1..] == rest;
        var executions;
        executions, refused := db.ListByWorkflow(workflow.id, EXECUTION_WINDOW);
        if refused.Some? {
          continue;
        }
        for j := 0 to |executions|
          invariant db.At(NextDispatch(workflow, executions[j..], rest)) && old(db.tick) < db.tick
          invariant db.Begun() == old(db.Begun()) + 1
        {
          assert executions[j..][1..] == executions[j + 1..];
          if executions[j].status == ExecPending {
            ProcessExecution(workflow, executions[j], executions[j + 1..], rest);
          }
        }
      }
    }

    /** pollLoop: one pass per tick until the context ends or Stop is called. `passes` is for the caller; what
        counts is that as many passes of the machine have begun. */
    method PollLoop(signals: seq<Signal>) returns (passes: nat)
      requires db.At(Idle)
      modifies db
      ensures db.At(Idle) && db.Begun() == old(db.Begun()) + passes
      ensures passes <= |signals| && forall k :: 0 <= k < passes ==> signals[k] == Tick
      ensures passes < |signals| ==> signals[passes] == CtxDone || signals[passes] == StopSignal
    {
      hide Execute;
      hide Database.Valid;
      hide Database.Sole;
      hide Database.Begun;
      passes := 0;
      for k := 0 to |signals|
        invariant db.At(Idle) && db.Begun() == old(db.Begun()) + passes && passes == k
        invariant forall j :: 0 <= j < k ==> signals[j] == Tick
      {
        if signals[k] != Tick {
          return;
        }
        ProcessPendingExecutions();
        passes := passes + 1;
      }
    }
  }

  // ---- the code's runs are runs of the system ----

  /** The first `n` turns as one interleaving. */
  function Schedule(oracle: nat -> Turn, n: nat): seq<Action> {
    if n == 0 then []
    else Schedule(oracle, n - 1) + oracle(n - 1).before + [Action.Engine(oracle(n - 1).choice)]
  }

  lemma {:induction false} ExecuteNone(m: Machine)
    ensures Execute(m, []) == m
  {
  }

  lemma {:induction false} ReachIsExecute(origin: Machine, oracle: nat -> Turn, n: nat)
    ensures Reach(origin, oracle, n) == Execute(origin, Schedule(oracle, n))
  {
    hide EngineStep;
    hide EnvStep;
    hide Execute;
    if n == 0 {
      assert Execute(origin, []) == origin by { ExecuteNone(origin); }
    } else {
      var earlier, turn := Schedule(oracle, n - 1), oracle(n - 1);
      ReachIsExecute(origin, oracle, n - 1);
      ExecuteAll(origin, earlier + turn.before, [Action.Engine(turn.choice)]);
      ExecuteAll(origin, earlier, turn.before);
      ExecuteOne(Execute(origin, earlier + turn.before), Action.Engine(turn.choice));
    }
  }

  /** Wherever the code is after starting on an empty store, the state is one that the system reaches by the
      interleaving the code has met so far. So whatever holds of every reached state, statuses, dispatches,
      rows and cancellations alike, holds of the code. */
  lemma {:induction false} CodeIsARun(db: Database, pc: Pc)
    requires db.At(pc) && db.origin == INITIAL
    ensures Reached(Schedule(db.oracle, db.tick)) == Machine(db.world, pc)
  {
    ReachIsExecute(INITIAL, db.oracle, db.tick);
    assert Reach(db.origin, db.oracle, db.tick) == Machine(db.world, pc);
  }

  /** Code at a control point has kept every invariant of the machine, whatever interfered with it. */
  lemma {:induction false} CodeIsSafe(db: Database, pc: Pc)
    requires db.At(pc) && Inv(db.origin)
    ensures Inv(Machine(db.world, pc))
  {
    ReachInv(db.origin, db.oracle, db.tick);
    assert Reach(db.origin, db.oracle, db.tick) == Machine(db.world, pc);
  }

  /** A run of the code's passes, alone and without faults, has driven every execution it could see that was
      pending at the start to its end and has left every other execution as it was. */
  lemma {:induction false} CodeCovers(db: Database)
    requires db.At(Idle) && db.tick > 0 && db.origin.pc.Idle? && Inv(db.origin)
    requires forall k :: 0 <= k < db.tick ==> Quiet(db.oracle(k))
    ensures var w0, w := db.origin.world, db.world;
            && |w.executions| == |w0.executions|
            && (forall e :: 0 <= e < |w0.executions| ==>
                  if Visible(w0, e) && w0.executions[e].status == ExecPending
                  then Terminal(w.executions[e].status)
                  else w.executions[e] == w0.executions[e])
  {
    assert Reach(db.origin, db.oracle, db.tick) == Machine(db.world, Idle);
    assert db.origin == Machine(db.origin.world, Idle);
    PassCovers(db.origin.world, db.oracle, db.tick);
  }

  /** One pass of the code, alone and with a live context, ends an execution that was pending in its window
      exactly when none of the calls that matter to it is refused, whatever else is. */
  lemma {:induction false} CodeCoversUnderFaults(db: Database, e: nat)
    requires db.At(Idle) && db.tick > 0 && db.origin.pc.Idle? && Inv(db.origin)
    requires Alone(db.origin, db.oracle, db.tick)
    requires Visible(db.origin.world, e) && db.origin.world.executions[e].status == ExecPending
    ensures e < |db.world.executions|
    ensures Terminal(db.world.executions[e].status) <==> !MissedBy(db.origin, db.oracle, e, db.tick)
  {
    assert Reach(db.origin, db.oracle, db.tick) == Machine(db.world, Idle);
    assert db.origin == Machine(db.origin.world, Idle);
    PassCoversUnderFaults(db.origin.world, db.oracle, db.tick, e);
  }
}
