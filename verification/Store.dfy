/** The repositories as the engine and the services call them. Before each call any finite number of steps
    of other actors may happen; the call itself is atomic, may meet a fault, and then has no effect. */
module Store {
  import opened Domain
  import opened State
  import opened Machine

  /** The listings, one row further back. */
  lemma {:induction false} OneRowBack(rows: seq<Workflow>, i: nat, most: nat)
    requires i < |rows| && most > 0
    ensures NewestWorkflows(rows[..i + 1], most) == [rows[i]] + NewestWorkflows(rows[..i], most - 1)
  {
    assert rows[..i + 1][..i] == rows[..i];
  }

  lemma {:induction false} OneRowBackOf(rows: seq<Execution>, workflowId: nat, i: nat, most: nat)
    requires i < |rows| && most > 0
    ensures NewestExecutions(rows[..i + 1], workflowId, most)
         == if rows[i].workflowId == workflowId then [rows[i]] + NewestExecutions(rows[..i], workflowId, most - 1)
            else NewestExecutions(rows[..i], workflowId, most)
  {
    assert rows[..i + 1][..i] == rows[..i];
  }

  class Database {
    var world: World
    /** Where the engine is, when it is not the caller but one of the others. */
    var elsewhere: Pc
    var tick: nat
    const oracle: nat -> Turn
    /** The shadow of an engine that is the caller: it takes one engine step per call. It means something only
        to the engine (see At); what the services promise does not mention it. */
    ghost const origin: Machine
    ghost var machine: Machine

    constructor (world: World, elsewhere: Pc, oracle: nat -> Turn, ghost pc: Pc)
      ensures this.world == world && this.elsewhere == elsewhere && this.oracle == oracle && tick == 0
      ensures origin == Machine(world, pc) && (Sole() ==> At(pc))
    {
      this.world, this.elsewhere, this.oracle, this.tick := world, elsewhere, oracle, 0;
      this.origin, this.machine := Machine(world, pc), Machine(world, pc);
    }

    /** The shadow has taken one step per call. (Stated under a quantifier, so that the verifier does not
        unfold its past wherever this is known.) */
    ghost predicate Valid()
      reads this
    {
      forall k: nat :: k == tick ==> Reach(origin, oracle, k) == machine
    }

    /** No other engine is at work. */
    ghost predicate Sole() {
      forall k: nat :: EngineFree(oracle(k).before)
    }

    /** The caller is the engine, and its shadow has the store it has. */
    ghost predicate Following()
      reads this
    {
      Valid() && Sole() && machine.world == world
    }

    /** The engine's code is at the control point `pc`: what it has done so far, under this interference and
        these faults, is exactly what the machine does in as many steps. */
    ghost predicate At(pc: Pc)
      reads this
    {
      Following() && machine.pc == pc
    }

    /** The state of the system, as seen by a caller other than the engine. */
    function Here(): Machine
      reads this
    {
      Machine(world, elsewhere)
    }

    /** The state the next call finds. */
    function Acting(): Machine
      reads this
    {
      Execute(Here(), oracle(tick).before)
    }

    /** The store the next call finds. */
    function Found(): World
      reads this
    {
      Acting().world
    }

    /** Where one engine step on that store takes the shadow. */
    ghost function NextShadow(): Machine
      reads this
    {
      EngineStep(Machine(Acting().world, machine.pc), oracle(tick).choice)
    }

    /** How many passes the caller, if it is the engine, has begun so far. */
    ghost function Begun(): nat
      reads this
    {
      PassesBegun(origin, oracle, tick)
    }

    ghost function NextBegun(): nat
      reads this
    {
      Begun() + if machine.pc.Idle? then 1 else 0
    }

    function Fault(): Option<string>
      reads this
    {
      oracle(tick).choice.fault
    }

    /** time.Now() */
    function Now(): nat
      reads this
    {
      world.clock
    }

    /** Whether the engine's context is canceled when it looks before its next call. */
    function ContextDone(): bool
      reads this
    {
      oracle(tick).choice.ctxDone
    }

    method Enter() returns (fault: Option<string>)
      modifies this
      ensures old(Following()) ==> Valid() && machine == old(NextShadow()) && Begun() == old(NextBegun())
      ensures tick == old(tick) + 1 && Here() == old(Acting()) && fault == old(Fault())
    {
      hide Execute;
      ghost var t := tick;
      if Following() {
        OthersLeaveEngine(world, machine.pc, elsewhere, oracle(t).before);
        assert TakeTurn(machine, oracle(t)) == NextShadow() by { assert machine == Machine(world, machine.pc); }
        assert Reach(origin, oracle, t) == machine;
        assert Reach(origin, oracle, t + 1) == TakeTurn(machine, oracle(t));
      }
      var found := Acting();
      fault := Fault();
      machine := TakeTurn(machine, oracle(tick));
      world, elsewhere := found.world, found.pc;
      tick := tick + 1;
    }

    // ---- workflows ----

    /** Create: the caller's row under a fresh id. */
    method CreateWorkflow(wf: Workflow) returns (id: nat, err: Option<string>)
      modifies this
      ensures old(Following()) ==> Valid() && machine == old(NextShadow()) && Begun() == old(NextBegun())
      ensures tick == old(tick) + 1 && elsewhere == old(Acting()).pc
      ensures err == old(Fault())
      ensures world == if err.Some? then old(Found()) else InsertWorkflow(old(Found()), wf)
      ensures id == |old(Found()).workflows|
    {
      hide Execute;
      err := Enter();
      id := |world.workflows|;
      if err.None? {
        var row := wf.(id := id);
        world := world.(workflows := world.workflows + [row]);
      }
    }

    method GetWorkflow(id: nat) returns (wf: Option<Workflow>, err: Option<string>)
      modifies this
      ensures old(Following()) ==> Valid() && machine == old(NextShadow()) && Begun() == old(NextBegun())
      ensures tick == old(tick) + 1 && elsewhere == old(Acting()).pc
      ensures world == old(Found())
      ensures err == Refusal(old(Fault()), id < |world.workflows|)
      ensures wf == if err.Some? then None else Some(world.workflows[id])
    {
      wf := None;
      hide Execute;
      err := Enter();
      if err.None? {
        if id < |world.workflows| { wf := Some(world.workflows[id]); } else { err := Some("not found"); }
      }
    }

    /** List, newest first; a limit of 0 is no limit. */
    method ListWorkflows(limit: nat) returns (listed: seq<Workflow>, err: Option<string>)
      modifies this
      ensures old(Following()) ==> Valid() && machine == old(NextShadow()) && Begun() == old(NextBegun())
      ensures tick == old(tick) + 1 && elsewhere == old(Acting()).pc
      ensures world == old(Found()) && err == old(Fault())
      ensures err.None? ==> listed == NewestWorkflows(world.workflows, if limit > 0 then limit else |world.workflows|)
    {
      hide Execute;
      listed := [];
      err := Enter();
      if err.Some? { return; }
      listed := Newest(world.workflows, if limit > 0 then limit else |world.workflows|);
    }

    static method Newest(rows: seq<Workflow>, most: nat) returns (listed: seq<Workflow>)
      ensures listed == NewestWorkflows(rows, most)
    {
      listed := [];
      var i := |rows|;
      assert rows[..i] == rows;
      while i > 0 && |listed| < most
        invariant 0 <= i <= |rows| && |listed| <= most
        invariant listed + NewestWorkflows(rows[..i], most - |listed|) == NewestWorkflows(rows, most)
      {
        i := i - 1;
        OneRowBack(rows, i, most - |listed|);
        listed := listed + [rows[i]];
      }
      assert NewestWorkflows(rows[..i], most - |listed|) == [];
    }

    method UpdateWorkflow(wf: Workflow) returns (err: Option<string>)
      modifies this
      ensures old(Following()) ==> Valid() && machine == old(NextShadow()) && Begun() == old(NextBegun())
      ensures tick == old(tick) + 1 && elsewhere == old(Acting()).pc
      ensures err == Refusal(old(Fault()), wf.id < |old(Found()).workflows|)
      ensures world == if err.Some? then old(Found()) else SaveWorkflow(old(Found()), wf)
    {
      hide Execute;
      err := Enter();
      if err.None? {
        if wf.id < |world.workflows| {
          world := world.(workflows := world.workflows[wf.id := wf]);
        } else {
          err := Some("not found");
        }
      }
    }

    // ---- executions ----

    /** Create: the caller's row under a fresh id; `workflow` is for the log. */
    method CreateExecution(x: Execution, workflow: Workflow) returns (id: nat, err: Option<string>)
      modifies this
      ensures old(Following()) ==> Valid() && machine == old(NextShadow()) && Begun() == old(NextBegun())
      ensures tick == old(tick) + 1 && elsewhere == old(Acting()).pc
      ensures err == old(Fault())
      ensures id == |old(Found()).executions|
      ensures world == if err.Some? then old(Found()) else InsertExecution(old(Found()), x, workflow)
    {
      hide Execute;
      err := Enter();
      id := |world.executions|;
      if err.None? {
        var row := x.(id := id);
        world := world.(executions := world.executions + [row], stepRows := world.stepRows + [[]]);
        world := world.(logs := world.logs + [ExecLog(workflow, [], [], [])]);
      }
    }

    method GetExecution(id: nat) returns (x: Option<Execution>, err: Option<string>)
      modifies this
      ensures old(Following()) ==> Valid() && machine == old(NextShadow()) && Begun() == old(NextBegun())
      ensures tick == old(tick) + 1 && elsewhere == old(Acting()).pc
      ensures world == old(Found())
      ensures err == Refusal(old(Fault()), HasExecution(world, id))
      ensures x == if err.Some? then None else Some(world.executions[id])
    {
      x := None;
      hide Execute;
      err := Enter();
      if err.None? {
        if HasExecution(world, id) { x := Some(world.executions[id]); } else { err := Some("not found"); }
      }
    }

    /** ListByWorkflow, newest first; a limit of 0 is no limit. */
    method ListByWorkflow(workflowId: nat, limit: nat) returns (listed: seq<Execution>, err: Option<string>)
      modifies this
      ensures old(Following()) ==> Valid() && machine == old(NextShadow()) && Begun() == old(NextBegun())
      ensures tick == old(tick) + 1 && elsewhere == old(Acting()).pc
      ensures world == old(Found()) && err == old(Fault())
      ensures var most := if limit > 0 then limit else |world.executions|;
              err.None? ==> listed == NewestExecutions(world.executions, workflowId, most)
    {
      hide Execute;
      listed := [];
      err := Enter();
      if err.Some? { return; }
      listed := NewestOf(world.executions, workflowId, if limit > 0 then limit else |world.executions|);
    }

    static method NewestOf(rows: seq<Execution>, workflowId: nat, most: nat) returns (listed: seq<Execution>)
      ensures listed == NewestExecutions(rows, workflowId, most)
    {
      listed := [];
      var i := |rows|;
      assert rows[..i] == rows;
      while i > 0 && |listed| < most
        invariant 0 <= i <= |rows| && |listed| <= most
        invariant listed + NewestExecutions(rows[..i], workflowId, most - |listed|)
               == NewestExecutions(rows, workflowId, most)
      {
        i := i - 1;
        OneRowBackOf(rows, workflowId, i, most - |listed|);
        if rows[i].workflowId == workflowId {
          listed := listed + [rows[i]];
        }
      }
      assert NewestExecutions(rows[..i], workflowId, most - |listed|) == [];
    }

    method UpdateExecution(x: Execution) returns (err: Option<string>)
      modifies this
      ensures old(Following()) ==> Valid() && machine == old(NextShadow()) && Begun() == old(NextBegun())
      ensures tick == old(tick) + 1 && elsewhere == old(Acting()).pc
      ensures err == Refusal(old(Fault()), HasExecution(old(Found()), x.id))
      ensures world == if err.Some? then old(Found()) else SaveExecution(old(Found()), x)
      ensures err.None? ==>
                var was := old(Found()).executions[x.id];
                world.executions[x.id]
                == Execution(was.id, was.workflowId, x.status, x.startedAt, x.finishedAt, x.error)
    {
      hide Execute;
      err := Enter();
      if err.None? {
        if HasExecution(world, x.id) {
          var row := world.executions[x.id];
          row := row.(status := x.status, startedAt := x.startedAt, finishedAt := x.finishedAt, error := x.error);
          world := world.(executions := world.executions[x.id := row]);
        } else {
          err := Some("not found");
        }
      }
    }

    method UpdateExecutionStatus(id: nat, status: ExecutionStatus) returns (err: Option<string>)
      modifies this
      ensures old(Following()) ==> Valid() && machine == old(NextShadow()) && Begun() == old(NextBegun())
      ensures tick == old(tick) + 1 && elsewhere == old(Acting()).pc
      ensures err == Refusal(old(Fault()), HasExecution(old(Found()), id))
      ensures world == if err.Some? then old(Found()) else SetExecutionStatus(old(Found()), id, status)
      ensures err.None? ==> world.executions[id] == old(Found()).executions[id].(status := status)
    {
      hide Execute;
      err := Enter();
      if err.None? {
        if HasExecution(world, id) {
          world := world.(executions := world.executions[id := world.executions[id].(status := status)]);
        } else {
          err := Some("not found");
        }
      }
    }

    // ---- step executions ----

    method CreateStepRow(row: StepRow) returns (id: nat, err: Option<string>)
      modifies this
      ensures old(Following()) ==> Valid() && machine == old(NextShadow()) && Begun() == old(NextBegun())
      ensures tick == old(tick) + 1 && elsewhere == old(Acting()).pc
      ensures err == Refusal(old(Fault()), HasExecution(old(Found()), row.executionId))
      ensures world == if err.Some? then old(Found()) else AddStepRow(old(Found()), row)
      ensures err.None? ==> id == |old(Found()).stepRows[row.executionId]|
    {
      id := 0;
      hide Execute;
      err := Enter();
      if err.None? {
        if HasExecution(world, row.executionId) {
          id := |world.stepRows[row.executionId]|;
          world := world.(stepRows := world.stepRows[row.executionId := world.stepRows[row.executionId] + [row]]);
        } else {
          err := Some("not found");
        }
      }
    }

    method UpdateStepStatus(e: nat, r: nat, status: StepStatus, exitCode: Option<int>) returns (err: Option<string>)
      modifies this
      ensures old(Following()) ==> Valid() && machine == old(NextShadow()) && Begun() == old(NextBegun())
      ensures tick == old(tick) + 1 && elsewhere == old(Acting()).pc
      ensures err == Refusal(old(Fault()), HasRow(old(Found()), e, r))
      ensures world == if err.Some? then old(Found()) else SetStepStatus(old(Found()), e, r, status, exitCode)
      ensures err.None? ==>
                var was := old(Found()).stepRows[e][r];
                var code := if exitCode.Some? then exitCode else was.exitCode;
                world.stepRows[e][r] == was.(status := status, exitCode := code)
    {
      hide Execute;
      err := Enter();
      if err.None? {
        if HasRow(world, e, r) {
          var row := world.stepRows[e][r].(status := status);
          if exitCode.Some? {
            row := row.(exitCode := exitCode);
          }
          world := world.(stepRows := world.stepRows[e := world.stepRows[e][r := row]]);
        } else {
          err := Some("not found");
        }
      }
    }

    // ---- the runner ----

    /** runner.Execute: its result is the surroundings' choice; the call is logged with what it was given. */
    method RunnerExecute(e: nat, index: nat, step: StepDefinition) returns (result: RunnerResult)
      modifies this
      ensures old(Following()) ==> Valid() && machine == old(NextShadow()) && Begun() == old(NextBegun())
      ensures tick == old(tick) + 1 && elsewhere == old(Acting()).pc
      ensures result == old(oracle(tick).choice.result)
      ensures var w := old(Found());
              world == if HasExecution(w, e) then NoteRun(w, e, Run(index, step, result)) else w
    {
      result := oracle(tick).choice.result;
      var fault := Enter();
      if HasExecution(world, e) {
        world := NoteRun(world, e, Run(index, step, result));
      }
    }

    // ---- bookkeeping, no repository call ----

    method NoteLoopEntry(e: nat, workflow: Workflow)
      requires HasExecution(world, e)
      modifies this`world
      ensures world == NoteEntry(old(world), e, workflow) && (old(Valid()) ==> Valid()) && Begun() == old(Begun())
    {
      world := NoteEntry(world, e, workflow);
    }

    method Note(e: nat, mark: Mark)
      requires HasExecution(world, e)
      modifies this`world
      ensures world == NoteMark(old(world), e, mark) && (old(Valid()) ==> Valid()) && Begun() == old(Begun())
    {
      world := NoteMark(world, e, mark);
    }
  }
}
