/** The workflow lifecycle: what survives any interleaving of the halves of service calls, and what needs
    the calls to run one after the other. */
module Workflows {
  import opened Domain
  import opened State
  import opened Environment
  import opened Machine
  import opened Safety
  import opened Guarantees
  import opened Witnesses

  // ---- any interleaving ----

  /** A workflow that has left draft has steps. */
  predicate Runnable(wf: Workflow) {
    wf.status != Draft ==> |wf.steps| > 0
  }

  predicate CallRunnable(call: Call) {
    match call
    case Canceling(_) => true
    case Triggering(wf, _) => wf.status == Active && |wf.steps| > 0
    case Inserting(wf, _, _) => wf.status == Active && |wf.steps| > 0
    case Saving(wf) => Runnable(wf)
  }

  predicate WorkflowInv(w: World) {
    && (forall k :: 0 <= k < |w.workflows| ==> Runnable(w.workflows[k]))
    && (forall c :: c in w.calls ==> CallRunnable(w.calls[c]))
    && (forall e :: 0 <= e < |w.logs| ==> w.logs[e].trigger.status == Active && |w.logs[e].trigger.steps| > 0)
  }

  lemma {:induction false} EnvKeepsWorkflows(w: World, a: EnvAction)
    requires WorkflowInv(w)
    ensures WorkflowInv(EnvStep(w, a))
  {
  }

  lemma {:induction false} EngineKeepsWorkflows(m: Machine, c: Choice)
    requires Inv(m) && WorkflowInv(m.world)
    ensures WorkflowInv(EngineStep(m, c).world)
  {
    var w' := EngineStep(m, c).world;
    if m.pc.HasJob() { JobTouches(m.world, m.pc, c); }
    forall e | 0 <= e < |w'.logs| ensures w'.logs[e].trigger == m.world.logs[e].trigger {
      LogsOnlyGrow(m, Engine(c), e);
    }
  }

  lemma {:induction false} ExecuteKeepsWorkflows(m: Machine, actions: seq<Action>)
    requires Inv(m) && WorkflowInv(m.world)
    ensures WorkflowInv(Execute(m, actions).world)
    decreases |actions|
  {
    if actions != [] {
      StepKeepsInv(m, actions[0]);
      match actions[0] {
        case Env(x) => EnvKeepsWorkflows(m.world, x);
        case Engine(c) => EngineKeepsWorkflows(m, c);
      }
      ExecuteKeepsWorkflows(Step(m, actions[0]), actions[1..]);
    }
  }

  /** However the reads and writes of any number of Create, Update, Activate and Archive calls interleave, a
      stored workflow that is active or archived has steps, and so had every snapshot an execution was
      triggered with. */
  lemma {:induction false} ActiveHasSteps(actions: seq<Action>)
    ensures var w := Reached(actions).world;
            && (forall k :: 0 <= k < |w.workflows| && w.workflows[k].status != Draft ==> |w.workflows[k].steps| > 0)
            && (forall e :: 0 <= e < |w.executions| ==> |w.logs[e].trigger.steps| > 0)
  {
    ExecuteKeepsWorkflows(INITIAL, actions);
  }

  /** Interleaved halves do break the lifecycle: an Update that read the draft writes it back over the
      activated workflow, which is a draft without steps again. */
  lemma {:induction false} LostUpdate(step: StepDefinition) returns (before: Machine, after: Machine)
    ensures Reachable(before) && Reachable(after) && after == Step(before, Env(WorkflowWrite(1, None)))
    ensures |before.world.workflows| == 1 && before.world.workflows[0].status == Active
    ensures |after.world.workflows| == 1 && after.world.workflows[0].status == Draft
    ensures after.world.workflows[0].steps == []
  {
    var ready, stale := Workflow(0, "w", "", [step], Draft), Workflow(0, "w", "later", [], Draft);
    var m := ToStaleUpdate(step);
    m := Then(m, Env(WorkflowRead(0, 0, Activate)));
    before := Then(m, Env(WorkflowWrite(0, None)));
    assert before == Machine(World([ready.(status := Active)], [], [], 0, map[1 := Saving(stale)], []), Idle);
    after := Then(before, Env(WorkflowWrite(1, None)));
  }

  /** An Update has read the empty draft, and another one has given it a step since. */
  lemma {:induction false} ToStaleUpdate(step: StepDefinition) returns (m: Machine)
    ensures Reachable(m)
    ensures var ready, stale := Workflow(0, "w", "", [step], Draft), Workflow(0, "w", "later", [], Draft);
            m == Machine(World([ready], [], [], 0, map[1 := Saving(stale)], []), Idle)
  {
    var empty, stale := Workflow(0, "w", "", [], Draft), Workflow(0, "w", "later", [], Draft);
    assert IsReached(INITIAL, []);
    m := Then(INITIAL, Env(CreateWorkflow("w", "", [])));
    m := Then(m, Env(WorkflowRead(1, 0, Modify(None, Some("later"), []))));
    assert m == Machine(World([empty], [], [], 0, map[1 := Saving(stale)], []), Idle);
    m := Then(m, Env(WorkflowRead(0, 0, Modify(None, None, [step]))));
    m := Then(m, Env(WorkflowWrite(0, None)));
  }

  // ---- the stages of a workflow ----

  lemma {:induction false} EngineLeavesCalls(m: Machine, c: Choice)
    requires Inv(m)
    ensures EngineStep(m, c).world.calls == m.world.calls && EngineStep(m, c).world.workflows == m.world.workflows
  {
    if m.pc.HasJob() { JobTouches(m.world, m.pc, c); }
  }

  function Stage(status: WorkflowStatus): nat {
    match status
    case Draft => 0
    case Active => 1
    case Archived => 2
  }

  /** How a stored workflow should change: along an edge of the table, if at all; not while it is active, but
      for being archived; and into an active one only as the draft it was, which must have steps. */
  predicate Ages(wf: Workflow, wf': Workflow) {
    && WorkflowEdge(wf.status, wf'.status)
    && (wf.status == Active ==> wf' == wf || wf' == wf.(status := Archived))
    && (wf.status != Active && wf'.status == Active ==>
          wf.status == Draft && wf' == wf.(status := Active) && |wf.steps| > 0)
  }

  // ---- whole calls ----

  /** A service call that runs alone, with a fault at its write, or after `rows` inserted step rows. */
  datatype Request =
    | Wait(duration: nat)
    | CreateCall(name: string, description: string, steps: seq<StepDefinition>)
    | ChangeCall(workflowId: nat, request: WorkflowRequest, fault: Option<string>)
    | CancelCall(execution: nat, fault: Option<string>)
    | TriggerCall(workflowId: nat, fault: Option<string>, rows: nat)

  /** The repository calls of a service call, in order. */
  function CallActions(r: Request): seq<EnvAction> {
    match r
    case Wait(d) => [Elapse(d)]
    case CreateCall(name, description, steps) => [CreateWorkflow(name, description, steps)]
    case ChangeCall(id, request, fault) => [WorkflowRead(0, id, request), WorkflowWrite(0, fault)]
    case CancelCall(e, fault) => [CancelRead(0, e), CancelWrite(0, fault)]
    case TriggerCall(id, fault, rows) =>
      [TriggerRead(0, id), TriggerExecution(0, fault)]
      + Inserts(rows)
  }

  function Serve(w: World, r: Request): World {
    RunEnv(w, CallActions(r))
  }

  /** The first rows Trigger inserts. */
  function InsertRows(w: World, wf: Workflow, e: nat, from: nat, count: nat): World
    requires HasExecution(w, e) && from + count <= |wf.steps|
    decreases count
  {
    if count == 0 then w
    else
      var row := NewStepRow(e, wf.steps[from], StepPending, ByTrigger(from));
      InsertRows(AddStepRow(w, row), wf, e, from + 1, count - 1)
  }

  function Least(a: nat, b: nat): nat {
    if a < b then a else b
  }

  /** Trigger's new execution, started now. */
  function Inserted(w: World, wf: Workflow): World {
    InsertExecution(w, PendingExecution(wf, w.clock), wf)
  }

  /** The effect of each whole call in one piece. */
  function WholeCall(w: World, r: Request): World {
    match r
    case Wait(d) => w.(clock := w.clock + d)
    case CreateCall(name, description, steps) => InsertWorkflow(w, Workflow(0, name, description, steps, Draft))
    case ChangeCall(id, request, fault) =>
      if fault.None? && id < |w.workflows|
         && Decide(w.workflows[id], request).Success? && Decide(w.workflows[id], request).value.id == id
      then SaveWorkflow(w, Decide(w.workflows[id], request).value)
      else w
    case CancelCall(e, fault) =>
      if fault.None? && HasExecution(w, e) && Cancelable(w.executions[e].status)
      then NoteMark(SetExecutionStatus(w, e, ExecCanceled), e, CancelLanded)
      else w
    case TriggerCall(id, fault, rows) =>
      if fault.None? && id < |w.workflows| && w.workflows[id].status == Active
         && |w.executions| == |w.stepRows| == |w.logs|
      then
        var wf := w.workflows[id];
        InsertRows(Inserted(w, wf), wf, |w.executions|, 0, Least(rows, |wf.steps|))
      else w
  }

  lemma {:induction false} RunEnvAppend(w: World, first: seq<EnvAction>, second: seq<EnvAction>)
    ensures RunEnv(w, first + second) == RunEnv(RunEnv(w, first), second)
    decreases |first|
  {
    if first == [] {
      assert first + second == second;
    } else {
      assert (first + second)[1..] == first[1..] + second;
      RunEnvAppend(EnvStep(w, first[0]), first[1..], second);
    }
  }

  lemma {:induction false} RunTwo(w: World, a: EnvAction, b: EnvAction)
    ensures RunEnv(w, [a, b]) == EnvStep(EnvStep(w, a), b)
  {
    assert [a, b][1..] == [b] && [b][1..] == [];
    assert RunEnv(EnvStep(w, a), [b]) == RunEnv(EnvStep(EnvStep(w, a), b), []);
  }

  /** Row inserts of Trigger call number 0, and the insert that ends the call. */
  function Inserts(rows: nat): seq<EnvAction> {
    if rows == 0 then [EnvAction.TriggerStep(0, Some("stopped"))]
    else [EnvAction.TriggerStep(0, None)] + Inserts(rows - 1)
  }

  /** The inserting loop of Trigger, step by step. */
  lemma {:induction false} InsertingRows(w: World, wf: Workflow, e: nat, next: nat, rows: nat)
    requires w.calls == map[0 := Inserting(wf, e, next)] && HasExecution(w, e) && next <= |wf.steps|
    ensures RunEnv(w, Inserts(rows)) == InsertRows(w, wf, e, next, Least(rows, |wf.steps| - next)).(calls := map[])
    decreases rows
  {
    if rows == 0 || next == |wf.steps| {
      NoMoreRows(w, wf, e, next, rows);
    } else {
      var w' := AddStepRow(w, NewStepRow(e, wf.steps[next], StepPending, ByTrigger(next)));
      var held := map[0 := Inserting(wf, e, next + 1)];
      var left := Least(rows, |wf.steps| - next) - 1;
      InsertingOne(w, wf, e, next);
      assert Inserts(rows)[1..] == Inserts(rows - 1);
      InsertingRows(w'.(calls := held), wf, e, next + 1, rows - 1);
      InsertRowsCalls(w', wf, e, next + 1, left, held);
    }
  }

  lemma {:induction false} InsertingOne(w: World, wf: Workflow, e: nat, next: nat)
    requires w.calls == map[0 := Inserting(wf, e, next)] && HasExecution(w, e) && next < |wf.steps|
    ensures EnvStep(w, EnvAction.TriggerStep(0, None))
         == AddStepRow(w, NewStepRow(e, wf.steps[next], StepPending, ByTrigger(next)))
              .(calls := map[0 := Inserting(wf, e, next + 1)])
  {
    assert w.calls[0 := Inserting(wf, e, next + 1)] == map[0 := Inserting(wf, e, next + 1)];
  }

  lemma {:induction false} NoMoreRows(w: World, wf: Workflow, e: nat, next: nat, rows: nat)
    requires w.calls == map[0 := Inserting(wf, e, next)] && HasExecution(w, e) && next <= |wf.steps|
    requires rows == 0 || next == |wf.steps|
    ensures RunEnv(w, Inserts(rows)) == w.(calls := map[])
  {
    var done := EnvStep(w, Inserts(rows)[0]);
    assert w.calls - {0} == map[];
    assert done == w.(calls := map[]);
    if rows == 0 {
      assert Inserts(rows)[1..] == [];
    } else {
      assert Inserts(rows)[1..] == Inserts(rows - 1);
      NothingHeld(done, rows - 1);
    }
  }

  lemma {:induction false} NothingHeld(w: World, rows: nat)
    requires w.calls == map[]
    ensures RunEnv(w, Inserts(rows)) == w
  {
    if rows == 0 {
      assert Inserts(rows)[1..] == [];
    } else {
      assert Inserts(rows)[1..] == Inserts(rows - 1);
      NothingHeld(w, rows - 1);
    }
  }

  lemma {:induction false} InsertRowsCalls(w: World, wf: Workflow, e: nat, from: nat, count: nat, calls: map<nat, Call>)
    requires HasExecution(w, e) && from + count <= |wf.steps|
    ensures InsertRows(w.(calls := calls), wf, e, from, count) == InsertRows(w, wf, e, from, count).(calls := calls)
    decreases count
  {
    if count > 0 {
      InsertRowsCalls(AddStepRow(w, NewStepRow(e, wf.steps[from], StepPending, ByTrigger(from))), wf, e, from + 1,
          count - 1, calls);
    }
  }

  lemma {:induction false} HoldThenDrop(w: World, held: Call)
    requires w.calls == map[]
    ensures Drop(Hold(w, 0, held), 0) == w
  {
    assert Hold(w, 0, held).calls - {0} == map[];
  }

  lemma {:induction false} ChangeWhole(w: World, id: nat, request: WorkflowRequest, fault: Option<string>)
    requires w.calls == map[] && StoreOk(w)
    ensures var r := ChangeCall(id, request, fault); Serve(w, r) == WholeCall(w, r) && Serve(w, r).calls == map[]
  {
    RunTwo(w, WorkflowRead(0, id, request), WorkflowWrite(0, fault));
    if id < |w.workflows| && Decide(w.workflows[id], request).Success? {
      HoldThenDrop(w, Saving(Decide(w.workflows[id], request).value));
    }
  }

  lemma {:induction false} CancelWhole(w: World, e: nat, fault: Option<string>)
    requires w.calls == map[] && StoreOk(w)
    ensures var r := CancelCall(e, fault); Serve(w, r) == WholeCall(w, r) && Serve(w, r).calls == map[]
  {
    RunTwo(w, CancelRead(0, e), CancelWrite(0, fault));
    HoldThenDrop(w, Canceling(e));
  }

  /** The halves of a call, run back to back, are the whole call. */
  lemma {:induction false} HalvesMakeTheWhole(w: World, r: Request)
    requires w.calls == map[] && StoreOk(w)
    ensures Serve(w, r) == WholeCall(w, r) && Serve(w, r).calls == map[]
  {
    match r
    case Wait(d) => assert RunEnv(EnvStep(w, Elapse(d)), CallActions(r)[1..]) == EnvStep(w, Elapse(d));
    case CreateCall(n, d, s) =>
      assert RunEnv(EnvStep(w, CreateWorkflow(n, d, s)), CallActions(r)[1..]) == EnvStep(w, CreateWorkflow(n, d, s));
    case ChangeCall(id, request, fault) => ChangeWhole(w, id, request, fault);
    case CancelCall(e, fault) => CancelWhole(w, e, fault);
    case TriggerCall(id, fault, rows) => TriggerWhole(w, id, fault, rows);
  }

  lemma {:induction false} TriggerWhole(w: World, id: nat, fault: Option<string>, rows: nat)
    requires w.calls == map[] && StoreOk(w)
    ensures var r := TriggerCall(id, fault, rows); Serve(w, r) == WholeCall(w, r) && Serve(w, r).calls == map[]
  {
    var head := [TriggerRead(0, id), EnvAction.TriggerExecution(0, fault)];
    var tail := Inserts(rows);
    assert CallActions(TriggerCall(id, fault, rows)) == head + tail;
    RunEnvAppend(w, head, tail);
    RunTwo(w, head[0], head[1]);
    var w1 := RunEnv(w, head);
    if fault.None? && id < |w.workflows| && w.workflows[id].status == Active {
      var wf, e := w.workflows[id], |w.executions|;
      InsertingRows(w1, wf, e, 0, rows);
      InsertRowsCalls(Inserted(w, wf), wf, e, 0, Least(rows, |wf.steps|), w1.calls);
      InsertRowsCalls(Inserted(w, wf), wf, e, 0, Least(rows, |wf.steps|), map[]);
    } else {
      NothingHeld(w1, rows);
    }
  }
}
