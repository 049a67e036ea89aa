/** Runs in which every service call is atomic, while the engine still works step by step between them. */
module SerialRuns {
  import opened Domain
  import opened State
  import opened Environment
  import opened Machine
  import opened Safety
  import opened Guarantees
  import opened EngineView
  import opened Races
  import opened Witnesses
  import opened Workflows

  datatype Block = Work(choice: Choice) | Call(request: Request)

  function SerialStep(m: Machine, b: Block): Machine {
    match b
    case Work(c) => EngineStep(m, c)
    case Call(r) => m.(world := Serve(m.world, r))
  }

  function SerialRun(m: Machine, blocks: seq<Block>): Machine
    decreases |blocks|
  {
    if blocks == [] then m else SerialRun(SerialStep(m, blocks[0]), blocks[1..])
  }

  predicate SerialInv(m: Machine) {
    Inv(m) && WorkflowInv(m.world) && m.world.calls == map[]
  }

  lemma {:induction false} RunEnvKeeps(m: Machine, actions: seq<EnvAction>)
    requires Inv(m) && WorkflowInv(m.world)
    ensures Inv(m.(world := RunEnv(m.world, actions))) && WorkflowInv(RunEnv(m.world, actions))
    decreases |actions|
  {
    if actions != [] {
      StepKeepsInv(m, Env(actions[0]));
      EnvKeepsWorkflows(m.world, actions[0]);
      RunEnvKeeps(Step(m, Env(actions[0])), actions[1..]);
    }
  }

  lemma {:induction false} SerialStepKeeps(m: Machine, b: Block)
    requires SerialInv(m)
    ensures SerialInv(SerialStep(m, b))
  {
    match b
    case Work(c) =>
      EngineKeepsInv(m, c);
      EngineKeepsWorkflows(m, c);
      EngineLeavesCalls(m, c);
    case Call(r) =>
      RunEnvKeeps(m, CallActions(r));
      HalvesMakeTheWhole(m.world, r);
  }

  // ---- workflow history ----

  lemma {:induction false} SerialStepAges(m: Machine, b: Block, k: nat)
    requires SerialInv(m) && k < |m.world.workflows|
    ensures k < |SerialStep(m, b).world.workflows| && Ages(m.world.workflows[k], SerialStep(m, b).world.workflows[k])
  {
    match b
    case Work(c) => EngineLeavesCalls(m, c);
    case Call(r) =>
      HalvesMakeTheWhole(m.world, r);
      if r.TriggerCall? { TriggerLeavesWorkflows(m.world, r); }
  }

  lemma {:induction false} InsertRowsFrame(w: World, wf: Workflow, e: nat, from: nat, count: nat)
    requires HasExecution(w, e) && from + count <= |wf.steps|
    ensures var w' := InsertRows(w, wf, e, from, count);
            && w'.workflows == w.workflows && w'.executions == w.executions && w'.logs == w.logs && w'.clock == w.clock
            && |w'.stepRows| == |w.stepRows|
            && (forall x :: 0 <= x < |w.stepRows| && x != e ==> w'.stepRows[x] == w.stepRows[x])
    decreases count
  {
    if count > 0 {
      var row := NewStepRow(e, wf.steps[from], StepPending, ByTrigger(from));
      InsertRowsFrame(AddStepRow(w, row), wf, e, from + 1, count - 1);
    }
  }

  /** A Trigger call adds at most one execution and changes no existing one. */
  lemma {:induction false} TriggerLeavesWorkflows(w: World, r: Request)
    requires r.TriggerCall?
    ensures var w' := WholeCall(w, r);
            && w'.workflows == w.workflows
            && w.executions <= w'.executions
            && (w'.executions != w.executions ==>
                  && |w.executions| == |w.stepRows| == |w.logs| && |w'.executions| == |w'.logs| == |w.executions| + 1
                  && r.workflowId < |w.workflows| && w.workflows[r.workflowId].status == Active
                  && w'.executions[|w.executions|].workflowId == w.workflows[r.workflowId].id
                  && w'.logs[|w.executions|].entries == [])
            && (w'.executions == w.executions ==> w'.logs == w.logs)
            && w.logs <= w'.logs && |w.stepRows| <= |w'.stepRows|
  {
    if w != WholeCall(w, r) {
      var wf := w.workflows[r.workflowId];
      InsertRowsFrame(Inserted(w, wf), wf, |w.executions|, 0, Least(r.rows, |wf.steps|));
    }
  }

  /** Every step of the run leaves the workflow as it was or lets it age. */
  predicate AgesOnly(m: Machine, blocks: seq<Block>, k: nat)
    decreases |blocks|
  {
    blocks != [] && k < |m.world.workflows| ==>
      && k < |SerialStep(m, blocks[0]).world.workflows|
      && Ages(m.world.workflows[k], SerialStep(m, blocks[0]).world.workflows[k])
      && AgesOnly(SerialStep(m, blocks[0]), blocks[1..], k)
  }

  /** Over any serial run each change of a workflow's status is an edge of the table, so it never moves
      backwards and happens at most once each; and while the workflow is active nothing about it changes. */
  lemma {:induction false} WorkflowHistory(m: Machine, blocks: seq<Block>, k: nat)
    requires SerialInv(m) && k < |m.world.workflows|
    ensures AgesOnly(m, blocks, k)
    ensures var m' := SerialRun(m, blocks);
            && SerialInv(m') && k < |m'.world.workflows|
            && var wf, wf' := m.world.workflows[k], m'.world.workflows[k];
            && Stage(wf.status) <= Stage(wf'.status)
            && (wf.status == Active && wf'.status == Active ==> wf' == wf)
    decreases |blocks|
  {
    hide SerialInv;
    hide SerialStep;
    if blocks != [] {
      SerialStepKeeps(m, blocks[0]);
      SerialStepAges(m, blocks[0], k);
      WorkflowHistory(SerialStep(m, blocks[0]), blocks[1..], k);
    }
  }

  /** From activation to archival: an active workflow that is found archived later was archived by one call
      that found it exactly as it was activated and changed nothing but the status. */
  lemma {:induction false} ArchivedAsActivated(m: Machine, blocks: seq<Block>, k: nat) returns (i: nat)
    requires SerialInv(m) && k < |m.world.workflows| && m.world.workflows[k].status == Active
    requires SerialInv(SerialRun(m, blocks)) && k < |SerialRun(m, blocks).world.workflows|
    requires SerialRun(m, blocks).world.workflows[k].status == Archived
    ensures i < |blocks|
    ensures var before, after := SerialRun(m, blocks[..i]), SerialRun(m, blocks[..i + 1]);
            && k < |before.world.workflows| && k < |after.world.workflows|
            && before.world.workflows[k] == m.world.workflows[k]
            && after.world.workflows[k] == m.world.workflows[k].(status := Archived)
    decreases |blocks|
  {
    SerialStepKeeps(m, blocks[0]);
    SerialStepAges(m, blocks[0], k);
    var m1 := SerialStep(m, blocks[0]);
    if m1.world.workflows[k].status == Archived {
      i := 0;
      assert blocks[..1] == [blocks[0]] && [blocks[0]][1..] == [];
      assert SerialRun(m1, []) == m1;
    } else {
      var j := ArchivedAsActivated(m1, blocks[1..], k);
      i := j + 1;
      assert blocks[..i][1..] == blocks[1..][..j];
      assert blocks[..i + 1][1..] == blocks[1..][..j + 1];
    }
  }

  // ---- only table edges ----

  /** A cancel call leaves alone the executions the engine is working on or has listed. */
  predicate CancelsUnengaged(m: Machine, b: Block) {
    b.Call? && b.request.CancelCall? ==> !Engaged(m.pc, b.request.execution)
  }

  lemma {:induction false} CancelKeepsCurrent(m: Machine, r: Request)
    requires Current(m) && r.CancelCall? && !Engaged(m.pc, r.execution)
    ensures Current(m.(world := WholeCall(m.world, r)))
  {
    if m.pc.HasJob() {
      var queue := m.pc.job.queue;
      assert forall k :: 0 <= k < |queue| && queue[k].status == ExecPending ==> queue[k].id != r.execution;
    }
  }

  lemma {:induction false} StepKeepsCurrent(m: Machine, b: Block)
    requires SerialInv(m) && Current(m) && CancelsUnengaged(m, b)
    ensures Current(SerialStep(m, b))
  {
    match b
    case Work(c) => WorkKeepsCurrent(m, c);
    case Call(r) =>
      HalvesMakeTheWhole(m.world, r);
      if r.TriggerCall? { TriggerKeepsCurrent(m, r); }
      if r.CancelCall? { CancelKeepsCurrent(m, r); }
  }

  lemma {:induction false} TriggerKeepsCurrent(m: Machine, r: Request)
    requires Current(m) && r.TriggerCall?
    ensures Current(m.(world := WholeCall(m.world, r)))
  {
    TriggerLeavesWorkflows(m.world, r);
  }

  /** The block is an engine step that writes over a cancel of `e`. */
  predicate Overwrites(m: Machine, b: Block, e: nat) {
    b.Work? && OverwritesCancel(m, Engine(b.choice), e)
  }

  /** With every service call whole, a stored status leaves the table exactly when the engine writes over a
      cancel: the other race writes need the halves of a cancel call apart. */
  lemma {:induction false} SerialEdges(m: Machine, b: Block, e: nat)
    requires SerialInv(m) && e < |m.world.executions|
    ensures KeepsTable(m.world, SerialStep(m, b).world, e) <==> !Overwrites(m, b, e)
  {
    match b
    case Work(c) => ExactlyOffTheTable(m, Engine(c), e);
    case Call(r) =>
      HalvesMakeTheWhole(m.world, r);
      if r.TriggerCall? { TriggerLeavesWorkflows(m.world, r); }
  }

  /** Every status change along a serial run is an edge of the execution table, or none. */
  predicate OnlyEdges(m: Machine, blocks: seq<Block>)
    decreases |blocks|
  {
    blocks != [] ==>
      && (forall e :: 0 <= e < |m.world.executions| ==> KeepsTable(m.world, SerialStep(m, blocks[0]).world, e))
      && OnlyEdges(SerialStep(m, blocks[0]), blocks[1..])
  }

  predicate NeverOverwrites(m: Machine, blocks: seq<Block>)
    decreases |blocks|
  {
    blocks != [] ==>
      && (forall e :: 0 <= e < |m.world.executions| ==> !Overwrites(m, blocks[0], e))
      && NeverOverwrites(SerialStep(m, blocks[0]), blocks[1..])
  }

  lemma {:induction false} SerialRunEdges(m: Machine, blocks: seq<Block>)
    requires SerialInv(m)
    ensures OnlyEdges(m, blocks) <==> NeverOverwrites(m, blocks)
    decreases |blocks|
  {
    hide SerialInv;
    hide SerialStep;
    if blocks != [] {
      forall e | 0 <= e < |m.world.executions|
        ensures KeepsTable(m.world, SerialStep(m, blocks[0]).world, e) <==> !Overwrites(m, blocks[0], e)
      {
        SerialEdges(m, blocks[0], e);
      }
      SerialStepKeeps(m, blocks[0]);
      SerialRunEdges(SerialStep(m, blocks[0]), blocks[1..]);
    }
  }

  predicate CancelsObey(m: Machine, blocks: seq<Block>)
    decreases |blocks|
  {
    blocks != [] ==> CancelsUnengaged(m, blocks[0]) && CancelsObey(SerialStep(m, blocks[0]), blocks[1..])
  }

  lemma {:induction false} ObeyingNeverOverwrites(m: Machine, blocks: seq<Block>)
    requires SerialInv(m) && Current(m) && CancelsObey(m, blocks)
    ensures NeverOverwrites(m, blocks)
    decreases |blocks|
  {
    hide SerialInv;
    hide SerialStep;
    if blocks != [] {
      SerialStepKeeps(m, blocks[0]);
      StepKeepsCurrent(m, blocks[0]);
      ObeyingNeverOverwrites(SerialStep(m, blocks[0]), blocks[1..]);
    }
  }

  /** Over a whole serial run from an empty store the documented state machine holds exactly when the engine
      never writes over a cancel; and it never does if each cancel call is for an execution that the engine
      is neither working on nor has listed as pending. */
  lemma {:induction false} SerialRunsKeepTheTable(blocks: seq<Block>)
    ensures OnlyEdges(INITIAL, blocks) <==> NeverOverwrites(INITIAL, blocks)
    ensures CancelsObey(INITIAL, blocks) ==> OnlyEdges(INITIAL, blocks)
  {
    SerialRunEdges(INITIAL, blocks);
    if CancelsObey(INITIAL, blocks) {
      ObeyingNeverOverwrites(INITIAL, blocks);
    }
  }

  // ---- no vacuous success ----

  /** Create, Update, Activate and Archive calls run between the engine's passes. */
  predicate ChangesBetweenPasses(m: Machine, b: Block) {
    b.Call? && (b.request.CreateCall? || b.request.ChangeCall?) ==> m.pc.Idle?
  }

  predicate SnapshotsCurrent(w: World, snapshots: seq<Workflow>) {
    forall k :: 0 <= k < |snapshots| ==> snapshots[k].id < |w.workflows| && snapshots[k] == w.workflows[snapshots[k].id]
  }

  predicate FreshSnapshots(m: Machine) {
    && (m.pc.Listing? ==> SnapshotsCurrent(m.world, m.pc.rest))
    && (m.pc.HasJob() ==> SnapshotsCurrent(m.world, [m.pc.job.workflow] + m.pc.job.rest))
    && (forall e :: 0 <= e < |m.world.executions| ==>
          && m.world.executions[e].workflowId < |m.world.workflows|
          && m.world.workflows[m.world.executions[e].workflowId].status != Draft)
    && (forall e :: 0 <= e < |m.world.logs| && m.world.logs[e].entries != [] ==> |m.world.logs[e].entries[0].steps| > 0)
  }

  lemma {:induction false} DispatchFresh(w: World, workflow: Workflow, queue: seq<Execution>, rest: seq<Workflow>)
    requires SnapshotsCurrent(w, [workflow] + rest)
    ensures var pc := NextDispatch(workflow, queue, rest);
            && (pc.Listing? ==> SnapshotsCurrent(w, pc.rest))
            && (pc.HasJob() ==> SnapshotsCurrent(w, [pc.job.workflow] + pc.job.rest))
    decreases |queue|
  {
    assert forall k :: 0 <= k < |rest| ==> rest[k] == ([workflow] + rest)[k + 1];
    if queue != [] && queue[0].status != ExecPending { DispatchFresh(w, workflow, queue[1..], rest); }
  }

  lemma {:induction false} WorkKeepsFresh(m: Machine, c: Choice)
    requires SerialInv(m) && FreshSnapshots(m)
    ensures FreshSnapshots(EngineStep(m, c))
  {
    var w := m.world;
    EngineLeavesCalls(m, c);
    if m.pc.Idle? {
      WindowOk(w.workflows, WORKFLOW_WINDOW);
    } else if m.pc.Listing? {
      if m.pc.rest != [] {
        var rest := m.pc.rest;
        assert [rest[0]] + rest[1..] == rest;
        DispatchFresh(w, rest[0], NewestExecutions(w.executions, rest[0].id, EXECUTION_WINDOW), rest[1..]);
      }
    } else {
      JobKeepsFresh(m, c);
    }
  }

  lemma {:induction false} JobKeepsFresh(m: Machine, c: Choice)
    requires SerialInv(m) && FreshSnapshots(m) && m.pc.HasJob()
    ensures FreshSnapshots(EngineStep(m, c))
  {
    hide FocusOk;
    hide JobStep;
    var w, job := m.world, m.pc.job;
    EngineLeavesCalls(m, c);
    JobTouches(w, m.pc, c);
    DispatchFresh(w, job.workflow, job.queue, job.rest);
    assert ([job.workflow] + job.rest)[0] == job.workflow;
    assert ExecutionOk(w, job.execution.id) && Runnable(w.workflows[job.workflow.id]);
    JobEntry(w, m.pc, c);
  }

  /** The only entry a job step can add is its own workflow snapshot, on an execution that has none. */
  lemma {:induction false} JobEntry(w: World, pc: Pc, c: Choice)
    requires pc.HasJob() && HasExecution(w, pc.job.execution.id) && FocusOk(w, pc)
    requires |w.executions| == |w.stepRows| == |w.logs|
    ensures var m', e := JobStep(w, pc, c), pc.job.execution.id;
            && HasExecution(m'.world, e) && m'.world.executions[e].workflowId == w.executions[e].workflowId
            && (m'.world.logs[e].entries == w.logs[e].entries || m'.world.logs[e].entries == [pc.job.workflow])
            && (m'.pc == Resume(pc.job)
                || (m'.pc.HasJob() && m'.pc.job.workflow == pc.job.workflow && m'.pc.job.rest == pc.job.rest))
  {
  }

  lemma {:induction false} ChangeKeepsFresh(m: Machine, r: Request)
    requires SerialInv(m) && FreshSnapshots(m) && m.pc.Idle? && (r.CreateCall? || r.ChangeCall?)
    ensures FreshSnapshots(SerialStep(m, Call(r)))
  {
    HalvesMakeTheWhole(m.world, r);
    forall k | 0 <= k < |m.world.workflows|
      ensures Stage(m.world.workflows[k].status) <= Stage(WholeCall(m.world, r).workflows[k].status)
    {
      SerialStepAges(m, Call(r), k);
    }
  }

  lemma {:induction false} TriggerKeepsFresh(m: Machine, r: Request)
    requires SerialInv(m) && FreshSnapshots(m) && r.TriggerCall?
    ensures FreshSnapshots(m.(world := WholeCall(m.world, r)))
  {
    var w, w' := m.world, WholeCall(m.world, r);
    TriggerLeavesWorkflows(w, r);
    forall e | 0 <= e < |w'.executions|
      ensures w'.executions[e].workflowId < |w'.workflows| && w'.workflows[w'.executions[e].workflowId].status != Draft
    {
      if e < |w.executions| {
        assert w'.executions[e] == w.executions[e];
      } else {
        assert w.workflows[r.workflowId].id == r.workflowId;
      }
    }
  }

  lemma {:induction false} CallKeepsFresh(m: Machine, r: Request)
    requires SerialInv(m) && FreshSnapshots(m) && ChangesBetweenPasses(m, Call(r))
    ensures FreshSnapshots(SerialStep(m, Call(r)))
  {
    if r.CreateCall? || r.ChangeCall? {
      ChangeKeepsFresh(m, r);
    } else {
      HalvesMakeTheWhole(m.world, r);
      if r.TriggerCall? { TriggerKeepsFresh(m, r); }
    }
  }

  predicate Obeys(m: Machine, blocks: seq<Block>)
    decreases |blocks|
  {
    blocks != [] ==> ChangesBetweenPasses(m, blocks[0]) && Obeys(SerialStep(m, blocks[0]), blocks[1..])
  }

  lemma {:induction false} SerialRunFresh(m: Machine, blocks: seq<Block>)
    requires SerialInv(m) && FreshSnapshots(m) && Obeys(m, blocks)
    ensures SerialInv(SerialRun(m, blocks)) && FreshSnapshots(SerialRun(m, blocks))
    decreases |blocks|
  {
    if blocks != [] {
      SerialStepKeeps(m, blocks[0]);
      if blocks[0].Work? { WorkKeepsFresh(m, blocks[0].choice); } else { CallKeepsFresh(m, blocks[0].request); }
      SerialRunFresh(SerialStep(m, blocks[0]), blocks[1..]);
    }
  }

  /** If service calls run whole and workflows change only between passes, an execution stored as Succeeded
      has a succeeded step row: success is never vacuous. */
  lemma {:induction false} NoVacuousSuccess(blocks: seq<Block>, e: nat)
    requires Obeys(INITIAL, blocks)
    requires e < |SerialRun(INITIAL, blocks).world.executions|
    requires SerialRun(INITIAL, blocks).world.executions[e].status == ExecSucceeded
    ensures var w := SerialRun(INITIAL, blocks).world;
            && e < |w.stepRows|
            && exists r :: 0 <= r < |w.stepRows[e]| && w.stepRows[e][r].status == StepSucceeded
  {
    SerialRunFresh(INITIAL, blocks);
    SuccessRows(SerialRun(INITIAL, blocks), e);
  }

  // ---- the condition on passes is needed ----

  predicate IsSerialRun(m: Machine, blocks: seq<Block>) {
    SerialRun(INITIAL, blocks) == m
  }

  ghost predicate SerialReachable(m: Machine) {
    exists blocks :: IsSerialRun(m, blocks)
  }

  lemma {:induction false} SerialRunKeeps(m: Machine, blocks: seq<Block>)
    requires SerialInv(m)
    ensures SerialInv(SerialRun(m, blocks))
    decreases |blocks|
  {
    hide SerialInv;
    if blocks != [] {
      SerialStepKeeps(m, blocks[0]);
      SerialRunKeeps(SerialStep(m, blocks[0]), blocks[1..]);
    }
  }

  lemma {:induction false} ReachedSerially(m: Machine)
    requires SerialReachable(m)
    ensures SerialInv(m)
  {
    var blocks :| IsSerialRun(m, blocks);
    SerialRunKeeps(INITIAL, blocks);
  }

  lemma {:induction false} StoreIsSound(m: Machine)
    requires SerialReachable(m)
    ensures m.world.calls == map[] && StoreOk(m.world)
  {
    ReachedSerially(m);
  }

  lemma {:induction false} SerialAppend(m: Machine, blocks: seq<Block>, b: Block)
    ensures SerialRun(m, blocks + [b]) == SerialStep(SerialRun(m, blocks), b)
    decreases |blocks|
  {
    if blocks == [] {
      assert [b][1..] == [];
    } else {
      assert (blocks + [b])[1..] == blocks[1..] + [b];
      SerialAppend(SerialStep(m, blocks[0]), blocks[1..], b);
    }
  }

  lemma {:induction false} Next(m: Machine, b: Block) returns (m': Machine)
    requires SerialReachable(m)
    ensures m' == SerialStep(m, b) && SerialReachable(m')
  {
    m' := SerialStep(m, b);
    var blocks :| IsSerialRun(m, blocks);
    SerialAppend(INITIAL, blocks, b);
    assert IsSerialRun(m', blocks + [b]);
  }

  /** A whole call on a machine without calls under way. */
  lemma {:induction false} NextCall(m: Machine, r: Request) returns (m': Machine)
    requires SerialReachable(m) && m.world.calls == map[] && StoreOk(m.world)
    ensures m' == Machine(WholeCall(m.world, r), m.pc) && SerialReachable(m')
  {
    HalvesMakeTheWhole(m.world, r);
    m' := Next(m, Call(r));
  }

  /** The engine's pass has listed the workflow as an empty draft; then it gets its step and is activated. */
  lemma {:induction false} ToStaleListing(step: StepDefinition) returns (m: Machine)
    ensures SerialReachable(m)
    ensures m.world == World([Workflow(0, "w", "", [step], Active)], [], [], 0, map[], [])
    ensures m.pc == Listing([Workflow(0, "w", "", [], Draft)])
  {
    var empty := Workflow(0, "w", "", [], Draft);
    m := ToEmptyListing();
    m := NextCall(m, ChangeCall(0, Modify(None, None, [step]), None));
    assert m.world == World([empty.(steps := [step])], [], [], 0, map[], []);
    m := NextCall(m, ChangeCall(0, Activate, None));
  }

  lemma {:induction false} ToEmptyListing() returns (m: Machine)
    ensures SerialReachable(m)
    ensures m.world == World([Workflow(0, "w", "", [], Draft)], [], [], 0, map[], [])
    ensures m.pc == Listing([Workflow(0, "w", "", [], Draft)])
  {
    assert IsSerialRun(INITIAL, []);
    m := NextCall(INITIAL, CreateCall("w", "", []));
    PassBegins(m, Workflow(0, "w", "", [], Draft));
    m := Next(m, Work(GO.choice));
  }

  lemma {:induction false} PassBegins(m: Machine, wf: Workflow)
    requires m.pc.Idle? && m.world.workflows == [wf]
    ensures EngineStep(m, GO.choice) == Machine(m.world, Listing([wf]))
  {
    assert NewestWorkflows([wf], WORKFLOW_WINDOW) == [wf] by { assert [wf][..0] == []; }
  }

  lemma {:induction false} OnlyOneListed(m: Machine, wf: Workflow, x: Execution)
    requires m.pc == Listing([wf]) && m.world.executions == [x] && x.workflowId == wf.id && x.status == ExecPending
    ensures EngineStep(m, GO.choice) == Machine(m.world, Starting(Job(wf, x, [], [])))
  {
    assert [x][1..] == [] && [wf][1..] == [];
    assert NewestExecutions([x], wf.id, EXECUTION_WINDOW) == [x] by { assert [x][..0] == []; }
  }

  /** The whole Trigger call of a one-step workflow on a store without executions. */
  lemma {:induction false} TriggersOne(active: Workflow, step: StepDefinition)
    requires active.id == 0 && active.status == Active && active.steps == [step]
    ensures WholeCall(World([active], [], [], 0, map[], []), TriggerCall(0, None, 1))
         == World([active], [Execution(0, 0, ExecPending, Some(0), None, Blank)],
                  [[NewStepRow(0, step, StepPending, ByTrigger(0))]], 0, map[], [ExecLog(active, [], [], [])])
  {
    var w := Inserted(World([active], [], [], 0, map[], []), active);
    var w' := AddStepRow(w, NewStepRow(0, step, StepPending, ByTrigger(0)));
    assert InsertRows(w, active, 0, 0, 1) == InsertRows(w', active, 0, 1, 0) == w';
    var row := NewStepRow(0, step, StepPending, ByTrigger(0));
    assert w.stepRows[0] + [row] == [row];
  }

  /** It is triggered, and the engine is about to start the execution with the stale, empty step list. */
  lemma {:induction false} ToStaleStart(step: StepDefinition) returns (m: Machine)
    ensures SerialReachable(m)
    ensures var empty, active := Workflow(0, "w", "", [], Draft), Workflow(0, "w", "", [step], Active);
            var x := Execution(0, 0, ExecPending, Some(0), None, Blank);
            && m.pc == Starting(Job(empty, x, [], []))
            && m.world == World([active], [x], [[NewStepRow(0, step, StepPending, ByTrigger(0))]], 0, map[],
                [ExecLog(active, [], [], [])])
  {
    var empty, active := Workflow(0, "w", "", [], Draft), Workflow(0, "w", "", [step], Active);
    m := ToStaleListing(step);
    TriggersOne(active, step);
    m := NextCall(m, TriggerCall(0, None, 1));
    OnlyOneListed(m, empty, Execution(0, 0, ExecPending, Some(0), None, Blank));
    m := Next(m, Work(GO.choice));
  }

  /** Without the condition on passes success can be vacuous: the execution ends Succeeded, its workflow has
      a step, and not one of its step rows is succeeded. */
  lemma {:induction false} StaleSnapshotSucceeds(step: StepDefinition) returns (m: Machine)
    ensures SerialReachable(m) && HasExecution(m.world, 0)
    ensures m.world.executions[0].status == ExecSucceeded
    ensures |m.world.workflows| == 1 && m.world.workflows[0].status == Active && m.world.workflows[0].steps == [step]
    ensures forall r :: 0 <= r < |m.world.stepRows[0]| ==> m.world.stepRows[0][r].status != StepSucceeded
  {
    m := ToStaleStart(step);
    m := Next(m, Work(GO.choice));
    m := Next(m, Work(GO.choice));
    m := Next(m, Work(GO.choice));
  }

  /** A whole cancel call is written over too, when it is for an execution the engine has listed. */
  lemma {:induction false} WholeCancelOverwritten(step: StepDefinition) returns (m: Machine)
    ensures SerialReachable(m) && Overwrites(m, Work(GO.choice), 0)
    ensures !KeepsTable(m.world, SerialStep(m, Work(GO.choice)).world, 0)
  {
    hide SerialStep;
    hide SerialInv;
    m := ToStaleStart(step);
    StoreIsSound(m);
    m := NextCall(m, CancelCall(0, None));
    ReachedSerially(m);
    SerialEdges(m, Work(GO.choice), 0);
  }
}
