/** What the invariant means for every run of the system from an empty store: dispatch at most once,
    the statuses an execution can take, the rows it leaves, and what is final. */
module Guarantees {
  import opened Domain
  import opened State
  import opened Environment
  import opened Machine
  import opened Safety

  /** The state after any interleaving from an empty store. */
  function Reached(actions: seq<Action>): (m: Machine)
    ensures Inv(m)
  {
    ExecuteKeepsInv(INITIAL, actions);
    Execute(INITIAL, actions)
  }

  lemma {:induction false} StoredExecution(m: Machine, e: nat)
    requires Inv(m) && e < |m.world.executions|
    ensures ExecutionOk(m.world, e)
    ensures m.pc.Focus() != Some(e) ==> Resting(m.world, e)
    ensures m.pc.Focus() == Some(e) ==> m.pc.job.execution.id == e && FocusOk(m.world, m.pc)
  {
  }

  /** A step of a job leaves every other execution alone. */
  lemma {:induction false} JobTouches(w: World, pc: Pc, c: Choice)
    requires pc.HasJob() && |w.executions| == |w.stepRows| == |w.logs|
    ensures Touches(w, JobStep(w, pc, c).world, pc.job.execution.id)
  {
  }

  lemma {:induction false} EngineTouches(m: Machine, c: Choice, e: nat)
    requires Inv(m) && e < |m.world.executions| && m.pc.Focus() != Some(e)
    ensures var w, w' := m.world, EngineStep(m, c).world;
            && HasExecution(w', e)
            && w'.executions[e] == w.executions[e] && w'.stepRows[e] == w.stepRows[e] && w'.logs[e] == w.logs[e]
  {
    if m.pc.HasJob() { JobTouches(m.world, m.pc, c); }
  }

  /** Duplicate-run protection: an execution enters the step loop at most once, and the runner is called
      at most once per step, in step order, only for steps of the workflow it entered with, each time with
      that step's own definition, and never after a call that reported an error or a non-zero exit code. */
  lemma {:induction false} AtMostOnceDispatch(actions: seq<Action>, e: nat)
    requires e < |Reached(actions).world.executions|
    ensures var entries, runs := Reached(actions).world.logs[e].entries, Reached(actions).world.logs[e].runs;
            && |entries| <= 1
            && (runs != [] ==> |entries| == 1 && |runs| <= |entries[0].steps|)
            && (forall q :: 0 <= q < |runs| ==> runs[q].index == q && runs[q].step == entries[0].steps[q])
            && (forall q :: 0 <= q < |runs| - 1 ==> runs[q].result.error == None && runs[q].result.exitCode == 0)
  {
    StoredExecution(Reached(actions), e);
  }

  /** The logs are histories: no step rewrites what they say. */
  lemma {:induction false} LogsOnlyGrow(m: Machine, a: Action, e: nat)
    requires Inv(m) && e < |m.world.executions|
    ensures e < |Step(m, a).world.executions| && e < |Step(m, a).world.logs|
    ensures LogGrows(m.world.logs[e], Step(m, a).world.logs[e])
  {
    StoredExecution(m, e);
    match a
    case Env(x) =>
      EnvStepEffect(m.world, x);
      assert SameButCanceled(m.world, EnvStep(m.world, x), e);
    case Engine(c) =>
      if m.pc.Focus() == Some(e) { FocusLogGrows(m.world, m.pc, c); } else { EngineTouches(m, c, e); }
  }

  predicate LogGrows(log: ExecLog, log': ExecLog) {
    && log'.trigger == log.trigger
    && log.entries <= log'.entries && log.runs <= log'.runs && log.trace <= log'.trace
  }

  lemma {:induction false} FocusLogGrows(w: World, pc: Pc, c: Choice)
    requires pc.HasJob() && HasExecution(w, pc.job.execution.id) && |w.executions| == |w.stepRows| == |w.logs|
    ensures HasExecution(JobStep(w, pc, c).world, pc.job.execution.id)
    ensures LogGrows(w.logs[pc.job.execution.id], JobStep(w, pc, c).world.logs[pc.job.execution.id])
  {
  }

  // ---- columns ----

  /** What the columns of a stored execution say together, whatever interleaved. */
  lemma {:induction false} RecordAgreement(actions: seq<Action>, e: nat)
    requires e < |Reached(actions).world.executions|
    ensures var x := Reached(actions).world.executions[e];
            && (Terminal(x.status) ==>
                  x.startedAt.Some? && x.finishedAt.Some? && x.startedAt.value <= x.finishedAt.value)
            && (x.status == ExecFailed ==> x.error != Blank)
            && (x.status == ExecSucceeded ==> x.error == Blank)
            && (x.status == ExecPending ==> x.error == Blank && Reached(actions).world.logs[e].runs == [])
  {
    StoredExecution(Reached(actions), e);
  }

  // ---- step rows ----

  /** How many succeeded rows a list of the engine's rows starts with. */
  function Lead(rows: seq<StepRow>): nat {
    if rows != [] && rows[0].status == StepSucceeded then 1 + Lead(rows[1..]) else 0
  }

  lemma {:induction false} LeadIsPrefix(rows: seq<StepRow>)
    ensures Lead(rows) <= |rows|
    ensures forall q :: 0 <= q < Lead(rows) ==> rows[q].status == StepSucceeded
    ensures Lead(rows) < |rows| ==> rows[Lead(rows)].status != StepSucceeded
  {
    if rows != [] && rows[0].status == StepSucceeded {
      LeadIsPrefix(rows[1..]);
      assert forall q :: 0 < q < |rows| ==> rows[q] == rows[1..][q - 1];
    }
  }

  /** Some succeeded rows of the first steps, then at most one row in another state, then only skipped rows. */
  predicate EngineRowShape(wf: Workflow, e: nat, rows: seq<StepRow>, k: nat) {
    && k <= |wf.steps| && k <= |rows|
    && rows[..k] == SucceededRows(wf, e, k)
    && (forall q :: k <= q < |rows| ==>
          && rows[q].status != StepSucceeded
          && rows[q].author.ByEngine? && k <= rows[q].author.index < |wf.steps|
          && rows[q].stepName == wf.steps[rows[q].author.index].name)
    && (forall q :: k < q < |rows| ==> rows[q].status == StepSkipped)
    && (forall p, q :: 0 <= p < q < |rows| ==> rows[p].author.index < rows[q].author.index)
  }

  lemma {:induction false} ShapeAsList(wf: Workflow, e: nat, rows: seq<StepRow>)
    requires Shape(wf, rows, |wf.steps|)
    requires forall q :: 0 <= q < |rows| ==> rows[q].executionId == e && StepRowOk(rows[q])
    ensures EngineRowShape(wf, e, rows, Lead(rows))
  {
    var k := Lead(rows);
    LeadIsPrefix(rows);
    IndexAtLeast(wf, rows, |rows|);
    assert k > 0 ==> rows[k - 1].author.index == k - 1;
    assert rows[..k] == SucceededRows(wf, e, k);
  }

  /** Under any faults the engine's rows of an execution, in creation order, are the succeeded rows of the
      first k steps, then at most one row in some other state, then only skipped rows for later steps. */
  lemma {:induction false} RowShape(actions: seq<Action>, e: nat)
    requires e < |Reached(actions).world.executions| && Reached(actions).world.logs[e].entries != []
    ensures var w := Reached(actions).world;
            var rows := EngineRows(w.stepRows[e]);
            EngineRowShape(w.logs[e].entries[0], e, rows, Lead(rows))
  {
    var m := Reached(actions);
    var w := m.world;
    var rows := EngineRows(w.stepRows[e]);
    StoredExecution(m, e);
    FocusShape(m, e);
    EngineRowsMembers(w.stepRows[e]);
    forall q | 0 <= q < |rows| ensures rows[q].executionId == e && StepRowOk(rows[q]) {
      assert rows[q] in w.stepRows[e];
    }
    ShapeAsList(w.logs[e].entries[0], e, rows);
  }

  lemma {:induction false} IndexAtLeast(wf: Workflow, rows: seq<StepRow>, k: nat)
    requires Shape(wf, rows, |wf.steps|) && k <= |rows|
    ensures forall q :: 0 <= q < k ==> q <= rows[q].author.index
  {
    if k != 0 {
      IndexAtLeast(wf, rows, k - 1);
      if k > 1 { assert rows[k - 2].author.index < rows[k - 1].author.index; }
    }
  }

  lemma {:induction false} FocusShape(m: Machine, e: nat)
    requires Inv(m) && e < |m.world.executions| && m.world.logs[e].entries != []
    ensures Shape(m.world.logs[e].entries[0], EngineRows(m.world.stepRows[e]), |m.world.logs[e].entries[0].steps|)
  {
    hide Shape;
    StoredExecution(m, e);
    if m.pc.Focus() == Some(e) { FocusShapeAt(m.world, m.pc); }
  }

  lemma {:induction false} FocusShapeAt(w: World, pc: Pc)
    requires pc.HasJob() && HasExecution(w, pc.job.execution.id) && FocusOk(w, pc)
    requires w.logs[pc.job.execution.id].entries != []
    ensures var e := pc.job.execution.id;
            && w.logs[e].entries[0] == pc.job.workflow
            && Shape(pc.job.workflow, EngineRows(w.stepRows[e]), |pc.job.workflow.steps|)
  {
    hide Shape;
    var e, wf := pc.job.execution.id, pc.job.workflow;
    var rows := EngineRows(w.stepRows[e]);
    if pc.Launching? {
      AtRowShape(w, e, wf, pc.i, pc.row, StepPending);
    } else if pc.Executing? || pc.Recording? {
      AtRowShape(w, e, wf, pc.i, pc.row, StepRunning);
    } else if pc.Checking? || pc.Creating? {
      ProgressStopped(w, e, wf, pc.i);
      ShapeGrows(wf, rows, pc.i);
    } else if pc.Skipping? {
      ShapeGrows(wf, rows, pc.i);
    } else if pc.Confirming? {
      ShapeGrows(wf, rows, pc.i + 1);
    }
  }

  lemma {:induction false} ShapeGrows(wf: Workflow, rows: seq<StepRow>, bound: nat)
    requires Shape(wf, rows, bound)
    ensures Shape(wf, rows, |wf.steps|)
  {
  }

  lemma {:induction false} AtRowShape(w: World, e: nat, wf: Workflow, i: nat, r: nat, status: StepStatus)
    requires AtRow(w, e, wf, i, r, status)
    ensures Shape(wf, EngineRows(w.stepRows[e]), |wf.steps|)
  {
    hide Shape;
    ExtendedShape(wf, e, i, RowOf(wf, e, i, status, None));
    ShapeGrows(wf, EngineRows(w.stepRows[e]), i + 1);
  }

  lemma {:induction false} EngineRowsMembers(rows: seq<StepRow>)
    ensures forall x :: x in EngineRows(rows) <==> x in rows && x.author.ByEngine?
  {
    if rows != [] {
      var older, last := rows[..|rows| - 1], rows[|rows| - 1];
      EngineRowsMembers(older);
      assert rows == older + [last];
    }
  }

  /** A stored step row has an exit code exactly when it succeeded or failed, a succeeded row's is 0, and
      the times and the error the engine computes for it never reach the table. */
  lemma {:induction false} StepRowColumns(actions: seq<Action>, e: nat, r: nat)
    requires e < |Reached(actions).world.executions| && r < |Reached(actions).world.stepRows[e]|
    ensures var row := Reached(actions).world.stepRows[e][r];
            && (row.exitCode.Some? <==> row.status == StepSucceeded || row.status == StepFailed)
            && (row.status == StepSucceeded ==> row.exitCode == Some(0))
            && row.startedAt == None && row.finishedAt == None && row.error == Blank
            && (row.author.ByTrigger? ==> row.status == StepPending)
  {
    StoredExecution(Reached(actions), e);
  }

  /** Every step row stays in place, and its status only stays or takes an edge of the step table. */
  lemma {:induction false} StepRowEdges(actions: seq<Action>, a: Action, e: nat, r: nat)
    requires e < |Reached(actions).world.executions| && r < |Reached(actions).world.stepRows[e]|
    ensures var w, w' := Reached(actions).world, Step(Reached(actions), a).world;
            && HasRow(w', e, r)
            && StepEdge(w.stepRows[e][r].status, w'.stepRows[e][r].status)
            && w'.stepRows[e][r].stepName == w.stepRows[e][r].stepName
  {
    var m := Reached(actions);
    match a
    case Engine(c) => EngineRowEdges(m, c, e, r);
    case Env(x) => EnvStepEffect(m.world, x);
  }

  /** The row the engine is about to write is in the state the phase says. */
  lemma {:induction false} TopRowStatus(w: World, e: nat, wf: Workflow, i: nat, r: nat, status: StepStatus)
    requires AtRow(w, e, wf, i, r, status)
    ensures w.stepRows[e][r] == RowOf(wf, e, i, status, None)
  {
    UpdateLastRow(w.stepRows[e], r, w.stepRows[e][r]);
  }

  /** Both worlds have the row, the status of one leads to that of the other, and it is for the same step. */
  predicate RowMoves(w: World, w': World, e: nat, r: nat) {
    && HasRow(w, e, r) && HasRow(w', e, r)
    && StepEdge(w.stepRows[e][r].status, w'.stepRows[e][r].status)
    && w'.stepRows[e][r].stepName == w.stepRows[e][r].stepName
  }

  lemma {:induction false} EngineRowEdges(m: Machine, c: Choice, e: nat, r: nat)
    requires Inv(m) && e < |m.world.executions| && r < |m.world.stepRows[e]|
    ensures RowMoves(m.world, EngineStep(m, c).world, e, r)
  {
    hide FocusOk;
    hide JobStep;
    StoredExecution(m, e);
    if m.pc.Focus() != Some(e) {
      EngineTouches(m, c, e);
    } else if m.pc.Confirming? {
      ConfirmingKeeps(m, c);
    } else if m.pc.Launching? || m.pc.Recording? {
      RowWriteEdges(m.world, m.pc, c, r);
    } else {
      RowsStay(m.world, m.pc, c);
    }
  }

  lemma {:induction false} RowWriteEdges(w: World, pc: Pc, c: Choice, r: nat)
    requires (pc.Launching? || pc.Recording?) && FocusOk(w, pc) && HasRow(w, pc.job.execution.id, r)
    ensures RowMoves(w, JobStep(w, pc, c).world, pc.job.execution.id, r)
  {
    var status := if pc.Launching? then StepPending else StepRunning;
    TopRowStatus(w, pc.job.execution.id, pc.job.workflow, pc.i, pc.row, status);
  }

  lemma {:induction false} RowsStay(w: World, pc: Pc, c: Choice)
    requires pc.HasJob() && !pc.Launching? && !pc.Recording? && !pc.Confirming? && HasExecution(w, pc.job.execution.id)
    ensures HasExecution(JobStep(w, pc, c).world, pc.job.execution.id)
    ensures w.stepRows[pc.job.execution.id] <= JobStep(w, pc, c).world.stepRows[pc.job.execution.id]
  {
  }

  // ---- success and failure ----

  /** Calls of the runner for the first steps of `wf`, in order, once each, with the step's own definition, and
      each came back without an error and with exit code 0. */
  predicate RanWell(wf: Workflow, runs: seq<Run>) {
    && |runs| <= |wf.steps|
    && forall q :: 0 <= q < |runs| ==>
         && runs[q].index == q && runs[q].step == wf.steps[q]
         && runs[q].result.error == None && runs[q].result.exitCode == 0
  }

  /** The engine left a succeeded row, with exit code 0, for each of the first `k` steps and nothing else. */
  predicate OnlySucceeded(wf: Workflow, e: nat, rows: seq<StepRow>, k: nat) {
    && |rows| == k <= |wf.steps|
    && forall i :: 0 <= i < k ==>
         rows[i] == StepRow(e, wf.steps[i].name, StepSucceeded, None, None, Some(0), Blank, ByEngine(i))
  }

  /** One succeeded row and one good runner call for each step the engine entered with; some step row of the
      execution has succeeded exactly when there are any. */
  predicate SucceededWith(w: World, e: nat) {
    && HasExecution(w, e) && |w.logs[e].entries| == 1
    && var wf, runs := w.logs[e].entries[0], w.logs[e].runs;
    && OnlySucceeded(wf, e, EngineRows(w.stepRows[e]), |wf.steps|)
    && |runs| == |wf.steps| && RanWell(wf, runs)
    && ((exists r :: 0 <= r < |w.stepRows[e]| && w.stepRows[e][r].status == StepSucceeded) <==> |wf.steps| > 0)
  }

  lemma {:induction false} SuccessRows(m: Machine, e: nat)
    requires Inv(m) && e < |m.world.executions| && m.world.executions[e].status == ExecSucceeded
    ensures SucceededWith(m.world, e)
  {
    StoredExecution(m, e);
    SuccessAtRest(m.world, e);
  }

  lemma {:induction false} SuccessAtRest(w: World, e: nat)
    requires ExecutionOk(w, e) && Resting(w, e) && w.executions[e].status == ExecSucceeded
    ensures SucceededWith(w, e)
  {
    hide Shape;
    var wf, rows := w.logs[e].entries[0], w.stepRows[e];
    EngineRowsMembers(rows);
    if |wf.steps| > 0 {
      var x := SucceededRows(wf, e, |wf.steps|)[0];
      assert x in EngineRows(rows) && x.status == StepSucceeded;
    }
    forall r | 0 <= r < |rows| && rows[r].status == StepSucceeded ensures |wf.steps| > 0 {
      assert StepRowOk(rows[r]) && rows[r] in EngineRows(rows);
    }
  }

  /** A stored success has one succeeded row per step of the workflow snapshot the engine used, each run once
      without an error and with exit code 0. So it is vacuous exactly when that snapshot had no steps. */
  lemma {:induction false} SuccessMeansEveryStep(actions: seq<Action>, e: nat)
    requires e < |Reached(actions).world.executions|
    requires Reached(actions).world.executions[e].status == ExecSucceeded
    ensures SucceededWith(Reached(actions).world, e)
  {
    SuccessRows(Reached(actions), e);
  }

  /** A stored failure says where the run stopped, under any faults: its error column names the step whose call
      came back bad, with the exit code and the reason reported, or tells which write was refused; and that
      agrees with the runner calls and with the rows that are left. */
  lemma {:induction false} FailureNamesTheStep(actions: seq<Action>, e: nat)
    requires e < |Reached(actions).world.executions|
    requires Reached(actions).world.executions[e].status == ExecFailed
    ensures var w := Reached(actions).world;
            && |w.logs[e].entries| == 1
            && FailureText(w.logs[e].entries[0], w.logs[e].runs, EngineRows(w.stepRows[e]), w.executions[e].error)
  {
    StoredExecution(Reached(actions), e);
  }

  // ---- what is final ----

  /** The engine has dealt with `e`, or passed it by, and is not about to work on it. */
  predicate Settled(m: Machine, e: nat) {
    && HasExecution(m.world, e)
    && m.world.executions[e].status != ExecPending
    && m.pc.Focus() != Some(e)
    && (m.pc.HasJob() ==> forall k :: 0 <= k < |m.pc.job.queue| && m.pc.job.queue[k].id == e ==>
        m.pc.job.queue[k].status != ExecPending)
  }

  lemma {:induction false} DispatchSettles(
      w: World, workflow: Workflow, queue: seq<Execution>, rest: seq<Workflow>, e: nat)
    requires HasExecution(w, e) && w.executions[e].status != ExecPending
    requires forall k :: 0 <= k < |queue| && queue[k].id == e ==> queue[k].status != ExecPending
    ensures Settled(Machine(w, NextDispatch(workflow, queue, rest)), e)
    decreases |queue|
  {
    if queue != [] {
      assert forall k :: 0 <= k < |queue[1..]| ==> queue[1..][k] == queue[k + 1];
      if queue[0].status != ExecPending { DispatchSettles(w, workflow, queue[1..], rest, e); }
    }
  }

  /** What a step may do to a settled execution: nothing but overwrite its status with canceled. */
  predicate Untouched(w: World, w': World, e: nat)
    requires HasExecution(w, e)
  {
    && HasExecution(w', e)
    && (w'.executions[e] == w.executions[e] || w'.executions[e] == w.executions[e].(status := ExecCanceled))
    && w'.logs[e].runs == w.logs[e].runs && w'.logs[e].entries == w.logs[e].entries
    && EngineRows(w'.stepRows[e]) == EngineRows(w.stepRows[e])
  }

  lemma {:induction false} SettledEngineStep(m: Machine, c: Choice, e: nat)
    requires Inv(m) && Settled(m, e)
    ensures Settled(EngineStep(m, c), e) && Untouched(m.world, EngineStep(m, c).world, e)
  {
    var w, pc, m' := m.world, m.pc, EngineStep(m, c);
    EngineTouches(m, c, e);
    if pc.Listing? && pc.rest != [] {
      var queue := NewestExecutions(w.executions, pc.rest[0].id, EXECUTION_WINDOW);
      forall k | 0 <= k < |w.executions| ensures w.executions[k].id == k { assert ExecutionOk(w, k); }
      ListingOk(w.executions, pc.rest[0].id, EXECUTION_WINDOW);
      DispatchSettles(m'.world, pc.rest[0], queue, pc.rest[1..], e);
    } else if pc.HasJob() {
      DispatchSettles(m'.world, pc.job.workflow, pc.job.queue, pc.job.rest, e);
      NextPcs(m, c);
    }
  }

  /** A job step stays with its job or lets it go. */
  lemma {:induction false} NextPcs(m: Machine, c: Choice)
    requires m.pc.HasJob()
    ensures var pc' := EngineStep(m, c).pc;
            || pc' == Resume(m.pc.job)
            || (&& pc'.HasJob() && pc'.job.execution.id == m.pc.job.execution.id
                && pc'.job.workflow == m.pc.job.workflow
                && pc'.job.queue == m.pc.job.queue && pc'.job.rest == m.pc.job.rest)
  {
  }

  lemma {:induction false} SettledStep(m: Machine, a: Action, e: nat)
    requires Inv(m) && Settled(m, e)
    ensures Settled(Step(m, a), e) && Untouched(m.world, Step(m, a).world, e)
  {
    match a
    case Env(x) =>
      EnvStepEffect(m.world, x);
      assert SameButCanceled(m.world, EnvStep(m.world, x), e);
    case Engine(c) => SettledEngineStep(m, c, e);
  }

  /** Once settled, always settled: from then on the engine writes neither the row nor a step row nor calls
      the runner for it, and the only thing that can still change is that a cancel call overwrites the status.
      In particular an execution the engine dropped after an error stays as it is: nothing retries it. */
  lemma {:induction false} SettledForGood(m: Machine, actions: seq<Action>, e: nat)
    requires Inv(m) && Settled(m, e)
    ensures Settled(Execute(m, actions), e) && Untouched(m.world, Execute(m, actions).world, e)
    decreases |actions|
  {
    if actions != [] {
      SettledStep(m, actions[0], e);
      StepKeepsInv(m, actions[0]);
      SettledForGood(Step(m, actions[0]), actions[1..], e);
    }
  }
}
