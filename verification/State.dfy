/** The stored tables and what each repository call does to them (package db).

    Every table is a sequence in creation order and a row's id is its position, so an id handed out by
    Create is always fresh. Step rows are grouped by their execution_id column: the id of a step row is
    the pair of its execution and its position there. */
module State {
  import opened Domain

  /** A service call between two of its repository calls. */
  datatype Call =
    | Canceling(execution: nat)
    | Triggering(workflow: Workflow, startedAt: nat)
    | Inserting(workflow: Workflow, execution: nat, next: nat)
    | Saving(workflow: Workflow)

  /** One call of the runner: for which position, with which definition, with which result. */
  datatype Run = Run(index: nat, step: StepDefinition, result: RunnerResult)

  /** Events of one execution whose order matters for cancellation. */
  datatype Mark = Opened | CancelLanded | Fetched(index: nat) | Closed

  /** Bookkeeping about one execution: the workflow snapshot its Trigger call used, the snapshots with
      which the engine entered its step loop, the runner calls in order, and the marks in order. */
  datatype ExecLog = ExecLog(trigger: Workflow, entries: seq<Workflow>, runs: seq<Run>, trace: seq<Mark>)

  datatype World = World(
    workflows: seq<Workflow>,
    executions: seq<Execution>,
    stepRows: seq<seq<StepRow>>,
    clock: nat,
    calls: map<nat, Call>,
    logs: seq<ExecLog>)

  const EMPTY_WORLD := World([], [], [], 0, map[], [])

  /** The error of a repository call: an injected fault, or no such row. A call that errs has no effect. */
  function Refusal(fault: Option<string>, found: bool): Option<string> {
    if fault.Some? then fault else if found then None else Some("not found")
  }

  predicate HasExecution(w: World, e: nat) {
    e < |w.executions| && e < |w.stepRows| && e < |w.logs|
  }

  predicate HasRow(w: World, e: nat, r: nat) {
    HasExecution(w, e) && r < |w.stepRows[e]|
  }

  // ---- executions ----

  /** What Trigger inserts; the id is the caller's, and Create replaces it. */
  function PendingExecution(workflow: Workflow, startedAt: nat): Execution {
    Execution(0, workflow.id, ExecPending, Some(startedAt), None, Blank)
  }

  /** Create: the caller's row under a fresh id. `workflow` goes to the log. */
  function InsertExecution(w: World, x: Execution, workflow: Workflow): World {
    w.(executions := w.executions + [x.(id := |w.executions|)],
       stepRows := w.stepRows + [[]],
       logs := w.logs + [ExecLog(workflow, [], [], [])])
  }

  function SetExecutionStatus(w: World, e: nat, status: ExecutionStatus): World
    requires HasExecution(w, e)
  {
    w.(executions := w.executions[e := w.executions[e].(status := status)])
  }

  /** The full-row Update: every column but the id and the workflow id. */
  function SaveExecution(w: World, x: Execution): World
    requires HasExecution(w, x.id)
  {
    w.(executions := w.executions[x.id :=
      w.executions[x.id].(status := x.status, startedAt := x.startedAt, finishedAt := x.finishedAt, error := x.error)])
  }

  /** Newest first, at most `limit` rows of one workflow. */
  function NewestExecutions(rows: seq<Execution>, workflowId: nat, limit: nat): seq<Execution> {
    if rows == [] || limit == 0 then []
    else
      var last := rows[|rows| - 1];
      var older := rows[..|rows| - 1];
      if last.workflowId == workflowId then [last] + NewestExecutions(older, workflowId, limit - 1)
      else NewestExecutions(older, workflowId, limit)
  }

  // ---- step rows ----

  function NewStepRow(e: nat, step: StepDefinition, status: StepStatus, author: Author): StepRow {
    StepRow(e, step.name, status, None, None, None, Blank, author)
  }

  function AddStepRow(w: World, row: StepRow): World
    requires HasExecution(w, row.executionId)
  {
    w.(stepRows := w.stepRows[row.executionId := w.stepRows[row.executionId] + [row]])
  }

  /** Status-only update; the exit code is written only when one is given. */
  function SetStepStatus(w: World, e: nat, r: nat, status: StepStatus, exitCode: Option<int>): World
    requires HasRow(w, e, r)
  {
    var was := w.stepRows[e][r];
    var row := if exitCode.Some? then was.(status := status, exitCode := exitCode) else was.(status := status);
    w.(stepRows := w.stepRows[e := w.stepRows[e][r := row]])
  }

  // ---- workflows ----

  /** Create: the caller's row under a fresh id. */
  function InsertWorkflow(w: World, wf: Workflow): World {
    w.(workflows := w.workflows + [wf.(id := |w.workflows|)])
  }

  function SaveWorkflow(w: World, wf: Workflow): World
    requires wf.id < |w.workflows|
  {
    w.(workflows := w.workflows[wf.id := wf])
  }

  /** Newest first, at most `limit` rows. */
  function NewestWorkflows(rows: seq<Workflow>, limit: nat): seq<Workflow> {
    if rows == [] || limit == 0 then []
    else [rows[|rows| - 1]] + NewestWorkflows(rows[..|rows| - 1], limit - 1)
  }

  // ---- bookkeeping ----

  function NoteMark(w: World, e: nat, mark: Mark): World
    requires HasExecution(w, e)
  {
    w.(logs := w.logs[e := w.logs[e].(trace := w.logs[e].trace + [mark])])
  }

  function NoteEntry(w: World, e: nat, workflow: Workflow): World
    requires HasExecution(w, e)
  {
    var log := w.logs[e];
    w.(logs := w.logs[e := log.(entries := log.entries + [workflow], trace := log.trace + [Opened])])
  }

  function NoteRun(w: World, e: nat, run: Run): World
    requires HasExecution(w, e)
  {
    w.(logs := w.logs[e := w.logs[e].(runs := w.logs[e].runs + [run])])
  }

  // ---- the two kinds of step row ----

  /** The rows the engine inserted, in creation order. */
  function EngineRows(rows: seq<StepRow>): seq<StepRow> {
    if rows == [] then []
    else
      var last := rows[|rows| - 1];
      EngineRows(rows[..|rows| - 1]) + (if last.author.ByEngine? then [last] else [])
  }

  /** The rows Trigger inserted, in creation order. */
  function TriggerRows(rows: seq<StepRow>): seq<StepRow> {
    if rows == [] then []
    else
      var last := rows[|rows| - 1];
      TriggerRows(rows[..|rows| - 1]) + (if last.author.ByTrigger? then [last] else [])
  }

  lemma {:induction false} AppendRow(rows: seq<StepRow>, row: StepRow)
    ensures EngineRows(rows + [row]) == EngineRows(rows) + (if row.author.ByEngine? then [row] else [])
    ensures TriggerRows(rows + [row]) == TriggerRows(rows) + (if row.author.ByTrigger? then [row] else [])
  {
    assert (rows + [row])[..|rows|] == rows;
  }

  /** `r` is the position of the last row the engine inserted. */
  predicate IsLastEngineRow(rows: seq<StepRow>, r: nat) {
    r < |rows| && rows[r].author.ByEngine? && forall q :: r < q < |rows| ==> rows[q].author.ByTrigger?
  }

  /** Writing the engine's last row changes the last element of its rows and none of Trigger's. */
  lemma {:induction false} UpdateLastRow(rows: seq<StepRow>, r: nat, row: StepRow)
    requires IsLastEngineRow(rows, r) && row.author.ByEngine?
    ensures var rs := EngineRows(rows);
            rs != [] && rs[|rs| - 1] == rows[r] && EngineRows(rows[r := row]) == rs[..|rs| - 1] + [row]
    ensures TriggerRows(rows[r := row]) == TriggerRows(rows)
    ensures IsLastEngineRow(rows[r := row], r)
  {
    var n := |rows| - 1;
    var older := rows[..n];
    var rows' := rows[r := row];
    if r == n {
      assert rows'[..n] == older;
    } else {
      UpdateLastRow(older, r, row);
      assert rows'[..n] == older[r := row] && rows'[n] == rows[n];
    }
  }

  lemma {:induction false} RowsPartition(rows: seq<StepRow>)
    ensures |rows| == |EngineRows(rows)| + |TriggerRows(rows)|
  {
    if rows != [] {
      RowsPartition(rows[..|rows| - 1]);
    }
  }
}
