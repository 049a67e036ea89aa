/** What every reachable state satisfies, under any interleaving of the engine with the services, any
    repository faults, any runner results and any cancellation of the engine's context. */
module Safety {
  import opened Domain
  import opened State
  import opened Environment
  import opened Machine

  // ---- rows and logs of one execution ----

  /** The engine's row for step `i` in a given state. */
  function RowOf(wf: Workflow, e: nat, i: nat, status: StepStatus, exitCode: Option<int>): StepRow
    requires i < |wf.steps|
  {
    StepRow(e, wf.steps[i].name, status, None, None, exitCode, Blank, ByEngine(i))
  }

  /** The engine's rows after the first `k` steps succeeded. */
  function SucceededRows(wf: Workflow, e: nat, k: nat): seq<StepRow>
    requires k <= |wf.steps|
  {
    seq(k, i requires 0 <= i < k => RowOf(wf, e, i, StepSucceeded, Some(0)))
  }

  /** The engine never got as far as its step loop. */
  predicate Fresh(w: World, e: nat) {
    HasExecution(w, e) && w.logs[e].entries == [] && w.logs[e].runs == [] && EngineRows(w.stepRows[e]) == []
  }

  /** The runner was called for steps 0, 1, 2, ... once each, and never after a bad result. */
  predicate OrderlyRuns(runs: seq<Run>) {
    && (forall q :: 0 <= q < |runs| ==> runs[q].index == q)
    && (forall q :: 0 <= q < |runs| - 1 ==> Good(runs[q].result))
  }

  predicate AllGood(runs: seq<Run>) {
    OrderlyRuns(runs) && forall q :: 0 <= q < |runs| ==> Good(runs[q].result)
  }

  /** Each call of the runner was given the definition of its step. */
  predicate RanSteps(wf: Workflow, runs: seq<Run>) {
    |runs| <= |wf.steps| && forall q :: 0 <= q < |runs| ==> runs[q].step == wf.steps[q]
  }

  /** What the text of a failure says about the runner calls and the engine's rows. A broken step is the one
      whose call was the last and came back bad, with that call's exit code and reason, and its row is Failed
      unless that write was refused. Otherwise no call came back bad, and the text tells which write was refused
      by what it leaves: no row for the next step but a skipped one, that step's row still Pending, or the row
      of the last step called still Running. */
  predicate FailureText(wf: Workflow, runs: seq<Run>, rows: seq<StepRow>, text: ErrorText) {
    var m := |runs|;
    var broken := m > 0 && (runs[m - 1].result.error.Some? || runs[m - 1].result.exitCode != 0);
    match text
    case Blank => false
    case CreateFailed(_) => !broken && m < |wf.steps| && forall q :: m <= q < |rows| ==> rows[q].status == StepSkipped
    case LaunchFailed(_) => !broken && RowIs(rows, m, {StepPending})
    case RecordFailed(_) => !broken && m > 0 && RowIs(rows, m - 1, {StepRunning})
    case StepBroken(step, exitCode, reason) =>
      && broken && m <= |wf.steps|
      && step == wf.steps[m - 1].name
      && exitCode == runs[m - 1].result.exitCode && reason == runs[m - 1].result.error
      && RowIs(rows, m - 1, {StepFailed, StepRunning})
      && (rows[m - 1].status == StepFailed ==> rows[m - 1].exitCode == Some(exitCode))
  }

  predicate Explains(w: World, e: nat, wf: Workflow, text: ErrorText)
    requires HasExecution(w, e)
  {
    FailureText(wf, w.logs[e].runs, EngineRows(w.stepRows[e]), text)
  }

  /** Row `i` is for step `i` and in one of the given states. */
  predicate RowIs(rows: seq<StepRow>, i: nat, states: set<StepStatus>) {
    i < |rows| && rows[i].author == ByEngine(i) && rows[i].status in states
  }

  /** Rows for strictly increasing steps below `bound`, named after them: some succeeded rows for the first
      steps, then at most one row in another state, then only skipped rows. */
  predicate Shape(wf: Workflow, rows: seq<StepRow>, bound: nat) {
    && bound <= |wf.steps|
    && (forall q :: 0 <= q < |rows| ==>
          && rows[q].author.ByEngine? && rows[q].author.index < bound
          && rows[q].stepName == wf.steps[rows[q].author.index].name)
    && (forall p, q :: 0 <= p < q < |rows| ==> rows[p].author.index < rows[q].author.index)
    && (forall p, q :: 0 <= p < q < |rows| && rows[p].status != StepSucceeded ==> rows[q].status == StepSkipped)
    && (forall q :: 0 <= q < |rows| && rows[q].status == StepSucceeded ==> rows[q].author.index == q)
  }

  /** Inside the step loop with `k` steps done. */
  predicate Progress(w: World, e: nat, wf: Workflow, k: nat) {
    && HasExecution(w, e)
    && k <= |wf.steps|
    && w.logs[e].entries == [wf]
    && EngineRows(w.stepRows[e]) == SucceededRows(wf, e, k)
    && AllGood(w.logs[e].runs) && |w.logs[e].runs| == k && RanSteps(wf, w.logs[e].runs)
  }

  /** Inside the step loop at step `i`, whose row is the engine's last and in the given state. */
  predicate AtRow(w: World, e: nat, wf: Workflow, i: nat, r: nat, status: StepStatus) {
    && HasExecution(w, e)
    && i < |wf.steps|
    && w.logs[e].entries == [wf]
    && IsLastEngineRow(w.stepRows[e], r)
    && EngineRows(w.stepRows[e]) == SucceededRows(wf, e, i) + [RowOf(wf, e, i, status, None)]
    && RanSteps(wf, w.logs[e].runs)
  }

  /** Past the loop: what is left of an engine run that stopped before step `bound`. */
  predicate Stopped(w: World, e: nat, wf: Workflow, bound: nat) {
    && HasExecution(w, e)
    && w.logs[e].entries == [wf]
    && Shape(wf, EngineRows(w.stepRows[e]), bound)
    && OrderlyRuns(w.logs[e].runs) && RanSteps(wf, w.logs[e].runs)
  }

  // ---- invariant ----

  predicate Terminal(status: ExecutionStatus) {
    status == ExecSucceeded || status == ExecFailed
  }

  /** What a stored execution's columns say together. */
  predicate RecordOk(x: Execution) {
    && (Terminal(x.status) ==> x.startedAt.Some? && x.finishedAt.Some? && x.startedAt.value <= x.finishedAt.value)
    && (x.status == ExecFailed ==> x.error != Blank)
    && (x.status == ExecSucceeded ==> x.error == Blank)
  }

  predicate StepRowOk(row: StepRow) {
    && (row.exitCode.Some? <==> row.status == StepSucceeded || row.status == StepFailed)
    && (row.status == StepSucceeded ==> row.exitCode == Some(0))
    && row.startedAt == None && row.finishedAt == None && row.error == Blank
    && (row.author.ByTrigger? ==> row.status == StepPending)
  }

  predicate ExecutionOk(w: World, e: nat) {
    && HasExecution(w, e)
    && w.executions[e].id == e
    && w.executions[e].workflowId < |w.workflows|
    && RecordOk(w.executions[e])
    && (w.executions[e].status == ExecPending ==> Fresh(w, e) && w.executions[e].error == Blank)
    && (forall r :: 0 <= r < |w.stepRows[e]| ==> w.stepRows[e][r].executionId == e && StepRowOk(w.stepRows[e][r]))
  }

  /** No engine run of `e` is under way. */
  predicate Resting(w: World, e: nat) {
    && HasExecution(w, e)
    && (w.logs[e].entries == [] ==> Fresh(w, e) && !Terminal(w.executions[e].status))
    && (w.logs[e].entries != [] ==>
          var wf := w.logs[e].entries[0];
          && w.executions[e].status != ExecPending
          && Stopped(w, e, wf, |wf.steps|)
          && (w.executions[e].status == ExecSucceeded ==> Progress(w, e, wf, |wf.steps|))
          && (w.executions[e].status == ExecFailed ==> Explains(w, e, wf, w.executions[e].error)))
  }

  /** Listed as pending and not yet dispatched: only a cancel may have happened to it since. */
  predicate Waiting(w: World, x: Execution) {
    && Fresh(w, x.id)
    && (w.executions[x.id].status == ExecPending || w.executions[x.id].status == ExecCanceled)
    && x.status == ExecPending && x.error == Blank
  }

  predicate RestOk(w: World, rest: seq<Workflow>) {
    && (forall k :: 0 <= k < |rest| ==> rest[k].id < |w.workflows|)
    && (forall j, k :: 0 <= j < k < |rest| ==> rest[j].id != rest[k].id)
  }

  predicate QueueOk(w: World, queue: seq<Execution>, workflowId: nat) {
    && (forall k :: 0 <= k < |queue| ==>
          && HasExecution(w, queue[k].id)
          && w.executions[queue[k].id].workflowId == workflowId
          && (queue[k].status == ExecPending ==> Waiting(w, queue[k])))
    && (forall j, k :: 0 <= j < k < |queue| ==> queue[j].id != queue[k].id)
  }

  predicate JobOk(w: World, job: Job) {
    && job.workflow.id < |w.workflows|
    && HasExecution(w, job.execution.id)
    && w.executions[job.execution.id].workflowId == job.workflow.id
    && RestOk(w, job.rest)
    && (forall k :: 0 <= k < |job.rest| ==> job.rest[k].id != job.workflow.id)
    && QueueOk(w, job.queue, job.workflow.id)
    && (forall k :: 0 <= k < |job.queue| ==> job.queue[k].id != job.execution.id)
  }

  predicate PcOk(w: World, pc: Pc) {
    match pc
    case Idle => true
    case Listing(rest) => RestOk(w, rest)
    case _ => JobOk(w, pc.job)
  }

  /** The engine holds the row: it was set Running and only a cancel may have happened to it since. */
  predicate Held(w: World, job: Job) {
    && HasExecution(w, job.execution.id)
    && (w.executions[job.execution.id].status == ExecRunning || w.executions[job.execution.id].status == ExecCanceled)
    && job.execution.startedAt.Some? && job.execution.startedAt.value <= w.clock
  }

  predicate Underway(w: World, job: Job) {
    Held(w, job) && job.execution.status == ExecRunning && job.execution.error == Blank
  }

  /** A step error has its text; a cancel that was read is still in the row. */
  predicate WhyOk(w: World, e: nat, wf: Workflow, why: Why)
    requires HasExecution(w, e)
  {
    if why.StepError? then Explains(w, e, wf, why.error) else w.executions[e].status == ExecCanceled
  }

  predicate FocusOk(w: World, pc: Pc)
    requires pc.HasJob()
  {
    var job := pc.job;
    var e := job.execution.id;
    var wf := job.workflow;
    match pc
    case Starting(_) => Waiting(w, job.execution)
    case Marking(_) => Underway(w, job) && Fresh(w, e)
    case Checking(_, i) => Underway(w, job) && i < |wf.steps| && Progress(w, e, wf, i)
    case Creating(_, i) => Underway(w, job) && i < |wf.steps| && Progress(w, e, wf, i)
    case Launching(_, i, r) =>
      Underway(w, job) && AtRow(w, e, wf, i, r, StepPending) && AllGood(w.logs[e].runs) && |w.logs[e].runs| == i
    case Executing(_, i, r) =>
      Underway(w, job) && AtRow(w, e, wf, i, r, StepRunning) && AllGood(w.logs[e].runs) && |w.logs[e].runs| == i
    case Recording(_, i, r, result) =>
      && Underway(w, job) && AtRow(w, e, wf, i, r, StepRunning)
      && OrderlyRuns(w.logs[e].runs) && |w.logs[e].runs| == i + 1 && w.logs[e].runs[i].result == result
    case Skipping(_, i, why) =>
      Underway(w, job) && i < |wf.steps| && Stopped(w, e, wf, i) && WhyOk(w, e, wf, why)
    case Confirming(_, i, r, why) =>
      && Underway(w, job) && i < |wf.steps| && Stopped(w, e, wf, i + 1) && WhyOk(w, e, wf, why)
      && IsLastEngineRow(w.stepRows[e], r) && w.stepRows[e][r].status == StepSkipped
    case Finishing(_) =>
      && Held(w, job) && Terminal(job.execution.status) && RecordOk(job.execution)
      && Stopped(w, e, wf, |wf.steps|)
      && (job.execution.status == ExecSucceeded ==> Progress(w, e, wf, |wf.steps|))
      && (job.execution.status == ExecFailed ==> Explains(w, e, wf, job.execution.error))
  }

  predicate CallOk(w: World, call: Call) {
    match call
    case Canceling(e) => HasExecution(w, e)
    case Triggering(wf, _) => wf.id < |w.workflows|
    case Inserting(_, e, _) => HasExecution(w, e)
    case Saving(wf) => wf.id < |w.workflows|
  }

  predicate StoreOk(w: World) {
    && |w.executions| == |w.stepRows| == |w.logs|
    && (forall k :: 0 <= k < |w.workflows| ==> w.workflows[k].id == k)
    && (forall e :: 0 <= e < |w.executions| ==> ExecutionOk(w, e))
    && (forall c :: c in w.calls ==> CallOk(w, w.calls[c]))
  }

  predicate OthersRest(w: World, focus: Option<nat>) {
    forall e :: 0 <= e < |w.executions| && focus != Some(e) ==> Resting(w, e)
  }

  predicate Inv(m: Machine) {
    && StoreOk(m.world)
    && PcOk(m.world, m.pc)
    && (m.pc.HasJob() ==> FocusOk(m.world, m.pc))
    && OthersRest(m.world, m.pc.Focus())
  }

  // ---- the surroundings keep the invariant ----

  /** What the services can do to an execution the store already has: cancel it and add Trigger's rows. */
  predicate SameButCanceled(w: World, w': World, e: nat) {
    && HasExecution(w, e) && HasExecution(w', e)
    && (w'.executions[e] == w.executions[e] || w'.executions[e] == w.executions[e].(status := ExecCanceled))
    && w'.logs[e].entries == w.logs[e].entries && w'.logs[e].runs == w.logs[e].runs
    && EngineRows(w'.stepRows[e]) == EngineRows(w.stepRows[e])
    && |w.stepRows[e]| <= |w'.stepRows[e]|
    && (forall r :: 0 <= r < |w.stepRows[e]| ==> w'.stepRows[e][r] == w.stepRows[e][r])
    && (forall r :: |w.stepRows[e]| <= r < |w'.stepRows[e]| ==> w'.stepRows[e][r].author.ByTrigger?)
  }

  predicate EnvEffect(w: World, w': World) {
    && |w.workflows| <= |w'.workflows|
    && |w.executions| <= |w'.executions|
    && w.clock <= w'.clock
    && (forall e :: 0 <= e < |w.executions| ==> SameButCanceled(w, w', e))
    && (forall e :: |w.executions| <= e < |w'.executions| ==> Resting(w', e))
  }

  /** A change of the calls, the clock and the workflows alone. */
  lemma {:induction false} NoExecutionTouched(w: World, w': World)
    requires StoreOk(w) && w'.executions == w.executions && w'.stepRows == w.stepRows && w'.logs == w.logs
    requires |w.workflows| <= |w'.workflows| && w.clock <= w'.clock
    requires forall k :: 0 <= k < |w'.workflows| ==> w'.workflows[k].id == k
    requires forall c :: c in w'.calls ==> CallOk(w', w'.calls[c])
    ensures StoreOk(w') && EnvEffect(w, w')
  {
    forall e | 0 <= e < |w.executions| ensures ExecutionOk(w', e) {
      assert ExecutionOk(w, e);
    }
  }

  lemma {:induction false} CancelEffect(w: World, e: nat, c: nat)
    requires StoreOk(w) && HasExecution(w, e)
    ensures var w' := Drop(NoteMark(SetExecutionStatus(w, e, ExecCanceled), e, CancelLanded), c);
            StoreOk(w') && EnvEffect(w, w')
  {
    var w' := Drop(NoteMark(SetExecutionStatus(w, e, ExecCanceled), e, CancelLanded), c);
    forall x | 0 <= x < |w.executions| ensures ExecutionOk(w', x) {
      assert ExecutionOk(w, x);
    }
    forall d | d in w'.calls ensures CallOk(w', w'.calls[d]) { assert CallOk(w, w.calls[d]); }
  }

  lemma {:induction false} InsertEffect(w: World, wf: Workflow, startedAt: nat, c: nat)
    requires StoreOk(w) && wf.id < |w.workflows|
    ensures var inserted := InsertExecution(w, PendingExecution(wf, startedAt), wf);
            var w' := Hold(inserted, c, Inserting(wf, |w.executions|, 0));
            StoreOk(w') && EnvEffect(w, w')
  {
    var w' := Hold(InsertExecution(w, PendingExecution(wf, startedAt), wf), c, Inserting(wf, |w.executions|, 0));
    forall x | 0 <= x < |w'.executions| ensures ExecutionOk(w', x) {
      if x < |w.executions| { assert ExecutionOk(w, x); }
    }
    forall d | d in w'.calls ensures CallOk(w', w'.calls[d]) {
      if d != c { assert CallOk(w, w.calls[d]); }
    }
  }

  /** One more of Trigger's rows. */
  lemma {:induction false} ExtraRow(w: World, row: StepRow)
    requires HasExecution(w, row.executionId) && ExecutionOk(w, row.executionId)
    requires row.author.ByTrigger? && StepRowOk(row)
    ensures ExecutionOk(AddStepRow(w, row), row.executionId)
    ensures SameButCanceled(w, AddStepRow(w, row), row.executionId)
  {
    AppendRow(w.stepRows[row.executionId], row);
  }

  lemma {:induction false} OtherRows(w: World, row: StepRow, x: nat)
    requires HasExecution(w, row.executionId) && x != row.executionId && ExecutionOk(w, x)
    ensures ExecutionOk(AddStepRow(w, row), x) && SameButCanceled(w, AddStepRow(w, row), x)
  {
  }

  lemma {:induction false} RowsEffect(w: World, row: StepRow)
    requires StoreOk(w) && HasExecution(w, row.executionId) && row.author.ByTrigger? && StepRowOk(row)
    ensures StoreOk(AddStepRow(w, row)) && EnvEffect(w, AddStepRow(w, row))
  {
    var w' := AddStepRow(w, row);
    forall x | 0 <= x < |w.executions| ensures ExecutionOk(w', x) && SameButCanceled(w, w', x) {
      assert ExecutionOk(w, x);
      if x == row.executionId { ExtraRow(w, row); } else { OtherRows(w, row, x); }
    }
    forall d | d in w'.calls ensures CallOk(w', w'.calls[d]) { assert CallOk(w, w.calls[d]); }
  }

  lemma {:induction false} HoldEffect(w: World, w': World, c: nat, held: Call)
    requires StoreOk(w') && EnvEffect(w, w') && CallOk(w', held)
    ensures StoreOk(Hold(w', c, held)) && EnvEffect(w, Hold(w', c, held))
  {
    var w'' := Hold(w', c, held);
    forall x | 0 <= x < |w'.executions| ensures ExecutionOk(w'', x) { assert ExecutionOk(w', x); }
    forall x | 0 <= x < |w.executions| ensures SameButCanceled(w, w'', x) { assert SameButCanceled(w, w', x); }
    forall x | |w.executions| <= x < |w'.executions| ensures Resting(w'', x) { assert Resting(w', x); }
    forall d | d in w''.calls ensures CallOk(w'', w''.calls[d]) {
      if d != c { assert CallOk(w', w'.calls[d]); }
    }
  }

  lemma {:induction false} RowEffect(w: World, c: nat, wf: Workflow, e: nat, next: nat)
    requires StoreOk(w) && HasExecution(w, e) && next < |wf.steps|
    ensures var w' := AddStepRow(w, NewStepRow(e, wf.steps[next], StepPending, ByTrigger(next)));
            var held := Inserting(wf, e, next + 1);
            StoreOk(Hold(w', c, held)) && EnvEffect(w, Hold(w', c, held))
  {
    var row := NewStepRow(e, wf.steps[next], StepPending, ByTrigger(next));
    RowsEffect(w, row);
    HoldEffect(w, AddStepRow(w, row), c, Inserting(wf, e, next + 1));
  }

  /** The steps that leave executions and step rows alone. */
  lemma {:induction false} PlainEffect(w: World, a: EnvAction)
    requires StoreOk(w)
    requires var w' := EnvStep(w, a); w'.executions == w.executions && w'.stepRows == w.stepRows && w'.logs == w.logs
    ensures StoreOk(EnvStep(w, a)) && EnvEffect(w, EnvStep(w, a))
  {
    var w' := EnvStep(w, a);
    forall d | d in w'.calls ensures CallOk(w', w'.calls[d]) {
      if d in w.calls { assert CallOk(w, w.calls[d]); }
    }
    NoExecutionTouched(w, w');
  }

  lemma {:induction false} EnvStepEffect(w: World, a: EnvAction)
    requires StoreOk(w)
    ensures StoreOk(EnvStep(w, a)) && EnvEffect(w, EnvStep(w, a))
  {
    if (a.CancelWrite? || a.TriggerExecution? || a.TriggerStep?) && a.call in w.calls {
      WriteEffect(w, a);
    } else {
      PlainEffect(w, a);
    }
  }

  lemma {:induction false} WriteEffect(w: World, a: EnvAction)
    requires StoreOk(w) && (a.CancelWrite? || a.TriggerExecution? || a.TriggerStep?) && a.call in w.calls
    ensures StoreOk(EnvStep(w, a)) && EnvEffect(w, EnvStep(w, a))
  {
    var held := w.calls[a.call];
    assert CallOk(w, held);
    if a.CancelWrite? && held.Canceling? && a.fault.None? {
      CancelEffect(w, held.execution, a.call);
    } else if a.TriggerExecution? && held.Triggering? && a.fault.None? {
      InsertEffect(w, held.workflow, held.startedAt, a.call);
    } else if a.TriggerStep? && held.Inserting? && a.fault.None? && held.next < |held.workflow.steps| {
      RowEffect(w, a.call, held.workflow, held.execution, held.next);
    } else {
      PlainEffect(w, a);
    }
  }

  lemma {:induction false} JobStays(w: World, w': World, job: Job)
    requires JobOk(w, job) && EnvEffect(w, w') && StoreOk(w) && StoreOk(w')
    ensures JobOk(w', job)
  {
    assert SameButCanceled(w, w', job.execution.id);
    forall k | 0 <= k < |job.queue|
      ensures HasExecution(w', job.queue[k].id)
      ensures w'.executions[job.queue[k].id].workflowId == job.workflow.id
      ensures job.queue[k].status == ExecPending ==> Waiting(w', job.queue[k])
    {
      assert HasExecution(w, job.queue[k].id);
      assert SameButCanceled(w, w', job.queue[k].id);
    }
  }

  /** The engine's own rows stay last: later rows are Trigger's. */
  lemma {:induction false} LastRowStays(w: World, w': World, e: nat, r: nat)
    requires SameButCanceled(w, w', e) && IsLastEngineRow(w.stepRows[e], r)
    ensures IsLastEngineRow(w'.stepRows[e], r) && w'.stepRows[e][r] == w.stepRows[e][r]
  {
  }

  lemma {:induction false} FocusStays(w: World, w': World, pc: Pc)
    requires pc.HasJob() && JobOk(w, pc.job) && FocusOk(w, pc) && EnvEffect(w, w')
    ensures FocusOk(w', pc)
  {
    var e := pc.job.execution.id;
    assert SameButCanceled(w, w', e);
    if pc.Launching? || pc.Executing? || pc.Recording? || pc.Confirming? {
      LastRowStays(w, w', e, pc.row);
    }
  }

  lemma {:induction false} EnvKeepsInv(m: Machine, w': World)
    requires Inv(m) && StoreOk(w') && EnvEffect(m.world, w')
    ensures Inv(Machine(w', m.pc))
  {
    var w := m.world;
    forall e | 0 <= e < |w'.executions| && m.pc.Focus() != Some(e) ensures Resting(w', e) {
      if e < |w.executions| { assert Resting(w, e) && SameButCanceled(w, w', e); }
    }
    if m.pc.HasJob() {
      JobStays(w, w', m.pc.job);
      FocusStays(w, w', m.pc);
    }
  }

  // ---- the engine keeps the invariant ----

  /** An engine step touches one execution only. */
  predicate Touches(w: World, w': World, e: nat) {
    && w'.workflows == w.workflows && w'.clock == w.clock && w'.calls == w.calls
    && |w.executions| == |w.stepRows| == |w.logs| == |w'.executions| == |w'.stepRows| == |w'.logs|
    && (forall x :: 0 <= x < |w.executions| && x != e ==>
          w'.executions[x] == w.executions[x] && w'.stepRows[x] == w.stepRows[x] && w'.logs[x] == w.logs[x])
  }

  /** What stays true of everything but the execution in focus. */
  lemma {:induction false} FrameKeeps(w: World, w': World, job: Job)
    requires StoreOk(w) && JobOk(w, job) && OthersRest(w, Some(job.execution.id))
    requires Touches(w, w', job.execution.id) && ExecutionOk(w', job.execution.id)
    requires w'.executions[job.execution.id].workflowId == w.executions[job.execution.id].workflowId
    ensures StoreOk(w') && JobOk(w', job) && OthersRest(w', Some(job.execution.id))
  {
    var e := job.execution.id;
    forall x | 0 <= x < |w'.executions| ensures ExecutionOk(w', x) && (x != e ==> Resting(w', x)) {
      if x != e { assert ExecutionOk(w, x) && Resting(w, x); }
    }
    forall k | 0 <= k < |job.queue| && job.queue[k].status == ExecPending ensures Waiting(w', job.queue[k]) {
      assert Waiting(w, job.queue[k]) && job.queue[k].id != e;
    }
    forall c | c in w'.calls ensures CallOk(w', w'.calls[c]) { assert CallOk(w, w.calls[c]); }
  }

  lemma {:induction false} DispatchOk(w: World, workflow: Workflow, queue: seq<Execution>, rest: seq<Workflow>)
    requires StoreOk(w) && workflow.id < |w.workflows| && RestOk(w, rest) && QueueOk(w, queue, workflow.id)
    requires forall k :: 0 <= k < |rest| ==> rest[k].id != workflow.id
    requires OthersRest(w, None)
    ensures Inv(Machine(w, NextDispatch(workflow, queue, rest)))
    decreases |queue|
  {
    if queue != [] {
      var tail := queue[1..];
      assert forall k :: 0 <= k < |tail| ==> tail[k] == queue[k + 1];
      if queue[0].status != ExecPending {
        DispatchOk(w, workflow, tail, rest);
      }
    }
  }

  /** The engine lets go of its execution. */
  lemma {:induction false} ResumeOk(w: World, job: Job)
    requires StoreOk(w) && JobOk(w, job) && OthersRest(w, Some(job.execution.id)) && Resting(w, job.execution.id)
    ensures Inv(Machine(w, Resume(job)))
  {
    DispatchOk(w, job.workflow, job.queue, job.rest);
  }

  /** A listing is at most as long as asked for, holds rows of the workflow as they are stored, newest first. */
  lemma {:induction false} ListingOk(rows: seq<Execution>, workflowId: nat, limit: nat)
    requires forall k :: 0 <= k < |rows| ==> rows[k].id == k
    ensures var q := NewestExecutions(rows, workflowId, limit);
            && |q| <= limit
            && (forall k :: 0 <= k < |q| ==> q[k].id < |rows| && q[k] == rows[q[k].id] && q[k].workflowId == workflowId)
            && (forall j, k :: 0 <= j < k < |q| ==> q[k].id < q[j].id)
  {
    if rows != [] && limit != 0 {
      var older := rows[..|rows| - 1];
      if rows[|rows| - 1].workflowId == workflowId {
        ListingOk(older, workflowId, limit - 1);
      } else {
        ListingOk(older, workflowId, limit);
      }
    }
  }

  /** Likewise for workflows. */
  lemma {:induction false} WindowOk(rows: seq<Workflow>, limit: nat)
    requires forall k :: 0 <= k < |rows| ==> rows[k].id == k
    ensures var q := NewestWorkflows(rows, limit);
            && |q| <= limit
            && (forall k :: 0 <= k < |q| ==> q[k].id < |rows| && q[k] == rows[q[k].id])
            && (forall j, k :: 0 <= j < k < |q| ==> q[k].id < q[j].id)
  {
    if rows != [] && limit != 0 {
      WindowOk(rows[..|rows| - 1], limit - 1);
    }
  }

  lemma {:induction false} IdleKeeps(m: Machine, c: Choice)
    requires Inv(m) && !m.pc.HasJob()
    ensures Inv(EngineStep(m, c))
  {
    var w := m.world;
    if m.pc.Idle? {
      WindowOk(w.workflows, WORKFLOW_WINDOW);
    } else if m.pc.rest != [] {
      var rest := m.pc.rest;
      var queue := NewestExecutions(w.executions, rest[0].id, EXECUTION_WINDOW);
      forall e | 0 <= e < |w.executions| ensures w.executions[e].id == e { assert ExecutionOk(w, e); }
      ListingOk(w.executions, rest[0].id, EXECUTION_WINDOW);
      forall k | 0 <= k < |queue|
        ensures HasExecution(w, queue[k].id) && w.executions[queue[k].id].workflowId == rest[0].id
        ensures queue[k].status == ExecPending ==> Waiting(w, queue[k])
      {
        assert ExecutionOk(w, queue[k].id);
      }
      DispatchOk(w, rest[0], queue, rest[1..]);
    }
  }

  /** The parts of the invariant, put together around an execution in focus. */
  lemma {:induction false} FocusedInv(w: World, pc: Pc)
    requires pc.HasJob() && FocusOk(w, pc)
    requires StoreOk(w) && JobOk(w, pc.job) && OthersRest(w, Some(pc.job.execution.id))
    ensures Inv(Machine(w, pc))
  {
  }

  /** Reaching the loop head, with `k` steps done. */
  lemma {:induction false} LoopTopOk(w: World, job: Job, k: nat)
    requires StoreOk(w) && JobOk(w, job) && OthersRest(w, Some(job.execution.id))
    requires Underway(w, job) && Progress(w, job.execution.id, job.workflow, k)
    ensures Inv(Machine(w, LoopTop(w, job, k)))
  {
    ProgressStopped(w, job.execution.id, job.workflow, k);
    FocusedInv(w, LoopTop(w, job, k));
  }

  /** Reaching the head of skipRemainingSteps. */
  lemma {:induction false} SkipFromOk(w: World, job: Job, i: nat, why: Why)
    requires StoreOk(w) && JobOk(w, job) && OthersRest(w, Some(job.execution.id))
    requires Underway(w, job) && i <= |job.workflow.steps| && Stopped(w, job.execution.id, job.workflow, i)
    requires WhyOk(w, job.execution.id, job.workflow, why)
    ensures Inv(Machine(w, SkipFrom(w, job, i, why)))
  {
    if i == |job.workflow.steps| && why.CanceledOutside? {
      ResumeOk(w, job);
    }
  }

  lemma {:induction false} ProgressStopped(w: World, e: nat, wf: Workflow, k: nat)
    requires Progress(w, e, wf, k)
    ensures Stopped(w, e, wf, k)
  {
  }

  lemma {:induction false} StartingKeeps(m: Machine, c: Choice)
    requires Inv(m) && m.pc.Starting?
    ensures Inv(EngineStep(m, c))
  {
    var w, job := m.world, m.pc.job;
    var m' := EngineStep(m, c);
    assert ExecutionOk(w, job.execution.id);
    FrameKeeps(w, m'.world, job);
    if m'.world == w {
      ResumeOk(w, job);
    } else {
      FocusedInv(m'.world, m'.pc);
    }
  }

  lemma {:induction false} MarkingKeeps(m: Machine, c: Choice)
    requires Inv(m) && m.pc.Marking?
    ensures Inv(EngineStep(m, c))
  {
    var w, job := m.world, m.pc.job;
    var m' := EngineStep(m, c);
    assert ExecutionOk(w, job.execution.id);
    FrameKeeps(w, m'.world, job);
    if m'.world == w {
      ResumeOk(w, job);
    } else {
      LoopTopOk(m'.world, job, 0);
    }
  }

  lemma {:induction false} FinishingKeeps(m: Machine, c: Choice)
    requires Inv(m) && m.pc.Finishing?
    ensures Inv(EngineStep(m, c))
  {
    var w, job := m.world, m.pc.job;
    var m' := EngineStep(m, c);
    FinishingRests(w, job, m.world == m'.world);
    FrameKeeps(w, m'.world, job);
    ResumeOk(m'.world, job);
  }

  /** The final write, or its refusal, leaves the execution at rest. */
  lemma {:induction false} FinishingRests(w: World, job: Job, refused: bool)
    requires Inv(Machine(w, Finishing(job)))
    ensures HasExecution(w, job.execution.id)
    ensures var e := job.execution.id;
            var w' := if refused then w else NoteMark(SaveExecution(w, job.execution), e, Closed);
            Touches(w, w', e) && ExecutionOk(w', e) && Resting(w', e)
  {
    assert ExecutionOk(w, job.execution.id) && FocusOk(w, Finishing(job));
  }

  /** The context is canceled, or the read is refused. */
  lemma {:induction false} CheckingLetsGo(w: World, job: Job, i: nat, canceled: bool)
    requires Inv(Machine(w, Checking(job, i)))
    ensures HasExecution(w, job.execution.id)
    ensures var w' := if canceled then SetExecutionStatus(w, job.execution.id, ExecCanceled) else w;
            Inv(Machine(w', Resume(job)))
  {
    var e := job.execution.id;
    assert ExecutionOk(w, e) && FocusOk(w, Checking(job, i));
    var w' := if canceled then SetExecutionStatus(w, e, ExecCanceled) else w;
    FrameKeeps(w, w', job);
    ProgressStopped(w', e, job.workflow, i);
    ResumeOk(w', job);
  }

  lemma {:induction false} CheckingReads(w: World, job: Job, i: nat)
    requires Inv(Machine(w, Checking(job, i)))
    ensures HasExecution(w, job.execution.id)
    ensures var w' := NoteMark(w, job.execution.id, Fetched(i));
            if w.executions[job.execution.id].status == ExecCanceled
            then Inv(Machine(w', SkipFrom(w', job, i, CanceledOutside)))
            else Inv(Machine(w', Creating(job, i)))
  {
    var e := job.execution.id;
    assert ExecutionOk(w, e) && FocusOk(w, Checking(job, i));
    var w' := NoteMark(w, e, Fetched(i));
    FrameKeeps(w, w', job);
    if w.executions[e].status == ExecCanceled {
      ProgressStopped(w', e, job.workflow, i);
      SkipFromOk(w', job, i, CanceledOutside);
    } else {
      FocusedInv(w', Creating(job, i));
    }
  }

  lemma {:induction false} CheckingKeeps(m: Machine, c: Choice)
    requires Inv(m) && m.pc.Checking?
    ensures Inv(EngineStep(m, c))
  {
    hide Inv;
    CheckingLetsGo(m.world, m.pc.job, m.pc.i, c.ctxDone && c.fault.None?);
    CheckingReads(m.world, m.pc.job, m.pc.i);
  }

  /** The rows of `k` good steps and one more row have the shape. */
  lemma {:induction false} ExtendedShape(wf: Workflow, e: nat, k: nat, row: StepRow)
    requires k < |wf.steps|
    requires row.author == ByEngine(k) && row.stepName == wf.steps[k].name
    ensures Shape(wf, SucceededRows(wf, e, k) + [row], k + 1)
  {
  }

  lemma {:induction false} NextSucceeded(wf: Workflow, e: nat, k: nat)
    requires k < |wf.steps|
    ensures SucceededRows(wf, e, k + 1) == SucceededRows(wf, e, k) + [RowOf(wf, e, k, StepSucceeded, Some(0))]
  {
  }

  lemma {:induction false} CreatedRow(w: World, e: nat, wf: Workflow, i: nat)
    requires ExecutionOk(w, e) && Progress(w, e, wf, i) && i < |wf.steps| && w.executions[e].status != ExecPending
    requires |w.executions| == |w.stepRows| == |w.logs|
    ensures var w' := AddStepRow(w, NewStepRow(e, wf.steps[i], StepPending, ByEngine(i)));
            && Touches(w, w', e) && ExecutionOk(w', e)
            && AtRow(w', e, wf, i, |w.stepRows[e]|, StepPending)
  {
    EngineRowAdded(w, NewStepRow(e, wf.steps[i], StepPending, ByEngine(i)));
  }

  lemma {:induction false} CreatingKeeps(m: Machine, c: Choice)
    requires Inv(m) && m.pc.Creating?
    ensures Inv(EngineStep(m, c))
  {
    hide Shape;
    var w, job, i := m.world, m.pc.job, m.pc.i;
    var e, wf := job.execution.id, job.workflow;
    assert ExecutionOk(w, e);
    var refusal := Refusal(c.fault, HasExecution(w, e));
    if refusal.Some? {
      ProgressStopped(w, e, wf, i);
      SkipFromOk(w, job, i + 1, StepError(CreateFailed(refusal.value)));
    } else {
      var w' := AddStepRow(w, NewStepRow(e, wf.steps[i], StepPending, ByEngine(i)));
      CreatedRow(w, e, wf, i);
      FrameKeeps(w, w', job);
      FocusedInv(w', Launching(job, i, |w.stepRows[e]|));
    }
  }

  /** Overwriting the row of the current step. */
  lemma {:induction false} RowWrite(
      w: World, e: nat, wf: Workflow, i: nat, r: nat, status: StepStatus, status': StepStatus, code: Option<int>)
    requires AtRow(w, e, wf, i, r, status) && ExecutionOk(w, e)
    requires code.Some? <==> status' == StepSucceeded || status' == StepFailed
    requires status' == StepSucceeded ==> code == Some(0)
    ensures var w' := SetStepStatus(w, e, r, status', code);
            && Touches(w, w', e) == Touches(w, w, e) && ExecutionOk(w', e)
            && IsLastEngineRow(w'.stepRows[e], r)
            && EngineRows(w'.stepRows[e]) == SucceededRows(wf, e, i) + [RowOf(wf, e, i, status', code)]
  {
    var rows := w.stepRows[e];
    var w' := SetStepStatus(w, e, r, status', code);
    UpdateLastRow(rows, r, w'.stepRows[e][r]);
    var engine := EngineRows(rows);
    assert engine[..|engine| - 1] == SucceededRows(wf, e, i);
    assert rows[r] == RowOf(wf, e, i, status, None);
  }

  lemma {:induction false} LaunchingKeeps(m: Machine, c: Choice)
    requires Inv(m) && m.pc.Launching?
    ensures Inv(EngineStep(m, c))
  {
    hide Shape;
    var w, job, i, r := m.world, m.pc.job, m.pc.i, m.pc.row;
    var e, wf := job.execution.id, job.workflow;
    var m' := EngineStep(m, c);
    assert ExecutionOk(w, e);
    RowWrite(w, e, wf, i, r, StepPending, StepRunning, None);
    FrameKeeps(w, m'.world, job);
    var refused := Refusal(c.fault, HasRow(w, e, r));
    if refused.Some? {
      ExtendedShape(wf, e, i, RowOf(wf, e, i, StepPending, None));
      SkipFromOk(w, job, i + 1, StepError(LaunchFailed(refused.value)));
    }
  }

  /** The runner is called with the step of its index, and the call is logged. */
  lemma {:induction false} CallLogged(w: World, job: Job, i: nat, r: nat, result: RunnerResult)
    requires ExecutionOk(w, job.execution.id) && FocusOk(w, Executing(job, i, r))
    requires |w.executions| == |w.stepRows| == |w.logs|
    ensures i < |job.workflow.steps|
    ensures var w' := NoteRun(w, job.execution.id, Run(i, job.workflow.steps[i], result));
            && Touches(w, w', job.execution.id) && ExecutionOk(w', job.execution.id)
            && FocusOk(w', Recording(job, i, r, result))
  {
    hide Shape;
    hide EngineRows;
  }

  lemma {:induction false} ExecutingKeeps(m: Machine, c: Choice)
    requires Inv(m) && m.pc.Executing?
    ensures Inv(EngineStep(m, c))
  {
    hide FocusOk;
    hide ExecutionOk;
    var w, job, i := m.world, m.pc.job, m.pc.i;
    assert HasExecution(w, job.execution.id) && ExecutionOk(w, job.execution.id);
    CallLogged(w, job, i, m.pc.row, c.result);
    var w' := NoteRun(w, job.execution.id, Run(i, job.workflow.steps[i], c.result));
    FrameKeeps(w, w', job);
    FocusedInv(w', Recording(job, i, m.pc.row, c.result));
  }

  /** A bad call leaves its row failed, or running when that write is refused, and the rest agrees with it. */
  lemma {:induction false} BrokenStops(w: World, pc: Pc, refused: bool)
    requires pc.Recording? && !Good(pc.result) && FocusOk(w, pc) && ExecutionOk(w, pc.job.execution.id)
    requires |w.executions| == |w.stepRows| == |w.logs|
    ensures pc.i < |pc.job.workflow.steps| && HasRow(w, pc.job.execution.id, pc.row)
    ensures var e, wf, result := pc.job.execution.id, pc.job.workflow, pc.result;
            var w' := if refused then w else SetStepStatus(w, e, pc.row, StepFailed, Some(result.exitCode));
            && Touches(w, w', e) && ExecutionOk(w', e) && Underway(w', pc.job)
            && Stopped(w', e, wf, pc.i + 1) && Explains(w', e, wf, BrokenStep(wf.steps[pc.i], result))
  {
    hide Shape;
    var e, wf, i, result := pc.job.execution.id, pc.job.workflow, pc.i, pc.result;
    var w' := if refused then w else SetStepStatus(w, e, pc.row, StepFailed, Some(result.exitCode));
    ExtendedShape(wf, e, i, RowOf(wf, e, i, StepRunning, None));
    RowWrite(w, e, wf, i, pc.row, StepRunning, StepFailed, Some(result.exitCode));
    ExtendedShape(wf, e, i, RowOf(wf, e, i, StepFailed, Some(result.exitCode)));
    assert RowIs(EngineRows(w'.stepRows[e]), i, {StepFailed, StepRunning});
  }

  lemma {:induction false} BrokenKeeps(w: World, pc: Pc, c: Choice)
    requires Inv(Machine(w, pc)) && pc.Recording? && !Good(pc.result)
    ensures Inv(JobStep(w, pc, c))
  {
    hide FocusOk;
    hide ExecutionOk;
    hide Stopped;
    hide Explains;
    hide Resting;
    var job, i, result := pc.job, pc.i, pc.result;
    var e, wf := job.execution.id, job.workflow;
    var m' := JobStep(w, pc, c);
    BrokenStops(w, pc, m'.world == w);
    FrameKeeps(w, m'.world, job);
    SkipFromOk(m'.world, job, i + 1, StepError(BrokenStep(wf.steps[i], result)));
  }

  lemma {:induction false} SucceededKeeps(w: World, pc: Pc, c: Choice)
    requires Inv(Machine(w, pc)) && pc.Recording? && Good(pc.result)
    ensures Inv(JobStep(w, pc, c))
  {
    var job, i, r, result := pc.job, pc.i, pc.row, pc.result;
    var e, wf := job.execution.id, job.workflow;
    assert ExecutionOk(w, e);
    var refused := Refusal(c.fault, HasRow(w, e, r));
    if refused.Some? {
      ExtendedShape(wf, e, i, RowOf(wf, e, i, StepRunning, None));
      SkipFromOk(w, job, i + 1, StepError(RecordFailed(refused.value)));
    } else {
      var w' := SetStepStatus(w, e, r, StepSucceeded, Some(result.exitCode));
      RowWrite(w, e, wf, i, r, StepRunning, StepSucceeded, Some(result.exitCode));
      NextSucceeded(wf, e, i);
      FrameKeeps(w, w', job);
      LoopTopOk(w', job, i + 1);
    }
  }

  lemma {:induction false} RecordingKeeps(m: Machine, c: Choice)
    requires Inv(m) && m.pc.Recording?
    ensures Inv(EngineStep(m, c))
  {
    hide Inv;
    hide JobStep;
    if Good(m.pc.result) { SucceededKeeps(m.world, m.pc, c); } else { BrokenKeeps(m.world, m.pc, c); }
  }

  lemma {:induction false} SkippedShape(wf: Workflow, rows: seq<StepRow>, i: nat, row: StepRow)
    requires Shape(wf, rows, i) && i < |wf.steps|
    requires row.author == ByEngine(i) && row.stepName == wf.steps[i].name && row.status == StepSkipped
    ensures Shape(wf, rows + [row], i + 1)
  {
  }

  lemma {:induction false} SkippedExplains(wf: Workflow, runs: seq<Run>, rows: seq<StepRow>, row: StepRow)
    requires row.status == StepSkipped
    ensures forall text :: FailureText(wf, runs, rows, text) ==> FailureText(wf, runs, rows + [row], text)
  {
    forall i: nat, states | RowIs(rows, i, states) ensures RowIs(rows + [row], i, states) {
    }
  }

  /** One more row of the engine. */
  lemma {:induction false} EngineRowAdded(w: World, row: StepRow)
    requires ExecutionOk(w, row.executionId) && w.executions[row.executionId].status != ExecPending
    requires row.author.ByEngine? && StepRowOk(row) && |w.executions| == |w.stepRows| == |w.logs|
    ensures var w', e := AddStepRow(w, row), row.executionId;
            && Touches(w, w', e) && ExecutionOk(w', e)
            && EngineRows(w'.stepRows[e]) == EngineRows(w.stepRows[e]) + [row]
            && IsLastEngineRow(w'.stepRows[e], |w.stepRows[e]|) && w'.stepRows[e][|w.stepRows[e]|] == row
            && w'.logs[e] == w.logs[e] && w'.executions[e] == w.executions[e]
  {
    AppendRow(w.stepRows[row.executionId], row);
  }

  lemma {:induction false} SkippedRowAdded(w: World, e: nat, wf: Workflow, i: nat)
    requires ExecutionOk(w, e) && Stopped(w, e, wf, i) && i < |wf.steps| && w.executions[e].status != ExecPending
    requires |w.executions| == |w.stepRows| == |w.logs|
    ensures var w' := AddStepRow(w, NewStepRow(e, wf.steps[i], StepSkipped, ByEngine(i)));
            && Touches(w, w', e) && ExecutionOk(w', e) && Stopped(w', e, wf, i + 1)
            && IsLastEngineRow(w'.stepRows[e], |w.stepRows[e]|)
            && w'.stepRows[e][|w.stepRows[e]|].status == StepSkipped
            && (forall why :: WhyOk(w, e, wf, why) ==> WhyOk(w', e, wf, why))
  {
    var row := NewStepRow(e, wf.steps[i], StepSkipped, ByEngine(i));
    EngineRowAdded(w, row);
    SkippedShape(wf, EngineRows(w.stepRows[e]), i, row);
    SkippedExplains(wf, w.logs[e].runs, EngineRows(w.stepRows[e]), row);
  }

  lemma {:induction false} SkippedKeeps(w: World, job: Job, i: nat, why: Why)
    requires Inv(Machine(w, Skipping(job, i, why)))
    ensures i < |job.workflow.steps| && HasExecution(w, job.execution.id)
    ensures var w' := AddStepRow(w, NewStepRow(job.execution.id, job.workflow.steps[i], StepSkipped, ByEngine(i)));
            Inv(Machine(w', Confirming(job, i, |w.stepRows[job.execution.id]|, why)))
  {
    hide Shape;
    hide EngineRows;
    var e, wf := job.execution.id, job.workflow;
    assert FocusOk(w, Skipping(job, i, why)) && ExecutionOk(w, e);
    var w' := AddStepRow(w, NewStepRow(e, wf.steps[i], StepSkipped, ByEngine(i)));
    SkippedRowAdded(w, e, wf, i);
    FrameKeeps(w, w', job);
    FocusedInv(w', Confirming(job, i, |w.stepRows[e]|, why));
  }

  lemma {:induction false} SkipRefusedKeeps(w: World, job: Job, i: nat, why: Why)
    requires Inv(Machine(w, Skipping(job, i, why)))
    ensures Inv(Machine(w, SkipFrom(w, job, i + 1, why)))
  {
    assert FocusOk(w, Skipping(job, i, why));
    SkipFromOk(w, job, i + 1, why);
  }

  lemma {:induction false} SkippingKeeps(m: Machine, c: Choice)
    requires Inv(m) && m.pc.Skipping?
    ensures Inv(EngineStep(m, c))
  {
    hide Inv;
    SkippedKeeps(m.world, m.pc.job, m.pc.i, m.pc.why);
    SkipRefusedKeeps(m.world, m.pc.job, m.pc.i, m.pc.why);
  }

  lemma {:induction false} ConfirmingKeeps(m: Machine, c: Choice)
    requires Inv(m) && m.pc.Confirming?
    ensures Inv(EngineStep(m, c)) && EngineStep(m, c).world == m.world
  {
    hide Shape;
    hide EngineRows;
    var w, e, r := m.world, m.pc.job.execution.id, m.pc.row;
    assert ExecutionOk(w, e);
    var row := w.stepRows[e][r];
    assert row.(status := StepSkipped) == row;
    assert w.stepRows[e][r := row] == w.stepRows[e];
    assert SetStepStatus(w, e, r, StepSkipped, None).stepRows == w.stepRows;
    SkipFromOk(w, m.pc.job, m.pc.i + 1, m.pc.why);
  }

  // ---- every reachable state ----

  lemma {:induction false} EngineKeepsInv(m: Machine, c: Choice)
    requires Inv(m)
    ensures Inv(EngineStep(m, c))
  {
    hide Inv;
    hide EngineStep;
    if !m.pc.HasJob() {
      IdleKeeps(m, c);
    } else {
      match m.pc
      case Starting(_) => StartingKeeps(m, c);
      case Marking(_) => MarkingKeeps(m, c);
      case Skipping(_, _, _) => SkippingKeeps(m, c);
      case Confirming(_, _, _, _) => ConfirmingKeeps(m, c);
      case Finishing(_) => FinishingKeeps(m, c);
      case _ => StepPhaseKeeps(m, c);
    }
  }

  lemma {:induction false} StepPhaseKeeps(m: Machine, c: Choice)
    requires Inv(m) && (m.pc.Checking? || m.pc.Creating? || m.pc.Launching? || m.pc.Executing? || m.pc.Recording?)
    ensures Inv(EngineStep(m, c))
  {
    hide Inv;
    hide EngineStep;
    match m.pc
    case Checking(_, _) => CheckingKeeps(m, c);
    case Creating(_, _) => CreatingKeeps(m, c);
    case Launching(_, _, _) => LaunchingKeeps(m, c);
    case Executing(_, _, _) => ExecutingKeeps(m, c);
    case Recording(_, _, _, _) =>
      RecordingKeeps(m, c);
  }

  lemma {:induction false} StepKeepsInv(m: Machine, a: Action)
    requires Inv(m)
    ensures Inv(Step(m, a))
  {
    match a
    case Engine(c) => EngineKeepsInv(m, c);
    case Env(x) =>
      EnvStepEffect(m.world, x);
      EnvKeepsInv(m, EnvStep(m.world, x));
  }

  lemma {:induction false} ExecuteKeepsInv(m: Machine, actions: seq<Action>)
    requires Inv(m)
    ensures Inv(Execute(m, actions))
    decreases |actions|
  {
    if actions != [] {
      StepKeepsInv(m, actions[0]);
      ExecuteKeepsInv(Step(m, actions[0]), actions[1..]);
    }
  }
}
