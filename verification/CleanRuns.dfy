/** Runs in which the engine meets no repository fault and its context stays live, while the services still
    interleave freely: exactly when a cancellation takes hold, and exactly which rows a run leaves. */
module CleanRuns {
  import opened Domain
  import opened State
  import opened Environment
  import opened Machine
  import opened Safety
  import opened Guarantees

  predicate Clean(a: Action) {
    a.Engine? ==> a.choice.fault.None? && !a.choice.ctxDone
  }

  // ---- the cancellation window ----

  /** Where an execution stands with respect to cancel writes: before the engine's Running update, watched
      with or without a cancel not yet read, stopped by a pre-step read, or closed by the final update. */
  datatype Window = Before | Open | Hit | Caught(index: nat) | Shut(late: bool)

  function Advance(win: Window, mark: Mark): Window {
    match win
    case Before => if mark.Opened? then Open else Before
    case Open => if mark.CancelLanded? then Hit else if mark.Closed? then Shut(false) else Open
    case Hit => if mark.Fetched? then Caught(mark.index) else if mark.Closed? then Shut(false) else Hit
    case Caught(_) => win
    case Shut(late) => if mark.CancelLanded? then Shut(true) else win
  }

  function WindowOf(trace: seq<Mark>): Window {
    if trace == [] then Before else Advance(WindowOf(trace[..|trace| - 1]), trace[|trace| - 1])
  }

  lemma {:induction false} WindowAppend(trace: seq<Mark>, mark: Mark)
    ensures WindowOf(trace + [mark]) == Advance(WindowOf(trace), mark)
  {
    assert (trace + [mark])[..|trace|] == trace;
  }

  // ---- the rows of a run ----

  /** The engine's skipped rows for the steps from `from` to before `to`. */
  function SkippedRows(wf: Workflow, e: nat, from: nat, to: nat): seq<StepRow>
    requires from <= to <= |wf.steps|
  {
    seq(to - from, i requires 0 <= i < to - from => RowOf(wf, e, from + i, StepSkipped, None))
  }

  /** How many of the runner calls succeeded: all, or all but the last. */
  function GoodCount(runs: seq<Run>): nat {
    if runs != [] && !Good(runs[|runs| - 1].result) then |runs| - 1 else |runs|
  }

  /** The rows the runner calls `runs` call for, with the steps after them skipped up to `to`. */
  function ExpectedRows(wf: Workflow, e: nat, runs: seq<Run>, to: nat): seq<StepRow>
    requires |runs| <= to <= |wf.steps|
  {
    var k := GoodCount(runs);
    SucceededRows(wf, e, k)
    + (if k < |runs| then [RowOf(wf, e, k, StepFailed, Some(runs[k].result.exitCode))] else [])
    + SkippedRows(wf, e, |runs|, to)
  }

  // ---- invariant of clean runs ----

  predicate Watched(w: World, e: nat)
    requires HasExecution(w, e)
  {
    var win, status := WindowOf(w.logs[e].trace), w.executions[e].status;
    (win == Open && status == ExecRunning) || (win == Hit && status == ExecCanceled)
  }

  predicate SkippedTo(w: World, e: nat, wf: Workflow, i: nat, why: Why)
    requires HasExecution(w, e)
  {
    var runs := w.logs[e].runs;
    && |runs| <= i <= |wf.steps|
    && EngineRows(w.stepRows[e]) == ExpectedRows(wf, e, runs, i)
    && (if why.CanceledOutside?
        then
          && WindowOf(w.logs[e].trace) == Caught(|runs|) && w.executions[e].status == ExecCanceled
          && AllGood(runs) && |runs| < |wf.steps|
        else Watched(w, e) && OrderlyRuns(runs) && GoodCount(runs) < |runs|)
  }

  /** What a completed engine run leaves. */
  predicate Completed(w: World, e: nat, wf: Workflow)
    requires HasExecution(w, e)
  {
    var log, status := w.logs[e], w.executions[e].status;
    && |log.runs| <= |wf.steps| && OrderlyRuns(log.runs)
    && EngineRows(w.stepRows[e]) == ExpectedRows(wf, e, log.runs, |wf.steps|)
    && match WindowOf(log.trace)
       case Caught(c) => status == ExecCanceled && c == |log.runs| < |wf.steps| && AllGood(log.runs)
       case Shut(late) =>
         && status == (if late then ExecCanceled else if AllGood(log.runs) then ExecSucceeded else ExecFailed)
         && (AllGood(log.runs) ==> |log.runs| == |wf.steps|)
       case _ => false
  }

  predicate CleanResting(w: World, e: nat)
    requires HasExecution(w, e)
  {
    if w.logs[e].entries == [] then WindowOf(w.logs[e].trace) == Before else Completed(w, e, w.logs[e].entries[0])
  }

  predicate CleanFocus(w: World, pc: Pc)
    requires pc.HasJob() && HasExecution(w, pc.job.execution.id)
  {
    var e, wf := pc.job.execution.id, pc.job.workflow;
    match pc
    case Starting(_) => WindowOf(w.logs[e].trace) == Before
    case Marking(_) => WindowOf(w.logs[e].trace) == Before
    case Skipping(_, i, why) => SkippedTo(w, e, wf, i, why)
    case Confirming(_, i, _, why) => SkippedTo(w, e, wf, i + 1, why)
    case Finishing(_) =>
      && Watched(w, e)
      && |w.logs[e].runs| <= |wf.steps| && OrderlyRuns(w.logs[e].runs)
      && EngineRows(w.stepRows[e]) == ExpectedRows(wf, e, w.logs[e].runs, |wf.steps|)
      && pc.job.execution.status == (if AllGood(w.logs[e].runs) then ExecSucceeded else ExecFailed)
    case _ => Watched(w, e)
  }

  predicate CleanInv(m: Machine) {
    && Inv(m)
    && (forall e :: 0 <= e < |m.world.executions| && m.pc.Focus() != Some(e) ==> CleanResting(m.world, e))
    && (m.pc.HasJob() ==> CleanFocus(m.world, m.pc))
  }

  // ---- the services keep it ----

  /** A service step leaves status and trace of an execution alone, or lands a cancel. */
  predicate CancelsOrNot(w: World, w': World, e: nat) {
    && HasExecution(w, e) && HasExecution(w', e)
    && ((w'.executions[e].status == w.executions[e].status && w'.logs[e].trace == w.logs[e].trace)
        || (w'.executions[e].status == ExecCanceled && w'.logs[e].trace == w.logs[e].trace + [CancelLanded]))
  }

  lemma {:induction false} EnvCancels(w: World, a: EnvAction, e: nat)
    requires StoreOk(w) && e < |w.executions|
    ensures CancelsOrNot(w, EnvStep(w, a), e)
  {
    EnvStepEffect(w, a);
    assert SameButCanceled(w, EnvStep(w, a), e);
  }

  /** New executions have never been touched. */
  lemma {:induction false} EnvInserts(w: World, a: EnvAction, e: nat)
    requires StoreOk(w) && |w.executions| <= e < |EnvStep(w, a).executions|
    ensures HasExecution(EnvStep(w, a), e) && EnvStep(w, a).logs[e].entries == [] && EnvStep(w, a).logs[e].trace == []
  {
    EnvStepEffect(w, a);
  }

  lemma {:induction false} EnvKeepsResting(w: World, w': World, e: nat)
    requires SameButCanceled(w, w', e) && CancelsOrNot(w, w', e) && CleanResting(w, e)
    ensures CleanResting(w', e)
  {
    WindowAppend(w.logs[e].trace, CancelLanded);
  }

  lemma {:induction false} EnvKeepsFocus(w: World, w': World, pc: Pc)
    requires pc.HasJob() && HasExecution(w, pc.job.execution.id)
    requires SameButCanceled(w, w', pc.job.execution.id) && CancelsOrNot(w, w', pc.job.execution.id)
    requires CleanFocus(w, pc)
    ensures CleanFocus(w', pc)
  {
    WindowAppend(w.logs[pc.job.execution.id].trace, CancelLanded);
  }

  lemma {:induction false} EnvKeepsClean(m: Machine, a: EnvAction)
    requires CleanInv(m)
    ensures CleanInv(Step(m, Env(a)))
  {
    hide EnvStep;
    hide FocusOk;
    hide CleanFocus;
    var w, w' := m.world, EnvStep(m.world, a);
    StepKeepsInv(m, Env(a));
    EnvStepEffect(w, a);
    forall e | 0 <= e < |w'.executions| && m.pc.Focus() != Some(e) ensures CleanResting(w', e) {
      if e < |w.executions| {
        EnvCancels(w, a, e);
        EnvKeepsResting(w, w', e);
      } else {
        EnvInserts(w, a, e);
      }
    }
    if m.pc.HasJob() {
      EnvCancels(w, a, m.pc.job.execution.id);
      EnvKeepsFocus(w, w', m.pc);
    }
  }

  // ---- the engine keeps it ----

  lemma {:induction false} OtherStaysClean(m: Machine, c: Choice, x: nat)
    requires CleanInv(m) && m.pc.HasJob() && x < |m.world.executions| && x != m.pc.job.execution.id
    ensures HasExecution(EngineStep(m, c).world, x) && CleanResting(EngineStep(m, c).world, x)
  {
    EngineTouches(m, c, x);
    assert CleanResting(m.world, x);
  }

  lemma {:induction false} DispatchClean(w: World, workflow: Workflow, queue: seq<Execution>, rest: seq<Workflow>)
    requires forall e :: 0 <= e < |w.executions| ==> HasExecution(w, e) && CleanResting(w, e)
    requires forall k :: 0 <= k < |queue| && queue[k].status == ExecPending ==> Waiting(w, queue[k])
    ensures var pc := NextDispatch(workflow, queue, rest);
            pc.HasJob() ==> HasExecution(w, pc.job.execution.id) && CleanFocus(w, pc)
    decreases |queue|
  {
    if queue != [] {
      assert forall k :: 0 <= k < |queue[1..]| ==> queue[1..][k] == queue[k + 1];
      if queue[0].status == ExecPending {
        assert Waiting(w, queue[0]) && CleanResting(w, queue[0].id);
      } else {
        DispatchClean(w, workflow, queue[1..], rest);
      }
    }
  }

  lemma {:induction false} IdleKeepsClean(m: Machine, c: Choice)
    requires CleanInv(m) && !m.pc.HasJob()
    ensures CleanInv(EngineStep(m, c))
  {
    EngineKeepsInv(m, c);
    var w := m.world;
    if m.pc.Listing? && m.pc.rest != [] {
      var queue := NewestExecutions(w.executions, m.pc.rest[0].id, EXECUTION_WINDOW);
      forall e | 0 <= e < |w.executions| ensures w.executions[e].id == e { assert ExecutionOk(w, e); }
      ListingOk(w.executions, m.pc.rest[0].id, EXECUTION_WINDOW);
      forall k | 0 <= k < |queue| && queue[k].status == ExecPending ensures Waiting(w, queue[k]) {
        assert ExecutionOk(w, queue[k].id);
      }
      DispatchClean(w, m.pc.rest[0], queue, m.pc.rest[1..]);
    }
  }

  /** Everything the invariant says about the execution the engine is working on. */
  predicate AtFocus(w: World, pc: Pc) {
    && pc.HasJob()
    && ExecutionOk(w, pc.job.execution.id)
    && FocusOk(w, pc)
    && CleanFocus(w, pc)
  }

  /** After a job step the engine is still at its execution, or has let it go. */
  predicate FocusStepOk(pc: Pc, m': Machine)
    requires pc.HasJob()
  {
    var e := pc.job.execution.id;
    && HasExecution(m'.world, e)
    && (|| (m'.pc == Resume(pc.job) && CleanResting(m'.world, e))
        || (m'.pc.HasJob() && m'.pc.job.execution.id == e && CleanFocus(m'.world, m'.pc)))
  }

  /** At the loop head after `k` good steps. */
  lemma {:induction false} LoopTopClean(w: World, job: Job, k: nat)
    requires Progress(w, job.execution.id, job.workflow, k) && Watched(w, job.execution.id)
    ensures CleanFocus(w, LoopTop(w, job, k))
  {
    var wf, e := job.workflow, job.execution.id;
    if k == |wf.steps| {
      assert ExpectedRows(wf, e, w.logs[e].runs, k) == SucceededRows(wf, e, k);
    }
  }

  /** At the head of the skipping loop. */
  lemma {:induction false} SkipFromClean(w: World, job: Job, i: nat, why: Why)
    requires HasExecution(w, job.execution.id) && SkippedTo(w, job.execution.id, job.workflow, i, why)
    requires w.logs[job.execution.id].entries == [job.workflow]
    ensures var pc := SkipFrom(w, job, i, why);
            if i == |job.workflow.steps| && why.CanceledOutside?
            then pc == Resume(job) && CleanResting(w, job.execution.id)
            else pc.HasJob() && pc.job.execution.id == job.execution.id && CleanFocus(w, pc)
  {
  }

  lemma {:induction false} MarkingClean(w: World, pc: Pc, c: Choice)
    requires AtFocus(w, pc) && pc.Marking? && Clean(Engine(c))
    ensures FocusStepOk(pc, JobStep(w, pc, c))
  {
    var e, w' := pc.job.execution.id, JobStep(w, pc, c).world;
    WindowAppend(w.logs[e].trace, Opened);
    assert SucceededRows(pc.job.workflow, e, 0) == [];
    LoopTopClean(w', pc.job, 0);
  }

  lemma {:induction false} CheckingClean(w: World, pc: Pc, c: Choice)
    requires AtFocus(w, pc) && pc.Checking? && Clean(Engine(c))
    ensures FocusStepOk(pc, JobStep(w, pc, c))
  {
    hide Shape;
    var job, i, w' := pc.job, pc.i, JobStep(w, pc, c).world;
    var e := job.execution.id;
    WindowAppend(w.logs[e].trace, Fetched(i));
    assert ExpectedRows(job.workflow, e, w.logs[e].runs, i) == SucceededRows(job.workflow, e, i);
    if w.executions[e].status == ExecCanceled {
      SkipFromClean(w', job, i, CanceledOutside);
    }
  }

  lemma {:induction false} SucceededClean(w: World, pc: Pc, c: Choice)
    requires AtFocus(w, pc) && pc.Recording? && Clean(Engine(c)) && Good(pc.result)
    ensures FocusStepOk(pc, JobStep(w, pc, c))
  {
    var e, wf, i := pc.job.execution.id, pc.job.workflow, pc.i;
    RowWrite(w, e, wf, i, pc.row, StepRunning, StepSucceeded, Some(pc.result.exitCode));
    NextSucceeded(wf, e, i);
    LoopTopClean(JobStep(w, pc, c).world, pc.job, i + 1);
  }

  lemma {:induction false} BrokenClean(w: World, pc: Pc, c: Choice)
    requires AtFocus(w, pc) && pc.Recording? && Clean(Engine(c)) && !Good(pc.result)
    ensures FocusStepOk(pc, JobStep(w, pc, c))
  {
    var e, wf, i, code := pc.job.execution.id, pc.job.workflow, pc.i, Some(pc.result.exitCode);
    RowWrite(w, e, wf, i, pc.row, StepRunning, StepFailed, code);
    assert ExpectedRows(wf, e, w.logs[e].runs, i + 1) == SucceededRows(wf, e, i) + [RowOf(wf, e, i, StepFailed, code)];
    SkipFromClean(JobStep(w, pc, c).world, pc.job, i + 1, StepError(BrokenStep(wf.steps[i], pc.result)));
  }

  lemma {:induction false} OneMoreSkipped(wf: Workflow, e: nat, runs: seq<Run>, i: nat)
    requires |runs| <= i < |wf.steps|
    ensures ExpectedRows(wf, e, runs, i + 1) == ExpectedRows(wf, e, runs, i) + [RowOf(wf, e, i, StepSkipped, None)]
  {
    var k := GoodCount(runs);
    var ran := SucceededRows(wf, e, k)
               + (if k < |runs| then [RowOf(wf, e, k, StepFailed, Some(runs[k].result.exitCode))] else []);
    var skipped := SkippedRows(wf, e, |runs|, i);
    var row := RowOf(wf, e, i, StepSkipped, None);
    assert SkippedRows(wf, e, |runs|, i + 1) == skipped + [row];
    assert ran + (skipped + [row]) == ran + skipped + [row];
  }

  lemma {:induction false} SkippingClean(w: World, pc: Pc, c: Choice)
    requires AtFocus(w, pc) && pc.Skipping? && Clean(Engine(c))
    ensures FocusStepOk(pc, JobStep(w, pc, c))
  {
    hide Shape;
    hide ExpectedRows;
    var e, wf, i := pc.job.execution.id, pc.job.workflow, pc.i;
    var runs, row := w.logs[e].runs, NewStepRow(e, wf.steps[i], StepSkipped, ByEngine(i));
    AppendRow(w.stepRows[e], row);
    OneMoreSkipped(wf, e, runs, i);
  }

  lemma {:induction false} ConfirmingClean(w: World, pc: Pc, c: Choice)
    requires AtFocus(w, pc) && pc.Confirming? && JobStep(w, pc, c).world == w
    ensures FocusStepOk(pc, JobStep(w, pc, c))
  {
    SkipFromClean(w, pc.job, pc.i + 1, pc.why);
  }

  lemma {:induction false} FinishingClean(w: World, pc: Pc, c: Choice)
    requires AtFocus(w, pc) && pc.Finishing? && Clean(Engine(c))
    ensures FocusStepOk(pc, JobStep(w, pc, c))
  {
    WindowAppend(w.logs[pc.job.execution.id].trace, Closed);
  }

  /** The steps that change neither status, trace nor the meaning of the rows. */
  lemma {:induction false} PlainClean(w: World, pc: Pc, c: Choice)
    requires AtFocus(w, pc) && Clean(Engine(c))
    requires pc.Starting? || pc.Creating? || pc.Launching? || pc.Executing?
    ensures FocusStepOk(pc, JobStep(w, pc, c))
  {
  }

  lemma {:induction false} FocusStepClean(m: Machine, c: Choice)
    requires CleanInv(m) && m.pc.HasJob() && Clean(Engine(c))
    ensures FocusStepOk(m.pc, JobStep(m.world, m.pc, c))
  {
    var w, pc := m.world, m.pc;
    assert AtFocus(w, pc) by { assert HasExecution(w, pc.job.execution.id) && ExecutionOk(w, pc.job.execution.id); }
    if pc.Confirming? { ConfirmingKeeps(m, c); }
    FocusCases(w, pc, c);
  }

  lemma {:induction false} FocusCases(w: World, pc: Pc, c: Choice)
    requires AtFocus(w, pc) && Clean(Engine(c))
    requires pc.Confirming? ==> JobStep(w, pc, c).world == w
    ensures FocusStepOk(pc, JobStep(w, pc, c))
  {
    hide CleanFocus;
    hide FocusOk;
    hide JobStep;
    if pc.Marking? {
      MarkingClean(w, pc, c);
    } else if pc.Checking? {
      CheckingClean(w, pc, c);
    } else if pc.Recording? {
      if Good(pc.result) { SucceededClean(w, pc, c); } else { BrokenClean(w, pc, c); }
    } else if pc.Skipping? {
      SkippingClean(w, pc, c);
    } else if pc.Confirming? {
      ConfirmingClean(w, pc, c);
    } else if pc.Finishing? {
      FinishingClean(w, pc, c);
    } else {
      PlainClean(w, pc, c);
    }
  }

  lemma {:induction false} ResumeClean(m: Machine, m': Machine)
    requires CleanInv(m) && m.pc.HasJob() && Inv(m') && m'.pc == Resume(m.pc.job)
    requires forall e :: 0 <= e < |m'.world.executions| ==> HasExecution(m'.world, e) && CleanResting(m'.world, e)
    requires Touches(m.world, m'.world, m.pc.job.execution.id)
    ensures CleanInv(m')
  {
    var job := m.pc.job;
    assert JobOk(m.world, job);
    forall k | 0 <= k < |job.queue| && job.queue[k].status == ExecPending ensures Waiting(m'.world, job.queue[k]) {
      assert Waiting(m.world, job.queue[k]) && job.queue[k].id != job.execution.id;
    }
    DispatchClean(m'.world, job.workflow, job.queue, job.rest);
  }

  lemma {:induction false} JobKeepsClean(m: Machine, c: Choice)
    requires CleanInv(m) && m.pc.HasJob() && Clean(Engine(c))
    ensures CleanInv(EngineStep(m, c))
  {
    hide JobStep;
    hide FocusOk;
    hide CleanFocus;
    hide CleanResting;
    var m', e := EngineStep(m, c), m.pc.job.execution.id;
    EngineKeepsInv(m, c);
    JobTouches(m.world, m.pc, c);
    FocusStepClean(m, c);
    forall x | 0 <= x < |m'.world.executions| && x != e ensures HasExecution(m'.world, x) && CleanResting(m'.world, x) {
      OtherStaysClean(m, c, x);
    }
    AssembleClean(m, m');
  }

  lemma {:induction false} AssembleClean(m: Machine, m': Machine)
    requires CleanInv(m) && m.pc.HasJob() && Inv(m') && Touches(m.world, m'.world, m.pc.job.execution.id)
    requires FocusStepOk(m.pc, m')
    requires forall x :: 0 <= x < |m'.world.executions| && x != m.pc.job.execution.id ==>
               HasExecution(m'.world, x) && CleanResting(m'.world, x)
    ensures CleanInv(m')
  {
    if m'.pc == Resume(m.pc.job) && CleanResting(m'.world, m.pc.job.execution.id) {
      ResumeClean(m, m');
    }
  }

  lemma {:induction false} ExecuteKeepsClean(m: Machine, actions: seq<Action>)
    requires CleanInv(m) && forall k :: 0 <= k < |actions| ==> Clean(actions[k])
    ensures CleanInv(Execute(m, actions))
    decreases |actions|
  {
    hide CleanInv;
    hide Step;
    if actions != [] {
      StepKeepsClean(m, actions[0]);
      ExecuteKeepsClean(Step(m, actions[0]), actions[1..]);
    }
  }

  lemma {:induction false} StepKeepsClean(m: Machine, a: Action)
    requires CleanInv(m) && Clean(a)
    ensures CleanInv(Step(m, a))
  {
    hide CleanInv;
    hide EngineStep;
    hide EnvStep;
    if a.Env? {
      EnvKeepsClean(m, a.action);
    } else if m.pc.HasJob() {
      JobKeepsClean(m, a.choice);
    } else {
      IdleKeepsClean(m, a.choice);
    }
  }
}
