/** Exactly when the blind writes break the execution state machine, exactly when the engine drops a running
    execution, and what a cancel that was read still achieves when calls fail. */
module Races {
  import opened Domain
  import opened State
  import opened Environment
  import opened Machine
  import opened Safety
  import opened Guarantees

  // ---- exactly when a write is off the table ----

  /** The engine writes its own status over a cancel that has landed. */
  predicate OverwritesCancel(m: Machine, a: Action, e: nat) {
    && a.Engine? && a.choice.fault.None?
    && (m.pc.Starting? || m.pc.Marking? || m.pc.Finishing?) && m.pc.job.execution.id == e
    && HasExecution(m.world, e) && m.world.executions[e].status == ExecCanceled
  }

  /** A cancel call that found the execution pending or running writes when it has ended. */
  predicate CancelsFinished(m: Machine, a: Action, e: nat) {
    && a.Env? && LandsCancel(m.world, a.action, e)
    && Terminal(m.world.executions[e].status)
  }

  predicate LandsCancel(w: World, a: EnvAction, e: nat) {
    a.CancelWrite? && a.fault.None? && a.call in w.calls && w.calls[a.call] == Canceling(e) && HasExecution(w, e)
  }

  predicate OffTheTable(m: Machine, a: Action, e: nat) {
    OverwritesCancel(m, a, e) || CancelsFinished(m, a, e)
  }

  /** The only service step that changes a stored execution is a cancel that lands. */
  lemma {:induction false} EnvWrites(w: World, a: EnvAction, e: nat)
    requires |w.executions| == |w.stepRows| == |w.logs| && e < |w.executions|
    ensures e < |EnvStep(w, a).executions|
    ensures EnvStep(w, a).executions[e]
         == if LandsCancel(w, a, e) then w.executions[e].(status := ExecCanceled) else w.executions[e]
  {
  }

  lemma {:induction false} FocusWrites(w: World, pc: Pc, c: Choice)
    requires pc.HasJob() && HasExecution(w, pc.job.execution.id) && FocusOk(w, pc)
    ensures var e := pc.job.execution.id;
            && HasExecution(JobStep(w, pc, c).world, e)
            && (!ExecutionEdge(w.executions[e].status, JobStep(w, pc, c).world.executions[e].status)
                <==> OverwritesCancel(Machine(w, pc), Engine(c), e))
  {
    if pc.Starting? || pc.Marking? || pc.Finishing? {
      EdgeWrites(w, pc, c);
    } else {
      InnerWrites(w, pc, c);
    }
  }

  lemma {:induction false} EdgeWrites(w: World, pc: Pc, c: Choice)
    requires pc.Starting? || pc.Marking? || pc.Finishing?
    requires HasExecution(w, pc.job.execution.id) && FocusOk(w, pc)
    ensures var e := pc.job.execution.id;
            && HasExecution(JobStep(w, pc, c).world, e)
            && (!ExecutionEdge(w.executions[e].status, JobStep(w, pc, c).world.executions[e].status)
                <==> c.fault.None? && w.executions[e].status == ExecCanceled)
  {
  }

  lemma {:induction false} InnerWrites(w: World, pc: Pc, c: Choice)
    requires pc.HasJob() && !pc.Starting? && !pc.Marking? && !pc.Finishing?
    requires HasExecution(w, pc.job.execution.id) && FocusOk(w, pc)
    ensures var e := pc.job.execution.id;
            && HasExecution(JobStep(w, pc, c).world, e)
            && ExecutionEdge(w.executions[e].status, JobStep(w, pc, c).world.executions[e].status)
  {
  }

  /** Both worlds have the execution, and its status stays or takes an edge of the table. */
  predicate KeepsTable(w: World, w': World, e: nat) {
    && e < |w.executions| && e < |w'.executions|
    && ExecutionEdge(w.executions[e].status, w'.executions[e].status)
  }

  /** In every state that can be reached, a step takes an execution off the table exactly when the engine
      writes over a cancel, or a cancel call over an execution that has ended. */
  lemma {:induction false} ExactlyOffTheTable(m: Machine, a: Action, e: nat)
    requires Inv(m) && e < |m.world.executions|
    ensures e < |Step(m, a).world.executions|
    ensures !KeepsTable(m.world, Step(m, a).world, e) <==> OffTheTable(m, a, e)
  {
    match a
    case Env(x) => EnvWrites(m.world, x, e);
    case Engine(c) => EngineOffTheTable(m, c, e);
  }

  lemma {:induction false} EngineOffTheTable(m: Machine, c: Choice, e: nat)
    requires Inv(m) && e < |m.world.executions|
    ensures e < |EngineStep(m, c).world.executions|
    ensures !KeepsTable(m.world, EngineStep(m, c).world, e) <==> OverwritesCancel(m, Engine(c), e)
  {
    StoredExecution(m, e);
    if m.pc.Focus() == Some(e) {
      hide Inv;
      FocusWrites(m.world, m.pc, c);
    } else {
      EngineTouches(m, c, e);
    }
  }

  /** The five writes the blind repository calls let through although no table edge allows them. */
  predicate RaceWrite(from: ExecutionStatus, to: ExecutionStatus) {
    || (from == ExecCanceled && (to == ExecRunning || Terminal(to)))
    || (Terminal(from) && to == ExecCanceled)
  }

  /** Whatever interleaves, one atomic step changes a stored status only along an edge of the table or as
      one of the five race writes, and nothing ever makes an execution pending again. */
  lemma {:induction false} StatusEnvelope(actions: seq<Action>, a: Action, e: nat)
    requires e < |Reached(actions).world.executions|
    ensures e < |Step(Reached(actions), a).world.executions|
    ensures var from := Reached(actions).world.executions[e].status;
            var to := Step(Reached(actions), a).world.executions[e].status;
            && (ExecutionEdge(from, to) || RaceWrite(from, to))
            && (to == ExecPending ==> from == ExecPending)
  {
    ExactlyOffTheTable(Reached(actions), a, e);
  }

  predicate TableKept(m: Machine, actions: seq<Action>)
    decreases |actions|
  {
    actions != [] ==>
      && (forall e :: 0 <= e < |m.world.executions| ==> KeepsTable(m.world, Step(m, actions[0]).world, e))
      && TableKept(Step(m, actions[0]), actions[1..])
  }

  predicate NeverOffTheTable(m: Machine, actions: seq<Action>)
    decreases |actions|
  {
    actions != [] ==>
      && (forall e :: 0 <= e < |m.world.executions| ==> !OffTheTable(m, actions[0], e))
      && NeverOffTheTable(Step(m, actions[0]), actions[1..])
  }

  /** A run keeps the documented state machine exactly when none of its steps is one of those two. */
  lemma {:induction false} RunsKeepTheTableIff(m: Machine, actions: seq<Action>)
    requires Inv(m)
    ensures TableKept(m, actions) <==> NeverOffTheTable(m, actions)
    decreases |actions|
  {
    hide Inv;
    if actions != [] {
      forall e | 0 <= e < |m.world.executions|
        ensures KeepsTable(m.world, Step(m, actions[0]).world, e) <==> !OffTheTable(m, actions[0], e)
      {
        ExactlyOffTheTable(m, actions[0], e);
      }
      StepKeepsInv(m, actions[0]);
      RunsKeepTheTableIff(Step(m, actions[0]), actions[1..]);
    }
  }

  // ---- exactly when a running execution is dropped ----

  /** An engine call that is refused where the engine gives up on the execution. */
  predicate Drops(m: Machine, a: Action, e: nat) {
    && a.Engine? && a.choice.fault.Some?
    && (m.pc.Marking? || m.pc.Checking? || m.pc.Finishing?) && m.pc.job.execution.id == e
    && HasExecution(m.world, e) && m.world.executions[e].status == ExecRunning
  }

  /** Stored as running, while the engine is not working on it. */
  predicate Unattended(m: Machine, e: nat) {
    HasExecution(m.world, e) && m.world.executions[e].status == ExecRunning && m.pc.Focus() != Some(e)
  }

  lemma {:induction false} ResumesElsewhere(job: Job)
    requires forall k :: 0 <= k < |job.queue| ==> job.queue[k].id != job.execution.id
    ensures Resume(job).Focus() != Some(job.execution.id)
  {
    DispatchesQueued(job.workflow, job.queue, job.rest, job.execution.id);
  }

  lemma {:induction false} DispatchesQueued(workflow: Workflow, queue: seq<Execution>, rest: seq<Workflow>, e: nat)
    requires forall k :: 0 <= k < |queue| ==> queue[k].id != e
    ensures NextDispatch(workflow, queue, rest).Focus() != Some(e)
    decreases |queue|
  {
    if queue != [] && queue[0].status != ExecPending { DispatchesQueued(workflow, queue[1..], rest, e); }
  }

  /** The phases that cannot leave a running row behind. */
  lemma {:induction false} StaysAttended(w: World, pc: Pc, c: Choice)
    requires pc.HasJob() && !pc.Marking? && !pc.Checking? && !pc.Finishing?
    requires HasExecution(w, pc.job.execution.id) && FocusOk(w, pc)
    ensures !Unattended(JobStep(w, pc, c), pc.job.execution.id)
  {
    if pc.Skipping? || pc.Confirming? { SkipStaysAttended(w, pc, c); }
  }

  lemma {:induction false} SkipStaysAttended(w: World, pc: Pc, c: Choice)
    requires (pc.Skipping? || pc.Confirming?) && HasExecution(w, pc.job.execution.id) && FocusOk(w, pc)
    ensures !Unattended(JobStep(w, pc, c), pc.job.execution.id)
  {
  }

  /** The engine lets go of a running execution exactly when one of three calls for it is refused. */
  lemma {:induction false} ExactlyDropped(m: Machine, c: Choice, e: nat)
    requires Inv(m) && m.pc.Focus() == Some(e)
    ensures Unattended(EngineStep(m, c), e) <==> Drops(m, Engine(c), e)
  {
    var w, pc := m.world, m.pc;
    assert HasExecution(w, e) && ExecutionOk(w, e);
    ResumesElsewhere(pc.job);
    if pc.Marking? || pc.Checking? || pc.Finishing? {
      RefusedLeavesRunning(w, pc, c);
    } else {
      StaysAttended(w, pc, c);
    }
  }

  lemma {:induction false} RefusedLeavesRunning(w: World, pc: Pc, c: Choice)
    requires (pc.Marking? || pc.Checking? || pc.Finishing?) && HasExecution(w, pc.job.execution.id) && FocusOk(w, pc)
    requires Resume(pc.job).Focus() != Some(pc.job.execution.id)
    ensures Unattended(JobStep(w, pc, c), pc.job.execution.id)
       <==> Drops(Machine(w, pc), Engine(c), pc.job.execution.id)
  {
  }

  /** Nothing retries it: whatever happens afterwards it stays running, unless a cancel call overwrites that,
      and neither its rows nor its runner calls change. */
  lemma {:induction false} DroppedForGood(m: Machine, c: Choice, e: nat, actions: seq<Action>)
    requires Inv(m) && Drops(m, Engine(c), e)
    ensures var m1 := EngineStep(m, c);
            var m2 := Execute(m1, actions);
            && Settled(m1, e) && HasExecution(m2.world, e)
            && (m2.world.executions[e].status == ExecRunning || m2.world.executions[e].status == ExecCanceled)
            && Untouched(m1.world, m2.world, e)
  {
    var m1 := EngineStep(m, c);
    EngineKeepsInv(m, c);
    ExactlyDropped(m, c, e);
    DispatchSettles(m1.world, m.pc.job.workflow, m.pc.job.queue, m.pc.job.rest, e);
    SettledForGood(m1, actions, e);
  }

  lemma {:induction false} LastStep(m: Machine, actions: seq<Action>)
    requires actions != []
    ensures var n := |actions| - 1; Execute(m, actions) == Step(Execute(m, actions[..n]), actions[n])
  {
    var n := |actions| - 1;
    ExecuteAll(m, actions[..n], [actions[n]]);
    ExecuteOne(Execute(m, actions[..n]), actions[n]);
    assert actions[..n] + [actions[n]] == actions;
  }

  /** Every execution that is stored as running while the engine is not working on it was dropped. */
  lemma {:induction false} UnattendedWasDropped(actions: seq<Action>, e: nat) returns (i: nat)
    requires Unattended(Reached(actions), e)
    ensures i < |actions| && Drops(Reached(actions[..i]), actions[i], e)
    decreases |actions|
  {
    i := |actions| - 1;
    LastStep(INITIAL, actions);
    var m, a := Reached(actions[..i]), actions[i];
    if !Drops(m, a, e) {
      UnattendedBefore(m, a, e);
      var j := UnattendedWasDropped(actions[..i], e);
      assert actions[..i][..j] == actions[..j];
      i := j;
    }
  }

  lemma {:induction false} UnattendedBefore(m: Machine, a: Action, e: nat)
    requires Inv(m) && Unattended(Step(m, a), e) && !Drops(m, a, e)
    ensures Unattended(m, e)
  {
    match a
    case Env(x) =>
      EnvStepEffect(m.world, x);
      if e < |m.world.executions| {
        EnvWrites(m.world, x, e);
      } else {
        EnvInsertsPending(m.world, x, e);
      }
    case Engine(c) =>
      SameExecutions(m, c);
      if m.pc.Focus() == Some(e) { ExactlyDropped(m, c, e); } else { EngineTouches(m, c, e); }
  }

  lemma {:induction false} SameExecutions(m: Machine, c: Choice)
    requires Inv(m)
    ensures |EngineStep(m, c).world.executions| == |m.world.executions|
  {
    if m.pc.HasJob() { JobTouches(m.world, m.pc, c); }
  }

  lemma {:induction false} EnvInsertsPending(w: World, a: EnvAction, e: nat)
    requires |w.executions| <= e < |EnvStep(w, a).executions|
    ensures EnvStep(w, a).executions[e].status == ExecPending
  {
  }

  // ---- a cancel that was read is final, whatever fails ----

  /** The engine has read the cancel and is skipping, or is through with the canceled execution. */
  predicate CaughtAt(m: Machine, e: nat) {
    && HasExecution(m.world, e) && m.world.executions[e].status == ExecCanceled
    && (|| Settled(m, e)
        || ((m.pc.Skipping? || m.pc.Confirming?) && m.pc.job.execution.id == e && m.pc.why.CanceledOutside?))
  }

  /** Status, dispatches and runner calls of the execution are as they were. */
  predicate SameOutcome(w: World, w': World, e: nat) {
    && HasExecution(w, e) && HasExecution(w', e)
    && w'.executions[e].status == w.executions[e].status
    && w'.logs[e].runs == w.logs[e].runs && w'.logs[e].entries == w.logs[e].entries
  }

  lemma {:induction false} CaughtStays(m: Machine, a: Action, e: nat)
    requires Inv(m) && CaughtAt(m, e)
    ensures CaughtAt(Step(m, a), e) && SameOutcome(m.world, Step(m, a).world, e)
  {
    if Settled(m, e) {
      SettledStep(m, a, e);
    } else {
      match a
      case Env(x) =>
        EnvStepEffect(m.world, x);
        assert SameButCanceled(m.world, EnvStep(m.world, x), e);
      case Engine(c) =>
        SkipOutcome(m.world, m.pc, c);
        DispatchSettles(EngineStep(m, c).world, m.pc.job.workflow, m.pc.job.queue, m.pc.job.rest, e);
    }
  }

  lemma {:induction false} SkipOutcome(w: World, pc: Pc, c: Choice)
    requires (pc.Skipping? || pc.Confirming?) && HasExecution(w, pc.job.execution.id) && pc.why.CanceledOutside?
    ensures var m', e := JobStep(w, pc, c), pc.job.execution.id;
            && SameOutcome(w, m'.world, e)
            && (|| m'.pc == Resume(pc.job)
                || ((m'.pc.Skipping? || m'.pc.Confirming?) && m'.pc.job == pc.job && m'.pc.why == pc.why))
  {
  }

  /** Once a pre-step read has seen the cancel, the execution stays canceled and no step of it runs any more,
      under any faults, any cancellation of the context and any interleaving. */
  lemma {:induction false} CancelReadIsFinal(m: Machine, c: Choice, e: nat, actions: seq<Action>)
    requires Inv(m) && m.pc.Checking? && m.pc.job.execution.id == e && c.fault.None? && !c.ctxDone
    requires HasExecution(m.world, e) && m.world.executions[e].status == ExecCanceled
    ensures SameOutcome(m.world, Execute(EngineStep(m, c), actions).world, e)
  {
    var m1 := EngineStep(m, c);
    assert FocusOk(m.world, m.pc);
    assert CaughtAt(m1, e) && SameOutcome(m.world, m1.world, e);
    EngineKeepsInv(m, c);
    CaughtForGood(m1, e, actions);
  }

  lemma {:induction false} CaughtForGood(m: Machine, e: nat, actions: seq<Action>)
    requires Inv(m) && CaughtAt(m, e)
    ensures CaughtAt(Execute(m, actions), e) && SameOutcome(m.world, Execute(m, actions).world, e)
    decreases |actions|
  {
    hide Inv;
    if actions != [] {
      CaughtStays(m, actions[0], e);
      StepKeepsInv(m, actions[0]);
      CaughtForGood(Step(m, actions[0]), e, actions[1..]);
    }
  }

  // ---- a canceled context ----

  /** Finding its context canceled before a step, the engine writes Canceled, whatever the status was, and lets the
      execution go for good: no step of it is run and not even a skipped row is written any more, and only a
      cancel call can still change it. When the write is refused the row is left as it was. */
  lemma {:induction false} ContextDoneLetsGo(m: Machine, c: Choice, e: nat, actions: seq<Action>)
    requires Inv(m) && m.pc.Checking? && m.pc.job.execution.id == e && c.ctxDone
    ensures var w, m1 := m.world, EngineStep(m, c);
            && HasExecution(w, e) && Settled(m1, e)
            && m1.world.executions[e]
               == (if c.fault.Some? then w.executions[e] else w.executions[e].(status := ExecCanceled))
            && m1.world.stepRows[e] == w.stepRows[e] && m1.world.logs[e].runs == w.logs[e].runs
            && Untouched(m1.world, Execute(m1, actions).world, e)
  {
    var m1 := EngineStep(m, c);
    assert FocusOk(m.world, m.pc) && JobOk(m.world, m.pc.job);
    EngineKeepsInv(m, c);
    DispatchSettles(m1.world, m.pc.job.workflow, m.pc.job.queue, m.pc.job.rest, e);
    ResumesElsewhere(m.pc.job);
    SettledForGood(m1, actions, e);
  }
}
