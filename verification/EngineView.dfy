/** What the engine has in hand and listed, and when that agrees with the store. */
module EngineView {
  import opened Domain
  import opened State
  import opened Machine
  import opened Safety
  import opened Guarantees

  predicate QueuedLater(queue: seq<Execution>, e: nat) {
    exists k :: 0 <= k < |queue| && queue[k].id == e && queue[k].status == ExecPending
  }

  /** The engine is working on `e`, or has it listed as pending and still to come. */
  predicate Engaged(pc: Pc, e: nat) {
    pc.HasJob() && (pc.job.execution.id == e || QueuedLater(pc.job.queue, e))
  }

  /** The engine's view of statuses is the store's. */
  predicate Current(m: Machine) {
    m.pc.HasJob() ==>
      && HasExecution(m.world, m.pc.job.execution.id)
      && m.world.executions[m.pc.job.execution.id].status == (if m.pc.Starting? then ExecPending else ExecRunning)
      && (m.pc.Skipping? || m.pc.Confirming? ==> m.pc.why.StepError?)
      && CurrentQueue(m.world, m.pc.job.queue)
  }

  predicate CurrentQueue(w: World, queue: seq<Execution>) {
    forall k :: 0 <= k < |queue| && queue[k].status == ExecPending ==>
      HasExecution(w, queue[k].id) && w.executions[queue[k].id].status == ExecPending
  }

  lemma {:induction false} DispatchCurrent(w: World, workflow: Workflow, queue: seq<Execution>, rest: seq<Workflow>)
    requires CurrentQueue(w, queue)
    ensures Current(Machine(w, NextDispatch(workflow, queue, rest)))
    decreases |queue|
  {
    if queue != [] {
      assert forall k :: 0 <= k < |queue[1..]| ==> queue[1..][k] == queue[k + 1];
      if queue[0].status != ExecPending { DispatchCurrent(w, workflow, queue[1..], rest); }
    }
  }

  lemma {:induction false} WorkKeepsCurrent(m: Machine, c: Choice)
    requires Inv(m) && Current(m)
    ensures Current(EngineStep(m, c))
  {
    var w, m' := m.world, EngineStep(m, c);
    if m.pc.Listing? && m.pc.rest != [] {
      var queue := NewestExecutions(w.executions, m.pc.rest[0].id, EXECUTION_WINDOW);
      forall e | 0 <= e < |w.executions| ensures w.executions[e].id == e { assert ExecutionOk(w, e); }
      ListingOk(w.executions, m.pc.rest[0].id, EXECUTION_WINDOW);
      DispatchCurrent(w, m.pc.rest[0], queue, m.pc.rest[1..]);
    } else if m.pc.HasJob() {
      var job := m.pc.job;
      JobTouches(w, m.pc, c);
      forall k | 0 <= k < |job.queue| && job.queue[k].status == ExecPending
        ensures HasExecution(m'.world, job.queue[k].id) && m'.world.executions[job.queue[k].id].status == ExecPending
      {
        assert job.queue[k].id != job.execution.id;
      }
      DispatchCurrent(m'.world, job.workflow, job.queue, job.rest);
      JobKeepsCurrent(w, m.pc, c);
    }
  }

  lemma {:induction false} JobKeepsCurrent(w: World, pc: Pc, c: Choice)
    requires pc.HasJob() && HasExecution(w, pc.job.execution.id) && FocusOk(w, pc)
    requires w.executions[pc.job.execution.id].status == (if pc.Starting? then ExecPending else ExecRunning)
    requires pc.Skipping? || pc.Confirming? ==> pc.why.StepError?
    ensures StaysOnRow(pc, JobStep(w, pc, c))
  {
    if pc.Starting? || pc.Marking? || pc.Checking? || pc.Creating? || pc.Finishing? {
      HeadKeepsCurrent(w, pc, c);
    } else {
      RowKeepsCurrent(w, pc, c);
    }
  }

  /** The engine lets its execution go, or stays with it and finds it Running next. */
  predicate StaysOnRow(pc: Pc, m': Machine)
    requires pc.HasJob()
  {
    || m'.pc == Resume(pc.job)
    || (&& m'.pc.HasJob() && !m'.pc.Starting?
        && m'.pc.job.execution.id == pc.job.execution.id && m'.pc.job.queue == pc.job.queue
        && HasExecution(m'.world, pc.job.execution.id) && m'.world.executions[pc.job.execution.id].status == ExecRunning
        && (m'.pc.Skipping? || m'.pc.Confirming? ==> m'.pc.why.StepError?))
  }

  lemma {:induction false} HeadKeepsCurrent(w: World, pc: Pc, c: Choice)
    requires pc.Starting? || pc.Marking? || pc.Checking? || pc.Creating? || pc.Finishing?
    requires HasExecution(w, pc.job.execution.id) && FocusOk(w, pc)
    requires w.executions[pc.job.execution.id].status == (if pc.Starting? then ExecPending else ExecRunning)
    ensures StaysOnRow(pc, JobStep(w, pc, c))
  {
  }

  lemma {:induction false} RowKeepsCurrent(w: World, pc: Pc, c: Choice)
    requires pc.Launching? || pc.Executing? || pc.Recording? || pc.Skipping? || pc.Confirming?
    requires HasExecution(w, pc.job.execution.id) && FocusOk(w, pc)
    requires w.executions[pc.job.execution.id].status == ExecRunning
    requires pc.Skipping? || pc.Confirming? ==> pc.why.StepError?
    ensures StaysOnRow(pc, JobStep(w, pc, c))
  {
  }
}
