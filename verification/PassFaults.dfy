/** One pass that meets refused calls: every workflow it has listed is still asked for its executions, and an
    execution in its window fails to end only when one of its own calls is refused. */
module PassFaults {
  import opened Domain
  import opened State
  import opened Machine
  import opened Safety
  import opened Guarantees
  import opened EngineView
  import opened PollPass

  // ---- every listed workflow is asked ----

  /** The workflows the pass has still to visit, the one it is about to ask among them. */
  function ToAsk(pc: Pc): seq<Workflow> {
    if pc.Listing? then pc.rest else if pc.HasJob() then pc.job.rest else []
  }

  /** The next engine call asks for the executions of `wf`. */
  predicate Asks(pc: Pc, wf: Workflow) {
    pc.Listing? && pc.rest != [] && pc.rest[0] == wf
  }

  lemma {:induction false} DispatchToAsk(workflow: Workflow, queue: seq<Execution>, rest: seq<Workflow>)
    ensures ToAsk(NextDispatch(workflow, queue, rest)) == rest
    decreases |queue|
  {
    if queue != [] && queue[0].status != ExecPending { DispatchToAsk(workflow, queue[1..], rest); }
  }

  /** A workflow leaves the list only by being asked. */
  lemma {:induction false} StaysToAsk(m: Machine, c: Choice, wf: Workflow)
    requires wf in ToAsk(m.pc) && !Asks(m.pc, wf)
    ensures wf in ToAsk(EngineStep(m, c).pc)
  {
    if m.pc.Listing? {
      var rest := m.pc.rest;
      assert rest == [rest[0]] + rest[1..];
      DispatchToAsk(rest[0], NewestExecutions(m.world.executions, rest[0].id, EXECUTION_WINDOW), rest[1..]);
    } else {
      NextPcs(m, c);
      DispatchToAsk(m.pc.job.workflow, m.pc.job.queue, m.pc.job.rest);
    }
  }

  lemma {:induction false} TurnStaysToAsk(m: Machine, t: Turn, wf: Workflow)
    requires EngineFree(t.before) && wf in ToAsk(m.pc) && !Asks(m.pc, wf)
    ensures wf in ToAsk(TakeTurn(m, t).pc)
  {
    hide Execute;
    hide EngineStep;
    OthersLeaveEngine(m.world, m.pc, m.pc, t.before);
    StaysToAsk(Execute(m, t.before), t.choice, wf);
  }

  lemma {:induction false} IsAsked(origin: Machine, oracle: nat -> Turn, from: nat, n: nat, wf: Workflow)
    returns (k: nat)
    requires forall j :: EngineFree(oracle(j).before)
    requires from <= n && Reach(origin, oracle, n).pc.Idle? && wf in ToAsk(Reach(origin, oracle, from).pc)
    ensures from <= k < n && Asks(Reach(origin, oracle, k).pc, wf)
    decreases n - from
  {
    hide TakeTurn;
    var m := Reach(origin, oracle, from);
    if Asks(m.pc, wf) {
      k := from;
    } else {
      TurnStaysToAsk(m, oracle(from), wf);
      k := IsAsked(origin, oracle, from + 1, n, wf);
    }
  }

  lemma {:induction false} PassBegins(m: Machine, t: Turn)
    requires EngineFree(t.before) && m.pc.Idle? && t.choice.fault.None?
    ensures ToAsk(TakeTurn(m, t).pc) == NewestWorkflows(Execute(m, t.before).world.workflows, 100)
  {
    hide Execute;
    OthersLeaveEngine(m.world, m.pc, m.pc, t.before);
    assert m == Machine(m.world, Idle) && Execute(m, t.before).pc == Idle;
  }

  /** Whatever is refused after a pass has got its list of workflows, and whatever the services do meanwhile:
      before the engine is idle again it asks for the executions of each of the newest 100 workflows that the
      store held when the pass began. */
  lemma {:induction false} EveryListedIsAsked(
      origin: Machine, oracle: nat -> Turn, from: nat, n: nat, wf: Workflow) returns (k: nat)
    requires forall j :: EngineFree(oracle(j).before)
    requires from < n && Reach(origin, oracle, from).pc.Idle? && Reach(origin, oracle, n).pc.Idle?
    requires oracle(from).choice.fault.None?
    requires wf in NewestWorkflows(Execute(Reach(origin, oracle, from), oracle(from).before).world.workflows, 100)
    ensures from < k < n && Asks(Reach(origin, oracle, k).pc, wf)
  {
    hide TakeTurn;
    hide Execute;
    PassBegins(Reach(origin, oracle, from), oracle(from));
    k := IsAsked(origin, oracle, from + 1, n, wf);
  }

  // ---- exactly what keeps an execution from ending ----

  /** A refused call that makes the pass go on without ending `e`: the listing of its workflow, one of its
      Running writes, one of its pre-step reads or its final write. */
  predicate Misses(m: Machine, c: Choice, e: nat) {
    && c.fault.Some? && HasExecution(m.world, e)
    && if m.pc.Listing? then m.pc.rest != [] && m.pc.rest[0].id == m.world.executions[e].workflowId
       else
         && m.pc.Focus() == Some(e)
         && (m.pc.Starting? || m.pc.Marking? || m.pc.Checking? || m.pc.Finishing?)
  }

  /** How far the pass is with `e`: it is still to come, it is in the engine's hands, it has ended, or (exactly
      if `missed`) the pass has gone on without ending it. */
  predicate SoFar(m: Machine, e: nat, missed: bool) {
    && HasExecution(m.world, e)
    && Newer(m.world.executions, e, m.world.executions[e].workflowId) < EXECUTION_WINDOW
    && var status := m.world.executions[e].status;
    && if missed then (status == ExecPending || status == ExecRunning) && !Ahead(m.world, m.pc, e)
       else
         || (status == ExecPending && Ahead(m.world, m.pc, e) && (m.pc.Focus() == Some(e) ==> m.pc.Starting?))
         || (status == ExecRunning && m.pc.Focus() == Some(e) && !m.pc.Starting?)
         || (Terminal(status) && !Ahead(m.world, m.pc, e))
  }

  lemma {:induction false} DispatchAheadIff(
      w: World, workflow: Workflow, queue: seq<Execution>, rest: seq<Workflow>, e: nat)
    requires e < |w.executions|
    ensures Ahead(w, NextDispatch(workflow, queue, rest), e)
       <==> QueuedLater(queue, e) || ListedLater(rest, w.executions[e].workflowId)
    ensures var pc := NextDispatch(workflow, queue, rest); pc.Focus() == Some(e) ==> pc.Starting?
    decreases |queue|
  {
    if queue != [] {
      var tail := queue[1..];
      assert forall k :: 0 <= k < |tail| ==> tail[k] == queue[k + 1];
      if QueuedLater(queue, e) && (queue[0].id != e || queue[0].status != ExecPending) {
        var k :| 0 <= k < |queue| && queue[k].id == e && queue[k].status == ExecPending;
        assert tail[k - 1].id == e;
      }
      if queue[0].status != ExecPending { DispatchAheadIff(w, workflow, tail, rest, e); }
    }
  }

  /** A job step of an undisturbed engine with a live context, whatever is refused. */
  predicate GoesOn(w: World, pc: Pc, c: Choice, m': Machine)
    requires pc.HasJob() && HasExecution(w, pc.job.execution.id)
  {
    var e := pc.job.execution.id;
    && HasExecution(m'.world, e)
    && (if c.fault.Some? && (pc.Starting? || pc.Marking? || pc.Checking? || pc.Finishing?)
        then m'.pc == Resume(pc.job) && m'.world.executions[e] == w.executions[e]
        else if pc.Finishing? then m'.pc == Resume(pc.job) && Terminal(m'.world.executions[e].status)
        else m'.pc.HasJob() && m'.pc.job.execution.id == e && !m'.pc.Starting?
             && m'.world.executions[e].status == ExecRunning)
  }

  lemma {:induction false} JobGoesOn(w: World, pc: Pc, c: Choice)
    requires pc.HasJob() && HasExecution(w, pc.job.execution.id) && FocusOk(w, pc) && !c.ctxDone
    requires w.executions[pc.job.execution.id].status == (if pc.Starting? then ExecPending else ExecRunning)
    requires pc.Skipping? || pc.Confirming? ==> pc.why.StepError?
    ensures GoesOn(w, pc, c, JobStep(w, pc, c))
  {
    if pc.Starting? || pc.Marking? || pc.Checking? || pc.Creating? || pc.Finishing? {
      HeadGoesOn(w, pc, c);
    } else {
      RowGoesOn(w, pc, c);
    }
  }

  lemma {:induction false} HeadGoesOn(w: World, pc: Pc, c: Choice)
    requires pc.Starting? || pc.Marking? || pc.Checking? || pc.Creating? || pc.Finishing?
    requires HasExecution(w, pc.job.execution.id) && FocusOk(w, pc) && !c.ctxDone
    requires w.executions[pc.job.execution.id].status == (if pc.Starting? then ExecPending else ExecRunning)
    ensures GoesOn(w, pc, c, JobStep(w, pc, c))
  {
  }

  lemma {:induction false} RowGoesOn(w: World, pc: Pc, c: Choice)
    requires pc.Launching? || pc.Executing? || pc.Recording? || pc.Skipping? || pc.Confirming?
    requires HasExecution(w, pc.job.execution.id) && FocusOk(w, pc)
    requires w.executions[pc.job.execution.id].status == ExecRunning
    requires pc.Skipping? || pc.Confirming? ==> pc.why.StepError?
    ensures GoesOn(w, pc, c, JobStep(w, pc, c))
  {
  }

  /** What a job step makes of the place of `e` in the pass: the job is still in hand, or the rest is up next. */
  predicate Moves(m: Machine, m': Machine, e: nat) {
    && m.pc.HasJob() && HasExecution(m.world, e) && HasExecution(m'.world, e)
    && m'.world.executions[e].workflowId == m.world.executions[e].workflowId
    && (Newer(m.world.executions, e, m.world.executions[e].workflowId) < EXECUTION_WINDOW ==>
          Newer(m'.world.executions, e, m.world.executions[e].workflowId) < EXECUTION_WINDOW)
    && var job, id := m.pc.job, m.world.executions[e].workflowId;
    && (m'.pc == Resume(job) ==>
          && (Ahead(m'.world, m'.pc, e) <==> QueuedLater(job.queue, e) || ListedLater(job.rest, id))
          && (m'.pc.Focus() == Some(e) ==> m'.pc.Starting?))
    && (m'.pc != Resume(job) ==>
          && m'.pc.HasJob() && m'.pc.job.execution.id == job.execution.id
          && m'.pc.job.queue == job.queue && m'.pc.job.rest == job.rest)
  }

  lemma {:induction false} JobMoves(m: Machine, c: Choice, e: nat)
    requires Inv(m) && m.pc.HasJob() && HasExecution(m.world, e)
    ensures Moves(m, EngineStep(m, c), e)
  {
    hide EngineStep;
    hide FocusOk;
    var job, m', id := m.pc.job, EngineStep(m, c), m.world.executions[e].workflowId;
    EngineKeepsWorkflowIds(m, c);
    EngineKeepsInv(m, c);
    NewerOnlyWorkflowIds(m.world.executions, m'.world.executions, e, id);
    DispatchAheadIff(m'.world, job.workflow, job.queue, job.rest, e);
    NextPcs(m, c);
  }

  /** The engine is at `e` itself. */
  lemma {:induction false} FocusSoFar(m: Machine, c: Choice, m': Machine, missed: bool)
    requires m.pc.HasJob() && JobOk(m.world, m.pc.job) && SoFar(m, m.pc.job.execution.id, missed)
    requires Moves(m, m', m.pc.job.execution.id) && GoesOn(m.world, m.pc, c, m')
    ensures SoFar(m', m.pc.job.execution.id, missed || Misses(m, c, m.pc.job.execution.id))
  {
    hide Newer;
    var job, e := m.pc.job, m.pc.job.execution.id;
    assert !QueuedLater(job.queue, e) && !ListedLater(job.rest, m.world.executions[e].workflowId);
  }

  /** The engine is at another execution. */
  lemma {:induction false} OtherSoFar(m: Machine, c: Choice, m': Machine, e: nat, missed: bool)
    requires SoFar(m, e, missed) && Moves(m, m', e) && m.pc.job.execution.id != e
    requires m'.world.executions[e] == m.world.executions[e]
    ensures SoFar(m', e, missed || Misses(m, c, e))
  {
    hide Newer;
  }

  /** While the engine is at a job. */
  lemma {:induction false} JobSoFar(m: Machine, c: Choice, e: nat, missed: bool)
    requires Inv(m) && Current(m) && m.pc.HasJob() && !c.ctxDone && SoFar(m, e, missed)
    ensures SoFar(EngineStep(m, c), e, missed || Misses(m, c, e))
  {
    hide SoFar;
    hide Misses;
    hide Moves;
    hide EngineStep;
    hide FocusOk;
    assert HasExecution(m.world, e) by { SoFarHas(m, e, missed); }
    JobMoves(m, c, e);
    if m.pc.Focus() == Some(e) {
      AtFocusGoesOn(m, c);
      FocusSoFar(m, c, EngineStep(m, c), missed);
    } else {
      EngineTouches(m, c, e);
      OtherSoFar(m, c, EngineStep(m, c), e, missed);
    }
  }

  lemma {:induction false} SoFarHas(m: Machine, e: nat, missed: bool)
    requires SoFar(m, e, missed)
    ensures HasExecution(m.world, e)
  {
  }

  lemma {:induction false} AtFocusGoesOn(m: Machine, c: Choice)
    requires Inv(m) && Current(m) && m.pc.HasJob() && !c.ctxDone
    ensures HasExecution(m.world, m.pc.job.execution.id)
    ensures GoesOn(m.world, m.pc, c, EngineStep(m, c))
  {
    hide FocusOk;
    hide JobStep;
    JobGoesOn(m.world, m.pc, c);
  }

  /** While the engine is between jobs. */
  lemma {:induction false} ListingSoFar(m: Machine, c: Choice, e: nat, missed: bool)
    requires Inv(m) && m.pc.Listing? && SoFar(m, e, missed)
    ensures SoFar(EngineStep(m, c), e, missed || Misses(m, c, e))
  {
    var rest, id := m.pc.rest, m.world.executions[e].workflowId;
    if rest != [] {
      var tail := rest[1..];
      var queue := NewestExecutions(m.world.executions, rest[0].id, EXECUTION_WINDOW);
      assert forall k :: 0 <= k < |tail| ==> tail[k] == rest[k + 1];
      assert ListedLater(rest, id) <==> rest[0].id == id || ListedLater(tail, id);
      DispatchAheadIff(m.world, rest[0], queue, tail, e);
      QueuedIff(m, e);
    }
  }

  /** The listing of the next workflow has `e` as pending exactly when it is the one of `e` and `e` is pending. */
  lemma {:induction false} QueuedIff(m: Machine, e: nat)
    requires Inv(m) && m.pc.Listing? && m.pc.rest != [] && e < |m.world.executions|
    requires Newer(m.world.executions, e, m.world.executions[e].workflowId) < EXECUTION_WINDOW
    ensures QueuedLater(NewestExecutions(m.world.executions, m.pc.rest[0].id, EXECUTION_WINDOW), e)
       <==> m.pc.rest[0].id == m.world.executions[e].workflowId && m.world.executions[e].status == ExecPending
  {
    var rows, id := m.world.executions, m.pc.rest[0].id;
    var queue := NewestExecutions(rows, id, EXECUTION_WINDOW);
    forall x | 0 <= x < |rows| ensures rows[x].id == x { assert ExecutionOk(m.world, x); }
    ListingOk(rows, id, EXECUTION_WINDOW);
    ListedIffNewest(rows, id, EXECUTION_WINDOW, e);
    if rows[e] in queue {
      var k :| 0 <= k < |queue| && queue[k] == rows[e];
      assert queue[k].id == e;
    }
  }

  /** Some call of the first `n` turns was such a one. */
  predicate MissedBy(origin: Machine, oracle: nat -> Turn, e: nat, n: nat) {
    exists k: nat :: k < n && Misses(Reach(origin, oracle, k), oracle(k).choice, e)
  }

  /** A pass that the engine makes alone and with a live context. */
  predicate Alone(origin: Machine, oracle: nat -> Turn, n: nat) {
    && oracle(0).choice.fault.None?
    && (forall k: nat :: k < n ==> oracle(k).before == [] && !oracle(k).choice.ctxDone)
    && (forall k: nat :: 0 < k < n ==> !Reach(origin, oracle, k).pc.Idle?)
  }

  lemma {:induction false} PassSoFar(w0: World, oracle: nat -> Turn, n: nat, e: nat)
    requires Inv(Machine(w0, Idle)) && n > 0 && Alone(Machine(w0, Idle), oracle, n)
    requires Visible(w0, e) && w0.executions[e].status == ExecPending
    ensures var origin := Machine(w0, Idle);
            && Inv(Reach(origin, oracle, n)) && Current(Reach(origin, oracle, n))
            && SoFar(Reach(origin, oracle, n), e, MissedBy(origin, oracle, e, n))
  {
    hide Inv;
    hide Current;
    hide SoFar;
    hide Misses;
    hide TakeTurn;
    var origin := Machine(w0, Idle);
    if n == 1 {
      PassOpens(w0, oracle(0), e);
      assert Reach(origin, oracle, 0) == origin;
    } else {
      var m, t, missed := Reach(origin, oracle, n - 1), oracle(n - 1), MissedBy(origin, oracle, e, n - 1);
      PassSoFar(w0, oracle, n - 1, e);
      TurnSoFar(m, t, e, missed);
      assert MissedBy(origin, oracle, e, n) <==> missed || Misses(m, t.choice, e);
    }
  }

  lemma {:induction false} TurnSoFar(m: Machine, t: Turn, e: nat, missed: bool)
    requires Inv(m) && Current(m) && !m.pc.Idle? && SoFar(m, e, missed) && t.before == [] && !t.choice.ctxDone
    ensures Inv(TakeTurn(m, t)) && Current(TakeTurn(m, t))
    ensures SoFar(TakeTurn(m, t), e, missed || Misses(m, t.choice, e))
  {
    hide Inv;
    hide Current;
    hide SoFar;
    hide Misses;
    hide EngineStep;
    QuietTurn(m, t);
    EngineKeepsInv(m, t.choice);
    WorkKeepsCurrent(m, t.choice);
    if m.pc.Listing? { ListingSoFar(m, t.choice, e, missed); } else { JobSoFar(m, t.choice, e, missed); }
  }

  lemma {:induction false} QuietTurn(m: Machine, t: Turn)
    requires t.before == []
    ensures TakeTurn(m, t) == EngineStep(m, t.choice)
  {
  }

  lemma {:induction false} PassOpens(w0: World, t: Turn, e: nat)
    requires Inv(Machine(w0, Idle)) && t.before == [] && t.choice.fault.None?
    requires Visible(w0, e) && w0.executions[e].status == ExecPending
    ensures var m := Machine(w0, Idle);
            && Inv(TakeTurn(m, t)) && Current(TakeTurn(m, t))
            && SoFar(TakeTurn(m, t), e, false) && !Misses(m, t.choice, e)
  {
    QuietTurn(Machine(w0, Idle), t);
    EngineKeepsInv(Machine(w0, Idle), t.choice);
    WorkKeepsCurrent(Machine(w0, Idle), t.choice);
    var listed, id := NewestWorkflows(w0.workflows, WORKFLOW_WINDOW), w0.executions[e].workflowId;
    assert ExecutionOk(w0, e);
    WindowOk(w0.workflows, WORKFLOW_WINDOW);
    WorkflowListedIffNewest(w0.workflows, WORKFLOW_WINDOW, id);
    var k :| 0 <= k < |listed| && listed[k] == w0.workflows[id];
    assert listed[k].id == id;
  }

  /** Coverage under faults, as an iff: in a pass that gets its list of workflows, is not interfered with and keeps
      its context, a pending execution in the window ends Succeeded or Failed exactly when none of the listing
      of its workflow, its Running writes, its pre-step reads and its final write is refused. No refusal that
      concerns another execution or another workflow matters, nor does one of a step row. An execution that
      does not end is left Pending or Running. */
  lemma {:induction false} PassCoversUnderFaults(w0: World, oracle: nat -> Turn, n: nat, e: nat)
    requires Inv(Machine(w0, Idle)) && n > 0 && Alone(Machine(w0, Idle), oracle, n)
    requires Reach(Machine(w0, Idle), oracle, n).pc.Idle?
    requires Visible(w0, e) && w0.executions[e].status == ExecPending
    ensures var origin := Machine(w0, Idle);
            var w := Reach(origin, oracle, n).world;
            && e < |w.executions|
            && (Terminal(w.executions[e].status) <==> !MissedBy(origin, oracle, e, n))
            && (!Terminal(w.executions[e].status) ==>
                  w.executions[e].status == ExecPending || w.executions[e].status == ExecRunning)
  {
    PassSoFar(w0, oracle, n, e);
  }

  // ---- every remaining step is tried ----

  /** The skipping loop has not yet passed step `j`. */
  predicate SkipsLater(pc: Pc, job: Job, why: Why, j: nat) {
    (pc.Skipping? || pc.Confirming?) && pc.job == job && pc.why == why && (if pc.Skipping? then pc.i <= j else pc.i < j)
  }

  lemma {:induction false} OneSkipOn(w: World, pc: Pc, c: Choice, job: Job, why: Why, j: nat)
    requires SkipsLater(pc, job, why, j) && pc != Skipping(job, j, why) && j < |job.workflow.steps|
    ensures SkipsLater(JobStep(w, pc, c).pc, job, why, j)
  {
  }

  /** The row that skipping writes, when it is not refused. */
  predicate SkippedRowAt(w: World, c: Choice, w': World, job: Job, j: nat) {
    var e := job.execution.id;
    c.fault.None? && HasExecution(w, e) && j < |job.workflow.steps| ==>
      var row := StepRow(e, job.workflow.steps[j].name, StepSkipped, None, None, None, Blank, ByEngine(j));
      w'.stepRows == w.stepRows[e := w.stepRows[e] + [row]]
  }

  lemma {:induction false} TurnSkips(m: Machine, t: Turn, job: Job, why: Why, j: nat)
    requires EngineFree(t.before) && SkipsLater(m.pc, job, why, j) && j < |job.workflow.steps|
    ensures m.pc != Skipping(job, j, why) ==> SkipsLater(TakeTurn(m, t).pc, job, why, j)
    ensures m.pc == Skipping(job, j, why) ==>
              SkippedRowAt(Execute(m, t.before).world, t.choice, TakeTurn(m, t).world, job, j)
  {
    hide Execute;
    OthersLeaveEngine(m.world, m.pc, m.pc, t.before);
    assert m == Machine(m.world, m.pc);
    if m.pc != Skipping(job, j, why) {
      OneSkipOn(Execute(m, t.before).world, m.pc, t.choice, job, why, j);
    }
  }

  /** Whatever is refused and whoever interferes: once the engine skips what is left of an execution, it tries
      every remaining step in turn before it is idle again, and the try at turn `k` adds that step's skipped row
      unless it is refused itself. */
  lemma {:induction false} EveryRemainingStepIsTried(origin: Machine, oracle: nat -> Turn, from: nat, n: nat, j: nat)
    returns (k: nat)
    requires forall i :: EngineFree(oracle(i).before)
    requires from <= n && Reach(origin, oracle, n).pc.Idle?
    requires var pc := Reach(origin, oracle, from).pc;
             (pc.Skipping? || pc.Confirming?) && SkipsLater(pc, pc.job, pc.why, j) && j < |pc.job.workflow.steps|
    ensures var pc := Reach(origin, oracle, from).pc;
            && from <= k < n && Reach(origin, oracle, k).pc == Skipping(pc.job, j, pc.why)
            && SkippedRowAt(Execute(Reach(origin, oracle, k), oracle(k).before).world, oracle(k).choice,
                            Reach(origin, oracle, k + 1).world, pc.job, j)
    decreases n - from
  {
    hide TakeTurn;
    hide Execute;
    hide SkippedRowAt;
    var m := Reach(origin, oracle, from);
    TurnSkips(m, oracle(from), m.pc.job, m.pc.why, j);
    if m.pc == Skipping(m.pc.job, j, m.pc.why) {
      k := from;
    } else {
      k := EveryRemainingStepIsTried(origin, oracle, from + 1, n, j);
    }
  }
}
