/** One pass of the poll loop: it ends, it drives every pending execution it can see to its end, it leaves
    the others alone, and a second pass then finds nothing to do. */
module PollPass {
  import opened Domain
  import opened State
  import opened Machine
  import opened Safety
  import opened Guarantees
  import opened EngineView

  // ---- every pass ends ----

  function JobCost(steps: nat): nat {
    7 * steps + 3
  }

  function QueueCost(queue: seq<Execution>, steps: nat): nat {
    if queue == [] then 0 else JobCost(steps) + QueueCost(queue[1..], steps)
  }

  function RestCost(rest: seq<Workflow>): nat {
    if rest == [] then 0 else 1 + EXECUTION_WINDOW * JobCost(|rest[0].steps|) + RestCost(rest[1..])
  }

  /** A bound on the engine steps left for the execution in focus. */
  function JobRest(pc: Pc): int
    requires pc.HasJob()
  {
    var n := |pc.job.workflow.steps|;
    match pc
    case Starting(_) => 7 * n + 3
    case Marking(_) => 7 * n + 2
    case Checking(_, i) => 7 * (n - i) + 1
    case Creating(_, i) => 7 * (n - i)
    case Launching(_, i, _) => 7 * (n - i) - 1
    case Executing(_, i, _) => 7 * (n - i) - 2
    case Recording(_, i, _, _) => 7 * (n - i) - 3
    case Skipping(_, i, _) => 2 * (n - i) + 1
    case Confirming(_, i, _, _) => 2 * (n - i)
    case Finishing(_) => 1
  }

  /** A bound on the engine steps left in the pass. */
  function Remaining(pc: Pc): int {
    match pc
    case Idle => 0
    case Listing(rest) => RestCost(rest) + 1
    case _ => JobRest(pc) + QueueCost(pc.job.queue, |pc.job.workflow.steps|) + RestCost(pc.job.rest) + 1
  }

  lemma {:induction false} DispatchRemaining(workflow: Workflow, queue: seq<Execution>, rest: seq<Workflow>)
    ensures 0 <= Remaining(NextDispatch(workflow, queue, rest))
    ensures Remaining(NextDispatch(workflow, queue, rest)) <= QueueCost(queue, |workflow.steps|) + RestCost(rest) + 1
    decreases |queue|
  {
    if queue != [] && queue[0].status != ExecPending { DispatchRemaining(workflow, queue[1..], rest); }
  }

  lemma {:induction false} QueueCostBound(queue: seq<Execution>, steps: nat)
    ensures QueueCost(queue, steps) == |queue| * JobCost(steps)
  {
    if queue != [] { QueueCostBound(queue[1..], steps); }
  }

  /** Whatever faults, results and interference, each engine step brings the end of the pass closer. */
  lemma {:induction false} RemainingDecreases(m: Machine, c: Choice)
    requires Inv(m) && !m.pc.Idle?
    ensures 0 <= Remaining(EngineStep(m, c).pc) < Remaining(m.pc)
  {
    if m.pc.Listing? {
      if m.pc.rest != [] {
        var rest := m.pc.rest;
        var queue := NewestExecutions(m.world.executions, rest[0].id, EXECUTION_WINDOW);
        forall e | 0 <= e < |m.world.executions| ensures m.world.executions[e].id == e {
          assert ExecutionOk(m.world, e);
        }
        ListingOk(m.world.executions, rest[0].id, EXECUTION_WINDOW);
        QueueCostBound(queue, |rest[0].steps|);
        AtMost(|queue|, EXECUTION_WINDOW, JobCost(|rest[0].steps|));
        DispatchRemaining(rest[0], queue, rest[1..]);
      }
    } else {
      assert FocusOk(m.world, m.pc);
      DispatchRemaining(m.pc.job.workflow, m.pc.job.queue, m.pc.job.rest);
      JobRemaining(m.world, m.pc, c);
    }
  }

  lemma {:induction false} AtMost(a: nat, b: nat, c: nat)
    requires a <= b
    ensures a * c <= b * c
  {
  }

  /** A job step lets the job go or brings its end closer. */
  predicate ComesCloser(pc: Pc, pc': Pc)
    requires pc.HasJob()
  {
    && 0 < JobRest(pc)
    && (|| pc' == Resume(pc.job)
        || (&& pc'.HasJob() && 0 <= JobRest(pc') < JobRest(pc)
            && pc'.job.queue == pc.job.queue && pc'.job.rest == pc.job.rest && pc'.job.workflow == pc.job.workflow))
  }

  lemma {:induction false} JobRemaining(w: World, pc: Pc, c: Choice)
    requires pc.HasJob() && FocusOk(w, pc)
    ensures ComesCloser(pc, JobStep(w, pc, c).pc)
  {
    if pc.Skipping? || pc.Confirming? {
      SkipRemaining(w, pc, c);
    } else if pc.Starting? || pc.Marking? || pc.Finishing? {
      EdgeRemaining(w, pc, c);
    } else {
      StepRemaining(w, pc, c);
    }
  }

  lemma {:induction false} SkipRemaining(w: World, pc: Pc, c: Choice)
    requires (pc.Skipping? || pc.Confirming?) && FocusOk(w, pc)
    ensures ComesCloser(pc, JobStep(w, pc, c).pc)
  {
  }

  lemma {:induction false} EdgeRemaining(w: World, pc: Pc, c: Choice)
    requires (pc.Starting? || pc.Marking? || pc.Finishing?) && FocusOk(w, pc)
    ensures ComesCloser(pc, JobStep(w, pc, c).pc)
  {
  }

  lemma {:induction false} StepRemaining(w: World, pc: Pc, c: Choice)
    requires pc.Checking? || pc.Creating? || pc.Launching? || pc.Executing? || pc.Recording?
    requires FocusOk(w, pc)
    ensures ComesCloser(pc, JobStep(w, pc, c).pc)
  {
  }

  /** A pass ends: from any point of it, under any interference of the services and any faults, the engine is idle again
      after at most the remaining number of its own steps. */
  lemma {:induction false} PassTerminates(origin: Machine, oracle: nat -> Turn, from: nat) returns (n: nat)
    requires Inv(Reach(origin, oracle, from)) && forall k :: EngineFree(oracle(k).before)
    ensures from <= n <= from + Remaining(Reach(origin, oracle, from).pc)
    ensures Reach(origin, oracle, n).pc.Idle?
    decreases Remaining(Reach(origin, oracle, from).pc)
  {
    var m := Reach(origin, oracle, from);
    if m.pc.Idle? {
      n := from;
    } else {
      var m1 := Execute(m, oracle(from).before);
      ExecuteKeepsInv(m, oracle(from).before);
      OthersLeaveEngine(m.world, m.pc, m.pc, oracle(from).before);
      RemainingDecreases(m1, oracle(from).choice);
      EngineKeepsInv(m1, oracle(from).choice);
      n := PassTerminates(origin, oracle, from + 1);
    }
  }

  /** The machine the engine's code follows satisfies the invariant at every turn. */
  lemma {:induction false} ReachInv(origin: Machine, oracle: nat -> Turn, n: nat)
    requires Inv(origin)
    ensures Inv(Reach(origin, oracle, n))
  {
    if n != 0 {
      ReachInv(origin, oracle, n - 1);
      var m := Reach(origin, oracle, n - 1);
      ExecuteKeepsInv(m, oracle(n - 1).before);
      EngineKeepsInv(Execute(m, oracle(n - 1).before), oracle(n - 1).choice);
    }
  }

  // ---- the window ----

  /** How many executions of the same workflow are newer than `e`. */
  function Newer(rows: seq<Execution>, e: nat, workflowId: nat): nat
    decreases |rows|
  {
    if |rows| == 0 || |rows| - 1 <= e then 0
    else (if rows[|rows| - 1].workflowId == workflowId then 1 else 0) + Newer(rows[..|rows| - 1], e, workflowId)
  }

  /** A pass can see `e`: its workflow is among the newest 100 and fewer than 10 of that workflow's executions
      are newer. */
  predicate Visible(w: World, e: nat) {
    && e < |w.executions|
    && |w.workflows| <= w.executions[e].workflowId + 100
    && Newer(w.executions, e, w.executions[e].workflowId) < 10
  }

  /** The listing holds exactly the rows of the workflow with fewer than `limit` newer ones. */
  lemma {:induction false} ListedIffNewest(rows: seq<Execution>, workflowId: nat, limit: nat, e: nat)
    requires (forall k :: 0 <= k < |rows| ==> rows[k].id == k) && e < |rows|
    ensures rows[e] in NewestExecutions(rows, workflowId, limit)
       <==> rows[e].workflowId == workflowId && Newer(rows, e, workflowId) < limit
  {
    var n := |rows| - 1;
    if limit == 0 {
    } else if e == n {
      ListingOk(rows[..n], workflowId, limit);
    } else {
      assert rows[..n][e] == rows[e];
      if rows[n].workflowId == workflowId {
        ListedIffNewest(rows[..n], workflowId, limit - 1, e);
      } else {
        ListedIffNewest(rows[..n], workflowId, limit, e);
      }
    }
  }

  lemma {:induction false} WorkflowListedIffNewest(rows: seq<Workflow>, limit: nat, k: nat)
    requires (forall j :: 0 <= j < |rows| ==> rows[j].id == j) && k < |rows|
    ensures rows[k] in NewestWorkflows(rows, limit) <==> |rows| <= k + limit
  {
    var n := |rows| - 1;
    if limit == 0 {
    } else if k < n {
      assert rows[..n][k] == rows[k];
      WorkflowListedIffNewest(rows[..n], limit - 1, k);
    }
  }

  lemma {:induction false} NewerOnlyWorkflowIds(rows: seq<Execution>, rows': seq<Execution>, e: nat, workflowId: nat)
    requires |rows| == |rows'| && forall k :: 0 <= k < |rows| ==> rows[k].workflowId == rows'[k].workflowId
    ensures Newer(rows, e, workflowId) == Newer(rows', e, workflowId)
    decreases |rows|
  {
    if |rows| != 0 && |rows| - 1 > e {
      NewerOnlyWorkflowIds(rows[..|rows| - 1], rows'[..|rows| - 1], e, workflowId);
    }
  }

  // ---- coverage ----

  /** No interference, no fault, a live context. */
  predicate Quiet(t: Turn) {
    t.before == [] && t.choice.fault.None? && !t.choice.ctxDone
  }

  /** The pass still has `e` to come. */
  predicate Ahead(w: World, pc: Pc, e: nat)
    requires e < |w.executions|
  {
    || (pc.Listing? && ListedLater(pc.rest, w.executions[e].workflowId))
    || (pc.HasJob() && (|| pc.job.execution.id == e
                        || QueuedLater(pc.job.queue, e)
                        || ListedLater(pc.job.rest, w.executions[e].workflowId)))
  }

  predicate ListedLater(rest: seq<Workflow>, workflowId: nat) {
    exists k :: 0 <= k < |rest| && rest[k].id == workflowId
  }

  /** During a quiet pass that started on `w0`. */
  predicate Covering(w0: World, m: Machine) {
    && Inv(m) && Current(m)
    && m.world.workflows == w0.workflows
    && |m.world.executions| == |w0.executions|
    && (forall e :: 0 <= e < |w0.executions| ==> m.world.executions[e].workflowId == w0.executions[e].workflowId)
    && (forall e :: 0 <= e < |w0.executions| ==> AsBefore(w0, m, e) || Driven(w0, m, e))
    && (forall e :: 0 <= e < |w0.executions| && Visible(w0, e) && m.world.executions[e].status == ExecPending ==>
          Ahead(m.world, m.pc, e))
    && (m.pc.Listing? ==> InWindow(w0, m.pc.rest))
    && (m.pc.HasJob() ==> JobCovered(w0, m.pc.job))
  }

  predicate AsBefore(w0: World, m: Machine, e: nat)
    requires e < |w0.executions| && |m.world.executions| == |w0.executions|
  {
    m.world.executions[e] == w0.executions[e]
  }

  predicate Driven(w0: World, m: Machine, e: nat)
    requires e < |w0.executions| && |m.world.executions| == |w0.executions|
  {
    && Visible(w0, e) && w0.executions[e].status == ExecPending
    && (Terminal(m.world.executions[e].status) || m.pc.Focus() == Some(e))
  }

  /** What a job has in hand and to come was pending and visible at the start of the pass. */
  predicate JobCovered(w0: World, job: Job) {
    && Visible(w0, job.execution.id) && w0.executions[job.execution.id].status == ExecPending
    && InWindow(w0, job.rest) && VisibleQueue(w0, job.queue)
  }

  predicate InWindow(w0: World, rest: seq<Workflow>) {
    forall k :: 0 <= k < |rest| ==> |w0.workflows| <= rest[k].id + WORKFLOW_WINDOW
  }

  predicate VisibleQueue(w0: World, queue: seq<Execution>) {
    forall k :: 0 <= k < |queue| && queue[k].status == ExecPending ==>
      Visible(w0, queue[k].id) && w0.executions[queue[k].id].status == ExecPending
  }

  lemma {:induction false} DispatchAhead(
      w0: World, w: World, workflow: Workflow, queue: seq<Execution>, rest: seq<Workflow>)
    requires InWindow(w0, rest) && VisibleQueue(w0, queue)
    ensures var pc := NextDispatch(workflow, queue, rest);
            && (forall e | 0 <= e < |w.executions| ::
                  QueuedLater(queue, e) || ListedLater(rest, w.executions[e].workflowId) ==> Ahead(w, pc, e))
            && (pc.Listing? ==> InWindow(w0, pc.rest))
            && (pc.HasJob() ==> JobCovered(w0, pc.job))
    decreases |queue|
  {
    if queue != [] {
      var tail := queue[1..];
      assert forall k :: 0 <= k < |tail| ==> tail[k] == queue[k + 1];
      forall e | QueuedLater(queue, e) && queue[0].id != e ensures QueuedLater(tail, e) {
        var k :| 0 <= k < |queue| && queue[k].id == e && queue[k].status == ExecPending;
        assert tail[k - 1].id == e;
      }
      if queue[0].status != ExecPending {
        forall e | QueuedLater(queue, e) ensures QueuedLater(tail, e) {
          var k :| 0 <= k < |queue| && queue[k].id == e && queue[k].status == ExecPending;
          assert tail[k - 1].id == e;
        }
        DispatchAhead(w0, w, workflow, tail, rest);
      }
    }
  }

  /** In a quiet pass the engine lets go of an execution only when it has driven it to its end. */
  lemma {:induction false} QuietJob(w: World, pc: Pc, c: Choice)
    requires pc.HasJob() && HasExecution(w, pc.job.execution.id) && FocusOk(w, pc)
    requires w.executions[pc.job.execution.id].status == (if pc.Starting? then ExecPending else ExecRunning)
    requires pc.Skipping? || pc.Confirming? ==> pc.why.StepError?
    requires c.fault.None? && !c.ctxDone
    ensures var m', e := JobStep(w, pc, c), pc.job.execution.id;
            && HasExecution(m'.world, e)
            && m'.world.executions[e].workflowId == w.executions[e].workflowId
            && m'.world.executions[e].status != ExecPending
            && (if pc.Finishing?
                then m'.pc == Resume(pc.job) && Terminal(m'.world.executions[e].status)
                else
                  && m'.pc.HasJob() && m'.pc.job.execution.id == e
                  && m'.pc.job.queue == pc.job.queue && m'.pc.job.rest == pc.job.rest)
  {
  }

  lemma {:induction false} JobKeepsCovering(w0: World, m: Machine, c: Choice)
    requires Covering(w0, m) && m.pc.HasJob() && c.fault.None? && !c.ctxDone
    ensures Covering(w0, EngineStep(m, c))
  {
    var w, job, m' := m.world, m.pc.job, EngineStep(m, c);
    EngineKeepsInv(m, c);
    WorkKeepsCurrent(m, c);
    JobTouches(w, m.pc, c);
    QuietJob(w, m.pc, c);
    DispatchAhead(w0, m'.world, job.workflow, job.queue, job.rest);
    forall e | 0 <= e < |w0.executions|
      ensures m'.world.executions[e].workflowId == w0.executions[e].workflowId
      ensures AsBefore(w0, m', e) || Driven(w0, m', e)
      ensures Visible(w0, e) && m'.world.executions[e].status == ExecPending ==> Ahead(m'.world, m'.pc, e)
    {
      StillCovered(w0, m, c, e);
    }
  }

  lemma {:induction false} StillCovered(w0: World, m: Machine, c: Choice, e: nat)
    requires Covering(w0, m) && m.pc.HasJob() && c.fault.None? && !c.ctxDone && e < |w0.executions|
    requires HasExecution(EngineStep(m, c).world, e) && |EngineStep(m, c).world.executions| == |w0.executions|
    ensures var m' := EngineStep(m, c);
            && m'.world.executions[e].workflowId == w0.executions[e].workflowId
            && (AsBefore(w0, m', e) || Driven(w0, m', e))
            && (Visible(w0, e) && m'.world.executions[e].status == ExecPending ==> Ahead(m'.world, m'.pc, e))
  {
    var job, m' := m.pc.job, EngineStep(m, c);
    JobTouches(m.world, m.pc, c);
    QuietJob(m.world, m.pc, c);
    DispatchAhead(w0, m'.world, job.workflow, job.queue, job.rest);
    assert AsBefore(w0, m, e) || Driven(w0, m, e);
  }

  lemma {:induction false} ListedAhead(w0: World, m: Machine, e: nat)
    requires Covering(w0, m) && m.pc.Listing? && m.pc.rest != []
    requires e < |w0.executions| && Visible(w0, e) && m.world.executions[e].status == ExecPending
    ensures var queue := NewestExecutions(m.world.executions, m.pc.rest[0].id, EXECUTION_WINDOW);
            QueuedLater(queue, e) || ListedLater(m.pc.rest[1..], m.world.executions[e].workflowId)
  {
    var w, rest := m.world, m.pc.rest;
    var queue := NewestExecutions(w.executions, rest[0].id, EXECUTION_WINDOW);
    var id := w.executions[e].workflowId;
    forall x | 0 <= x < |w.executions| ensures w.executions[x].id == x { assert ExecutionOk(w, x); }
    assert ListedLater(rest, id);
    var k :| 0 <= k < |rest| && rest[k].id == id;
    if k == 0 {
      NewerOnlyWorkflowIds(w.executions, w0.executions, e, id);
      ListedIffNewest(w.executions, id, EXECUTION_WINDOW, e);
      var j :| 0 <= j < |queue| && queue[j] == w.executions[e];
      assert queue[j].id == e;
    } else {
      assert rest[1..][k - 1].id == id;
    }
  }

  lemma {:induction false} ListedVisible(w0: World, m: Machine)
    requires Covering(w0, m) && m.pc.Listing? && m.pc.rest != []
    ensures VisibleQueue(w0, NewestExecutions(m.world.executions, m.pc.rest[0].id, EXECUTION_WINDOW))
  {
    var w, id := m.world, m.pc.rest[0].id;
    var queue := NewestExecutions(w.executions, id, EXECUTION_WINDOW);
    forall x | 0 <= x < |w.executions| ensures w.executions[x].id == x { assert ExecutionOk(w, x); }
    ListingOk(w.executions, id, EXECUTION_WINDOW);
    forall k | 0 <= k < |queue| && queue[k].status == ExecPending
      ensures Visible(w0, queue[k].id) && w0.executions[queue[k].id].status == ExecPending
    {
      var e := queue[k].id;
      NewerOnlyWorkflowIds(w.executions, w0.executions, e, id);
      ListedIffNewest(w.executions, id, EXECUTION_WINDOW, e);
      assert AsBefore(w0, m, e) || Driven(w0, m, e);
    }
  }

  lemma {:induction false} ListingKeepsCovering(w0: World, m: Machine, c: Choice)
    requires Covering(w0, m) && m.pc.Listing? && c.fault.None?
    ensures Covering(w0, EngineStep(m, c))
  {
    var m' := EngineStep(m, c);
    EngineKeepsInv(m, c);
    WorkKeepsCurrent(m, c);
    if m.pc.rest != [] {
      var rest := m.pc.rest;
      var queue := NewestExecutions(m.world.executions, rest[0].id, EXECUTION_WINDOW);
      ListedVisible(w0, m);
      assert forall k :: 0 <= k < |rest[1..]| ==> rest[1..][k] == rest[k + 1];
      DispatchAhead(w0, m.world, rest[0], queue, rest[1..]);
      forall e | 0 <= e < |w0.executions| && Visible(w0, e) && m'.world.executions[e].status == ExecPending
        ensures Ahead(m'.world, m'.pc, e)
      {
        ListedAhead(w0, m, e);
      }
    }
    forall e | 0 <= e < |w0.executions| ensures AsBefore(w0, m', e) || Driven(w0, m', e) {
      assert AsBefore(w0, m, e) || Driven(w0, m, e);
    }
  }

  /** A pass begins, on the state itself or again after an earlier quiet pass. */
  lemma {:induction false} BeginCovers(w0: World, m: Machine, c: Choice)
    requires Inv(Machine(w0, Idle)) && c.fault.None?
    requires m == Machine(w0, Idle) || (Covering(w0, m) && m.pc.Idle?)
    ensures Covering(w0, EngineStep(m, c))
  {
    var w, m' := m.world, EngineStep(m, c);
    EngineKeepsInv(m, c);
    WorkKeepsCurrent(m, c);
    WindowOk(w.workflows, WORKFLOW_WINDOW);
    var listed := NewestWorkflows(w.workflows, WORKFLOW_WINDOW);
    forall k | 0 <= k < |listed| ensures |w0.workflows| <= listed[k].id + WORKFLOW_WINDOW {
      WorkflowListedIffNewest(w.workflows, WORKFLOW_WINDOW, listed[k].id);
      assert listed[k] in listed;
    }
    forall e | 0 <= e < |w0.executions| && Visible(w0, e) ensures Ahead(m'.world, m'.pc, e) {
      var id := w.executions[e].workflowId;
      assert ExecutionOk(w, e);
      WorkflowListedIffNewest(w.workflows, WORKFLOW_WINDOW, id);
      var k :| 0 <= k < |listed| && listed[k] == w.workflows[id];
      assert listed[k].id == id;
    }
    forall e | 0 <= e < |w0.executions| ensures AsBefore(w0, m', e) || Driven(w0, m', e) {
      assert m != Machine(w0, Idle) ==> AsBefore(w0, m, e) || Driven(w0, m, e);
    }
  }

  lemma {:induction false} QuietCovers(w0: World, oracle: nat -> Turn, n: nat)
    requires Inv(Machine(w0, Idle)) && n > 0 && forall k :: 0 <= k < n ==> Quiet(oracle(k))
    ensures Covering(w0, Reach(Machine(w0, Idle), oracle, n))
  {
    var m := Reach(Machine(w0, Idle), oracle, n - 1);
    assert Execute(m, oracle(n - 1).before) == m;
    if n > 1 { QuietCovers(w0, oracle, n - 1); }
    if m.pc.Idle? {
      BeginCovers(w0, m, oracle(n - 1).choice);
    } else if m.pc.Listing? {
      ListingKeepsCovering(w0, m, oracle(n - 1).choice);
    } else {
      JobKeepsCovering(w0, m, oracle(n - 1).choice);
    }
  }

  /** Coverage: without faults and interference, when the engine is idle again after a pass, every execution
      that was pending and visible has ended Succeeded or Failed, and every other execution is as it was. */
  lemma {:induction false} PassCovers(w0: World, oracle: nat -> Turn, n: nat)
    requires Inv(Machine(w0, Idle)) && n > 0 && forall k :: 0 <= k < n ==> Quiet(oracle(k))
    requires Reach(Machine(w0, Idle), oracle, n).pc.Idle?
    ensures var w := Reach(Machine(w0, Idle), oracle, n).world;
            && |w.executions| == |w0.executions|
            && (forall e :: 0 <= e < |w0.executions| ==>
                  if Visible(w0, e) && w0.executions[e].status == ExecPending
                  then Terminal(w.executions[e].status)
                  else w.executions[e] == w0.executions[e])
  {
    QuietCovers(w0, oracle, n);
    var m := Reach(Machine(w0, Idle), oracle, n);
    forall e | 0 <= e < |w0.executions|
      ensures if Visible(w0, e) && w0.executions[e].status == ExecPending then Terminal(m.world.executions[e].status)
              else m.world.executions[e] == w0.executions[e]
    {
      assert AsBefore(w0, m, e) || Driven(w0, m, e);
    }
  }

  /** With at most 100 workflows and 10 executions of each, everything is visible: nothing stays pending. */
  lemma {:induction false} NothingStaysPending(w0: World, oracle: nat -> Turn, n: nat)
    requires Inv(Machine(w0, Idle)) && n > 0 && forall k :: 0 <= k < n ==> Quiet(oracle(k))
    requires Reach(Machine(w0, Idle), oracle, n).pc.Idle?
    requires |w0.workflows| <= 100
    requires forall e :: 0 <= e < |w0.executions| ==> Newer(w0.executions, e, w0.executions[e].workflowId) < 10
    ensures forall x :: x in Reach(Machine(w0, Idle), oracle, n).world.executions ==> x.status != ExecPending
  {
    PassCovers(w0, oracle, n);
  }

  /** The store is the same and nothing in sight is pending. */
  predicate AtRest(w0: World, m: Machine) {
    m.world == w0 && !m.pc.HasJob() && (m.pc.Listing? ==> InWindow(w0, m.pc.rest))
  }

  lemma {:induction false} NoDispatch(workflow: Workflow, queue: seq<Execution>, rest: seq<Workflow>)
    requires forall k :: 0 <= k < |queue| ==> queue[k].status != ExecPending
    ensures NextDispatch(workflow, queue, rest) == NextWorkflow(rest)
    decreases |queue|
  {
    if queue != [] { NoDispatch(workflow, queue[1..], rest); }
  }

  predicate NonePending(w: World) {
    forall e :: 0 <= e < |w.executions| && Visible(w, e) ==> w.executions[e].status != ExecPending
  }

  lemma {:induction false} RestStaysAtRest(w0: World, m: Machine, c: Choice)
    requires Inv(m) && AtRest(w0, m) && NonePending(w0)
    ensures AtRest(w0, EngineStep(m, c))
  {
    WindowOk(w0.workflows, WORKFLOW_WINDOW);
    if m.pc.Idle? {
      var listed := NewestWorkflows(w0.workflows, WORKFLOW_WINDOW);
      forall k | 0 <= k < |listed| ensures |w0.workflows| <= listed[k].id + WORKFLOW_WINDOW {
        WorkflowListedIffNewest(w0.workflows, WORKFLOW_WINDOW, listed[k].id);
        assert listed[k] in listed;
      }
    } else if m.pc.rest != [] {
      var id := m.pc.rest[0].id;
      var queue := NewestExecutions(w0.executions, id, EXECUTION_WINDOW);
      forall x | 0 <= x < |w0.executions| ensures w0.executions[x].id == x { assert ExecutionOk(w0, x); }
      ListingOk(w0.executions, id, EXECUTION_WINDOW);
      forall k | 0 <= k < |queue| ensures queue[k].status != ExecPending {
        ListedIffNewest(w0.executions, id, EXECUTION_WINDOW, queue[k].id);
        assert Visible(w0, queue[k].id);
      }
      NoDispatch(m.pc.rest[0], queue, m.pc.rest[1..]);
    }
  }

  lemma {:induction false} RestTurn(w0: World, m: Machine, t: Turn)
    requires Inv(m) && AtRest(w0, m) && NonePending(w0) && t.before == []
    ensures Inv(TakeTurn(m, t)) && AtRest(w0, TakeTurn(m, t))
  {
    assert TakeTurn(m, t) == EngineStep(m, t.choice);
    EngineKeepsInv(m, t.choice);
    RestStaysAtRest(w0, m, t.choice);
  }

  /** Fixpoint: when nothing visible is pending, passes write nothing, whatever faults they meet. */
  lemma {:induction false} SecondPassWritesNothing(w0: World, oracle: nat -> Turn, n: nat)
    requires Inv(Machine(w0, Idle)) && NonePending(w0) && forall k :: 0 <= k < n ==> oracle(k).before == []
    ensures Inv(Reach(Machine(w0, Idle), oracle, n)) && AtRest(w0, Reach(Machine(w0, Idle), oracle, n))
  {
    if n > 0 {
      SecondPassWritesNothing(w0, oracle, n - 1);
      RestTurn(w0, Reach(Machine(w0, Idle), oracle, n - 1), oracle(n - 1));
    }
  }

  /** What a first quiet pass leaves is such a state. */
  lemma {:induction false} AfterAPassNothingIsPending(w0: World, oracle: nat -> Turn, n: nat)
    requires Inv(Machine(w0, Idle)) && n > 0 && forall k :: 0 <= k < n ==> Quiet(oracle(k))
    requires Reach(Machine(w0, Idle), oracle, n).pc.Idle?
    ensures NonePending(Reach(Machine(w0, Idle), oracle, n).world)
  {
    QuietCovers(w0, oracle, n);
    PassCovers(w0, oracle, n);
    var w := Reach(Machine(w0, Idle), oracle, n).world;
    forall e | 0 <= e < |w.executions| && Visible(w, e) ensures w.executions[e].status != ExecPending {
      NewerOnlyWorkflowIds(w.executions, w0.executions, e, w.executions[e].workflowId);
    }
  }

  // ---- what no pass ever reaches ----

  /** The pass still has the workflow to visit. */
  predicate ToVisit(pc: Pc, workflowId: nat) {
    (pc.Listing? && ListedLater(pc.rest, workflowId)) || (pc.HasJob() && ListedLater(pc.job.rest, workflowId))
  }

  /** Behind ten newer executions of its workflow, or in a workflow with a hundred newer ones that the pass
      under way does not visit any more. */
  predicate OutOfReach(m: Machine, e: nat)
    requires e < |m.world.executions|
  {
    var id := m.world.executions[e].workflowId;
    || Newer(m.world.executions, e, id) >= 10
    || (|m.world.workflows| > id + 100 && !ToVisit(m.pc, id))
  }

  /** Out of reach, not in the engine's hands, and never dispatched so far. */
  predicate Buried(m: Machine, e: nat) {
    && HasExecution(m.world, e)
    && OutOfReach(m, e)
    && !Engaged(m.pc, e)
    && (m.world.executions[e].status == ExecPending || m.world.executions[e].status == ExecCanceled)
    && m.world.logs[e].entries == [] && m.world.logs[e].runs == []
  }

  /** Later executions only add to the newer ones. */
  lemma {:induction false} NewerGrows(rows: seq<Execution>, rows': seq<Execution>, e: nat, workflowId: nat)
    requires |rows| <= |rows'| && forall k :: 0 <= k < |rows| ==> rows'[k].workflowId == rows[k].workflowId
    ensures Newer(rows, e, workflowId) <= Newer(rows', e, workflowId)
    decreases |rows'|
  {
    if |rows| == |rows'| {
      NewerOnlyWorkflowIds(rows, rows', e, workflowId);
    } else if e < |rows'| - 1 {
      NewerGrows(rows, rows'[..|rows'| - 1], e, workflowId);
    }
  }

  lemma {:induction false} DispatchEngages(workflow: Workflow, queue: seq<Execution>, rest: seq<Workflow>, e: nat)
    requires !QueuedLater(queue, e)
    ensures !Engaged(NextDispatch(workflow, queue, rest), e)
    ensures forall id :: ToVisit(NextDispatch(workflow, queue, rest), id) ==> ListedLater(rest, id)
    decreases |queue|
  {
    if queue != [] {
      assert forall k :: 0 <= k < |queue[1..]| ==> queue[1..][k] == queue[k + 1];
      if queue[0].status != ExecPending { DispatchEngages(workflow, queue[1..], rest, e); }
    }
  }

  /** The engine does not take what is out of reach into its hands, nor its workflow back on its list. */
  lemma {:induction false} OutOfHands(m: Machine, c: Choice, e: nat)
    requires Inv(m) && e < |m.world.executions| && OutOfReach(m, e) && !Engaged(m.pc, e)
    ensures var id, pc' := m.world.executions[e].workflowId, EngineStep(m, c).pc;
            && !Engaged(pc', e)
            && (|m.world.workflows| > id + WORKFLOW_WINDOW && ToVisit(pc', id) ==> ToVisit(m.pc, id))
  {
    if m.pc.Idle? {
      NotListed(m.world, m.world.executions[e].workflowId);
    } else if m.pc.Listing? {
      if m.pc.rest != [] {
        NotQueued(m, e);
        var queue := NewestExecutions(m.world.executions, m.pc.rest[0].id, EXECUTION_WINDOW);
        assert forall k :: 0 <= k < |m.pc.rest[1..]| ==> m.pc.rest[1..][k] == m.pc.rest[k + 1];
        DispatchEngages(m.pc.rest[0], queue, m.pc.rest[1..], e);
      }
    } else {
      NextPcs(m, c);
      DispatchEngages(m.pc.job.workflow, m.pc.job.queue, m.pc.job.rest, e);
    }
  }

  lemma {:induction false} EngineLeavesBuried(m: Machine, c: Choice, e: nat)
    requires Inv(m) && Buried(m, e)
    ensures Buried(EngineStep(m, c), e)
  {
    hide EngineStep;
    var rows, rows' := m.world.executions, EngineStep(m, c).world.executions;
    EngineTouches(m, c, e);
    EngineKeepsWorkflowIds(m, c);
    EngineLeavesWorkflows(m, c);
    NewerOnlyWorkflowIds(rows, rows', e, rows[e].workflowId);
    OutOfHands(m, c, e);
  }

  /** A new pass does not list a workflow with a hundred newer ones. */
  lemma {:induction false} NotListed(w: World, id: nat)
    requires StoreOk(w)
    ensures |w.workflows| > id + WORKFLOW_WINDOW ==> !ListedLater(NewestWorkflows(w.workflows, WORKFLOW_WINDOW), id)
  {
    var listed := NewestWorkflows(w.workflows, WORKFLOW_WINDOW);
    WindowOk(w.workflows, WORKFLOW_WINDOW);
    if k :| 0 <= k < |listed| && listed[k].id == id {
      WorkflowListedIffNewest(w.workflows, WORKFLOW_WINDOW, id);
      assert listed[k] in listed;
    }
  }

  /** Nor does the listing of the next workflow hold what is out of reach. */
  lemma {:induction false} NotQueued(m: Machine, e: nat)
    requires Inv(m) && m.pc.Listing? && m.pc.rest != [] && e < |m.world.executions| && OutOfReach(m, e)
    ensures !QueuedLater(NewestExecutions(m.world.executions, m.pc.rest[0].id, EXECUTION_WINDOW), e)
  {
    var w, id := m.world, m.pc.rest[0].id;
    var queue := NewestExecutions(w.executions, id, EXECUTION_WINDOW);
    forall x | 0 <= x < |w.executions| ensures w.executions[x].id == x { assert ExecutionOk(w, x); }
    ListingOk(w.executions, id, EXECUTION_WINDOW);
    ListedIffNewest(w.executions, id, EXECUTION_WINDOW, e);
    assert ListedLater(m.pc.rest, id);
    assert w.executions[e] !in queue;
    assert forall k :: 0 <= k < |queue| ==> queue[k] in queue;
  }

  lemma {:induction false} EngineLeavesWorkflows(m: Machine, c: Choice)
    requires Inv(m)
    ensures EngineStep(m, c).world.workflows == m.world.workflows
  {
    if m.pc.HasJob() { JobTouches(m.world, m.pc, c); }
  }

  lemma {:induction false} EngineKeepsWorkflowIds(m: Machine, c: Choice)
    requires Inv(m)
    ensures var rows, rows' := m.world.executions, EngineStep(m, c).world.executions;
            |rows'| == |rows| && forall k :: 0 <= k < |rows| ==> rows'[k].workflowId == rows[k].workflowId
  {
    if m.pc.HasJob() {
      JobTouches(m.world, m.pc, c);
      assert HasExecution(m.world, m.pc.job.execution.id);
      JobKeepsWorkflowId(m.world, m.pc, c);
    }
  }

  lemma {:induction false} JobKeepsWorkflowId(w: World, pc: Pc, c: Choice)
    requires pc.HasJob() && HasExecution(w, pc.job.execution.id)
    ensures var w', e := JobStep(w, pc, c).world, pc.job.execution.id;
            HasExecution(w', e) && w'.executions[e].workflowId == w.executions[e].workflowId
  {
  }

  lemma {:induction false} StepLeavesBuried(m: Machine, a: Action, e: nat)
    requires Inv(m) && Buried(m, e)
    ensures Buried(Step(m, a), e)
  {
    match a
    case Engine(c) => EngineLeavesBuried(m, c, e);
    case Env(x) =>
      var w' := Step(m, a).world;
      EnvStepEffect(m.world, x);
      forall k | 0 <= k < |m.world.executions| ensures w'.executions[k].workflowId == m.world.executions[k].workflowId {
        assert SameButCanceled(m.world, w', k);
      }
      assert SameButCanceled(m.world, w', e);
      NewerGrows(m.world.executions, w'.executions, e, m.world.executions[e].workflowId);
  }

  /** A pending execution that is out of reach, and not already in the engine's hands, is never dispatched:
      whatever happens it stays pending, or is canceled from outside, and the runner is never called for it. */
  lemma {:induction false} NeverDispatched(actions: seq<Action>, more: seq<Action>, e: nat)
    requires e < |Reached(actions).world.executions| && Reached(actions).world.executions[e].status == ExecPending
    requires OutOfReach(Reached(actions), e) && !Engaged(Reached(actions).pc, e)
    ensures var w := Reached(actions + more).world;
            && e < |w.executions| && e < |w.logs|
            && (w.executions[e].status == ExecPending || w.executions[e].status == ExecCanceled)
            && w.logs[e].entries == [] && w.logs[e].runs == []
  {
    StoredExecution(Reached(actions), e);
    ExecuteAll(INITIAL, actions, more);
    StaysBuried(Reached(actions), more, e);
  }

  lemma {:induction false} StaysBuried(m: Machine, actions: seq<Action>, e: nat)
    requires Inv(m) && Buried(m, e)
    ensures Buried(Execute(m, actions), e)
    decreases |actions|
  {
    hide Inv;
    hide Buried;
    if actions != [] {
      StepLeavesBuried(m, actions[0], e);
      StepKeepsInv(m, actions[0]);
      StaysBuried(Step(m, actions[0]), actions[1..], e);
    }
  }
}
