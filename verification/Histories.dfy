/** Where the columns of an execution come from: which workflow the engine runs it with, and which moments of
    the run its two times are. */
module Histories {
  import opened Domain
  import opened State
  import opened Environment
  import opened Machine
  import opened Safety
  import opened Guarantees

  /** The state before action `k` of a run from an empty store. */
  function At(actions: seq<Action>, k: nat): (m: Machine)
    requires k <= |actions|
    ensures Inv(m)
  {
    Reached(actions[..k])
  }

  /** With action `k` the engine begins a pass that lists `wf` as it is stored then. */
  predicate ListsAt(actions: seq<Action>, k: nat, wf: Workflow) {
    && k < |actions| && actions[k].Engine? && actions[k].choice.fault.None? && At(actions, k).pc.Idle?
    && wf.id < |At(actions, k).world.workflows| && At(actions, k).world.workflows[wf.id] == wf
  }

  /** With action `k` the engine makes its first Running write for `e`, at time `now`. */
  predicate StartsAt(actions: seq<Action>, k: nat, e: nat, now: nat) {
    && k < |actions| && actions[k].Engine?
    && At(actions, k).pc.Starting? && At(actions, k).pc.job.execution.id == e && At(actions, k).world.clock == now
    && At(actions, k + 1).pc.Marking?
  }

  /** Action `k` is the engine's last call for `e` before its final write, at time `now`. */
  predicate EndsAt(actions: seq<Action>, k: nat, e: nat, now: nat) {
    && k < |actions| && actions[k].Engine?
    && At(actions, k).pc.Focus() == Some(e) && !At(actions, k).pc.Finishing? && At(actions, k).world.clock == now
    && At(actions, k + 1).pc.Finishing?
  }

  ghost predicate Listed(actions: seq<Action>, wf: Workflow) {
    exists k: nat :: ListsAt(actions, k, wf)
  }

  ghost predicate Started(actions: seq<Action>, e: nat, time: Option<nat>) {
    time.Some? && exists k: nat :: StartsAt(actions, k, e, time.value)
  }

  ghost predicate Ended(actions: seq<Action>, e: nat, time: Option<nat>) {
    time.Some? && exists k: nat :: EndsAt(actions, k, e, time.value)
  }

  // ---- one more action ----

  lemma {:induction false} OneMore(actions: seq<Action>, a: Action)
    ensures Reached(actions + [a]) == Step(Reached(actions), a)
    ensures forall k: nat :: k <= |actions| ==> At(actions + [a], k) == At(actions, k)
    ensures At(actions, |actions|) == Reached(actions)
    ensures At(actions + [a], |actions| + 1) == Reached(actions + [a])
  {
    ExecuteAll(INITIAL, actions, [a]);
    ExecuteOne(Reached(actions), a);
    forall k: nat | k <= |actions| ensures At(actions + [a], k) == At(actions, k) {
      assert (actions + [a])[..k] == actions[..k];
    }
    assert actions[..|actions|] == actions;
    assert (actions + [a])[..|actions| + 1] == actions + [a];
  }

  /** What has happened has happened. */
  lemma {:induction false} StillListed(actions: seq<Action>, a: Action, wf: Workflow)
    requires Listed(actions, wf)
    ensures Listed(actions + [a], wf)
  {
    hide Reached;
    OneMore(actions, a);
    var k: nat :| ListsAt(actions, k, wf);
    assert ListsAt(actions + [a], k, wf);
  }

  lemma {:induction false} StillStarted(actions: seq<Action>, a: Action, e: nat, time: Option<nat>)
    requires Started(actions, e, time)
    ensures Started(actions + [a], e, time)
  {
    hide Reached;
    OneMore(actions, a);
    var k: nat :| StartsAt(actions, k, e, time.value);
    assert StartsAt(actions + [a], k, e, time.value);
  }

  lemma {:induction false} StillEnded(actions: seq<Action>, a: Action, e: nat, time: Option<nat>)
    requires Ended(actions, e, time)
    ensures Ended(actions + [a], e, time)
  {
    hide Reached;
    OneMore(actions, a);
    var k: nat :| EndsAt(actions, k, e, time.value);
    assert EndsAt(actions + [a], k, e, time.value);
  }

  // ---- what the engine has in hand and what is stored ----

  ghost predicate ListedAll(actions: seq<Action>, rest: seq<Workflow>) {
    forall k :: 0 <= k < |rest| ==> Listed(actions, rest[k])
  }

  /** What the engine holds. */
  ghost predicate HandOk(actions: seq<Action>, pc: Pc) {
    && (pc.Listing? ==> ListedAll(actions, pc.rest))
    && (pc.HasJob() ==>
          && Listed(actions, pc.job.workflow) && ListedAll(actions, pc.job.rest)
          && (pc.Starting? || Started(actions, pc.job.execution.id, pc.job.execution.startedAt)))
    && (pc.Finishing? ==> Ended(actions, pc.job.execution.id, pc.job.execution.finishedAt))
  }

  /** What is stored of an execution. */
  ghost predicate RowFrom(actions: seq<Action>, e: nat, x: Execution, entries: seq<Workflow>) {
    && (entries != [] ==>
          entries[0].id == x.workflowId && Listed(actions, entries[0]) && Started(actions, e, x.startedAt))
    && (Terminal(x.status) ==> entries != [] && Ended(actions, e, x.finishedAt))
  }

  ghost predicate RowsFrom(actions: seq<Action>, w: World) {
    forall e :: 0 <= e < |w.executions| && e < |w.logs| ==>
      RowFrom(actions, e, w.executions[e], w.logs[e].entries)
  }

  lemma {:induction false} StillRow(actions: seq<Action>, a: Action, e: nat, x: Execution, entries: seq<Workflow>)
    requires RowFrom(actions, e, x, entries)
    ensures RowFrom(actions + [a], e, x, entries)
  {
    if entries != [] {
      StillListed(actions, a, entries[0]);
      StillStarted(actions, a, e, x.startedAt);
    }
    if Terminal(x.status) { StillEnded(actions, a, e, x.finishedAt); }
  }

  lemma {:induction false} StillListedAll(actions: seq<Action>, a: Action, rest: seq<Workflow>)
    requires ListedAll(actions, rest)
    ensures ListedAll(actions + [a], rest)
  {
    forall k | 0 <= k < |rest| ensures Listed(actions + [a], rest[k]) { StillListed(actions, a, rest[k]); }
  }

  lemma {:induction false} StillInHand(actions: seq<Action>, a: Action, pc: Pc)
    requires HandOk(actions, pc)
    ensures HandOk(actions + [a], pc)
  {
    if pc.Listing? {
      StillListedAll(actions, a, pc.rest);
    } else if pc.HasJob() {
      StillListed(actions, a, pc.job.workflow);
      StillListedAll(actions, a, pc.job.rest);
      if !pc.Starting? { StillStarted(actions, a, pc.job.execution.id, pc.job.execution.startedAt); }
      if pc.Finishing? { StillEnded(actions, a, pc.job.execution.id, pc.job.execution.finishedAt); }
    }
  }

  lemma {:induction false} DispatchInHand(
      actions: seq<Action>, workflow: Workflow, queue: seq<Execution>, rest: seq<Workflow>)
    requires Listed(actions, workflow) && ListedAll(actions, rest)
    ensures HandOk(actions, NextDispatch(workflow, queue, rest))
    decreases |queue|
  {
    if queue != [] && queue[0].status != ExecPending { DispatchInHand(actions, workflow, queue[1..], rest); }
  }

  // ---- steps ----

  /** What a job step does to the row it works on, to its entries and to the copy in hand. */
  predicate JobWrites(w: World, pc: Pc, m': Machine)
    requires pc.HasJob() && HasExecution(w, pc.job.execution.id)
  {
    var e, x := pc.job.execution.id, pc.job.execution;
    && HasExecution(m'.world, e)
    && var y, y' := w.executions[e], m'.world.executions[e];
    && y'.workflowId == y.workflowId
    && (|| (m'.world.logs[e].entries == w.logs[e].entries && y'.startedAt == y.startedAt
            && (Terminal(y'.status) ==> Terminal(y.status) && y'.finishedAt == y.finishedAt))
        || (pc.Marking? && m'.world.logs[e].entries == w.logs[e].entries + [pc.job.workflow]
            && y'.startedAt == x.startedAt && y'.status == x.status)
        || (pc.Finishing? && m'.world.logs[e].entries == w.logs[e].entries
            && y'.startedAt == x.startedAt && y'.finishedAt == x.finishedAt && y'.status == x.status))
    && (|| m'.pc == Resume(pc.job)
        || (&& m'.pc.HasJob() && !m'.pc.Starting? && m'.pc.job.execution.id == e
            && m'.pc.job.workflow == pc.job.workflow && m'.pc.job.rest == pc.job.rest
            && m'.pc.job.execution.startedAt == (if pc.Starting? then Some(w.clock) else x.startedAt)
            && (pc.Starting? ==> m'.pc.Marking?)
            && (m'.pc.Finishing? ==> !pc.Finishing? && m'.pc.job.execution.finishedAt == Some(w.clock))))
  }

  lemma {:induction false} JobStepWrites(w: World, pc: Pc, c: Choice)
    requires pc.HasJob() && HasExecution(w, pc.job.execution.id) && FocusOk(w, pc)
    ensures JobWrites(w, pc, JobStep(w, pc, c))
  {
    if pc.Starting? || pc.Marking? || pc.Checking? || pc.Creating? || pc.Finishing? {
      HeadWrites(w, pc, c);
    } else if pc.Skipping? || pc.Confirming? {
      SkipWrites(w, pc, c);
    } else {
      RowWrites(w, pc, c);
    }
  }

  lemma {:induction false} HeadWrites(w: World, pc: Pc, c: Choice)
    requires pc.Starting? || pc.Marking? || pc.Checking? || pc.Creating? || pc.Finishing?
    requires HasExecution(w, pc.job.execution.id) && FocusOk(w, pc)
    ensures JobWrites(w, pc, JobStep(w, pc, c))
  {
  }

  lemma {:induction false} RowWrites(w: World, pc: Pc, c: Choice)
    requires pc.Launching? || pc.Executing? || pc.Recording?
    requires HasExecution(w, pc.job.execution.id) && FocusOk(w, pc)
    ensures JobWrites(w, pc, JobStep(w, pc, c))
  {
  }

  lemma {:induction false} SkipWrites(w: World, pc: Pc, c: Choice)
    requires pc.Skipping? || pc.Confirming?
    requires HasExecution(w, pc.job.execution.id) && FocusOk(w, pc)
    ensures JobWrites(w, pc, JobStep(w, pc, c))
  {
  }

  /** The invariant: everything in hand and everything stored has its moment in the run. */
  ghost predicate Traced(actions: seq<Action>) {
    HandOk(actions, Reached(actions).pc) && RowsFrom(actions, Reached(actions).world)
  }

  lemma {:induction false} EnvTraced(actions: seq<Action>, x: EnvAction)
    requires Traced(actions)
    ensures Traced(actions + [Env(x)])
  {
    hide HandOk;
    hide RowFrom;
    hide EnvStep;
    var m, a := Reached(actions), Env(x);
    var w, w' := m.world, EnvStep(m.world, x);
    OneMore(actions, a);
    StillInHand(actions, a, m.pc);
    EnvStepEffect(w, x);
    forall e | 0 <= e < |w'.executions| ensures RowFrom(actions + [a], e, w'.executions[e], w'.logs[e].entries) {
      if e < |w.executions| {
        assert SameButCanceled(w, w', e);
        StillRow(actions, a, e, w.executions[e], w.logs[e].entries);
        CanceledRow(actions + [a], e, w.executions[e], w.logs[e].entries);
      } else {
        NewRow(w, x, e);
        UntouchedRow(actions + [a], e, w'.executions[e]);
      }
    }
  }

  lemma {:induction false} CanceledRow(actions: seq<Action>, e: nat, x: Execution, entries: seq<Workflow>)
    requires RowFrom(actions, e, x, entries)
    ensures RowFrom(actions, e, x.(status := ExecCanceled), entries)
  {
  }

  lemma {:induction false} UntouchedRow(actions: seq<Action>, e: nat, x: Execution)
    requires !Terminal(x.status)
    ensures RowFrom(actions, e, x, [])
  {
  }

  lemma {:induction false} NewRow(w: World, a: EnvAction, e: nat)
    requires StoreOk(w) && |w.executions| <= e < |EnvStep(w, a).executions|
    ensures HasExecution(EnvStep(w, a), e) && EnvStep(w, a).logs[e].entries == []
    ensures !Terminal(EnvStep(w, a).executions[e].status)
  {
    EnvStepEffect(w, a);
  }

  lemma {:induction false} EngineTraced(actions: seq<Action>, c: Choice)
    requires Traced(actions)
    ensures Traced(actions + [Action.Engine(c)])
  {
    hide HandOk;
    hide RowFrom;
    hide EngineStep;
    hide Inv;
    var m, a := Reached(actions), Action.Engine(c);
    var m' := EngineStep(m, c);
    OneMore(actions, a);
    if m.pc.HasJob() {
      FocusTraced(actions, c);
    } else {
      ListingTraced(actions, c);
      SameRows(m, c);
    }
    forall e | 0 <= e < |m'.world.executions| && m.pc.Focus() != Some(e)
      ensures e < |m'.world.logs| ==> RowFrom(actions + [a], e, m'.world.executions[e], m'.world.logs[e].entries)
    {
      OtherTraced(actions, c, e);
    }
  }

  lemma {:induction false} SameRows(m: Machine, c: Choice)
    requires !m.pc.HasJob()
    ensures EngineStep(m, c).world == m.world
  {
  }

  lemma {:induction false} OtherTraced(actions: seq<Action>, c: Choice, e: nat)
    requires Traced(actions) && Reached(actions).pc.Focus() != Some(e)
    requires e < |EngineStep(Reached(actions), c).world.executions|
    ensures var w' := EngineStep(Reached(actions), c).world;
            && e < |w'.logs|
            && RowFrom(actions + [Action.Engine(c)], e, w'.executions[e], w'.logs[e].entries)
  {
    hide RowFrom;
    var m := Reached(actions);
    if m.pc.HasJob() { JobTouches(m.world, m.pc, c); }
    EngineTouches(m, c, e);
    StillRow(actions, Action.Engine(c), e, m.world.executions[e], m.world.logs[e].entries);
  }

  /** A pass begins, or goes on to its next workflow. */
  lemma {:induction false} ListingTraced(actions: seq<Action>, c: Choice)
    requires Traced(actions) && !Reached(actions).pc.HasJob()
    ensures HandOk(actions + [Action.Engine(c)], EngineStep(Reached(actions), c).pc)
  {
    var m, longer := Reached(actions), actions + [Action.Engine(c)];
    OneMore(actions, Action.Engine(c));
    if m.pc.Idle? && c.fault.None? {
      var listed := NewestWorkflows(m.world.workflows, WORKFLOW_WINDOW);
      WindowOk(m.world.workflows, WORKFLOW_WINDOW);
      forall k | 0 <= k < |listed| ensures Listed(longer, listed[k]) {
        assert ListsAt(longer, |actions|, listed[k]);
      }
    } else if m.pc.Listing? && m.pc.rest != [] {
      StillListedAll(actions, Action.Engine(c), m.pc.rest);
      var rest := m.pc.rest[1..];
      assert ListedAll(longer, rest) by { assert forall k :: 0 <= k < |rest| ==> rest[k] == m.pc.rest[k + 1]; }
      var queue := NewestExecutions(m.world.executions, m.pc.rest[0].id, EXECUTION_WINDOW);
      DispatchInHand(longer, m.pc.rest[0], queue, rest);
    }
  }

  lemma {:induction false} FocusTraced(actions: seq<Action>, c: Choice)
    requires Traced(actions) && Reached(actions).pc.HasJob()
    ensures var m, longer := Reached(actions), actions + [Action.Engine(c)];
            var m', e := EngineStep(m, c), m.pc.job.execution.id;
            && HandOk(longer, m'.pc)
            && HasExecution(m'.world, e) && RowFrom(longer, e, m'.world.executions[e], m'.world.logs[e].entries)
  {
    hide RowFrom;
    hide HandOk;
    hide JobStep;
    hide Reached;
    var m := Reached(actions);
    var e := m.pc.job.execution.id;
    StoredExecution(m, e);
    JobStepWrites(m.world, m.pc, c);
    HandTraced(actions, m, c);
    StillRow(actions, Action.Engine(c), e, m.world.executions[e], m.world.logs[e].entries);
    StillInHand(actions, Action.Engine(c), m.pc);
    RowTraced(actions + [Action.Engine(c)], m.world, m.pc, EngineStep(m, c));
  }

  lemma {:induction false} HandTraced(actions: seq<Action>, m: Machine, c: Choice)
    requires m == Reached(actions) && HandOk(actions, m.pc)
    requires m.pc.HasJob() && HasExecution(m.world, m.pc.job.execution.id) && JobWrites(m.world, m.pc, EngineStep(m, c))
    ensures HandOk(actions + [Action.Engine(c)], EngineStep(m, c).pc)
  {
    hide Reached;
    hide EngineStep;
    hide Inv;
    var a, job, m' := Action.Engine(c), m.pc.job, EngineStep(m, c);
    var longer, e := actions + [a], job.execution.id;
    OneMore(actions, a);
    StillInHand(actions, a, m.pc);
    DispatchInHand(longer, job.workflow, job.queue, job.rest);
    if m'.pc != Resume(job) {
      if m.pc.Starting? { assert StartsAt(longer, |actions|, e, m.world.clock); }
      if m'.pc.Finishing? { assert EndsAt(longer, |actions|, e, m.world.clock); }
    }
  }

  lemma {:induction false} RowTraced(actions: seq<Action>, w: World, pc: Pc, m': Machine)
    requires pc.HasJob() && HasExecution(w, pc.job.execution.id) && JobWrites(w, pc, m')
    requires FocusOk(w, pc) && HandOk(actions, pc)
    requires w.executions[pc.job.execution.id].workflowId == pc.job.workflow.id
    requires var e := pc.job.execution.id; RowFrom(actions, e, w.executions[e], w.logs[e].entries)
    ensures var e := pc.job.execution.id; RowFrom(actions, e, m'.world.executions[e], m'.world.logs[e].entries)
  {
    hide Listed;
    hide Started;
    hide Ended;
    hide Shape;
  }

  /** Under any interleaving and any faults, an execution whose step loop was entered is run with its workflow as
      the store held it when a pass began, its start time is that of the engine's first Running write, and,
      once it has ended, its finish time is that of the engine's last call before the final write. */
  lemma {:induction false} WhereItCameFrom(actions: seq<Action>, e: nat)
    requires e < |Reached(actions).world.executions| && Reached(actions).world.logs[e].entries != []
    ensures var w := Reached(actions).world;
            var x, wf := w.executions[e], w.logs[e].entries[0];
            && wf.id == x.workflowId
            && (exists k: nat :: ListsAt(actions, k, wf))
            && x.startedAt.Some? && (exists k: nat :: StartsAt(actions, k, e, x.startedAt.value))
            && (x.status == ExecSucceeded || x.status == ExecFailed ==>
                  x.finishedAt.Some? && exists k: nat :: EndsAt(actions, k, e, x.finishedAt.value))
  {
    AllTraced(actions);
  }

  lemma {:induction false} AllTraced(actions: seq<Action>)
    ensures Traced(actions)
  {
    if actions != [] {
      var n := |actions| - 1;
      AllTraced(actions[..n]);
      assert actions == actions[..n] + [actions[n]];
      match actions[n]
      case Env(x) => EnvTraced(actions[..n], x);
      case Engine(c) => EngineTraced(actions[..n], c);
    }
  }

  // ---- the order of a pass ----

  predicate NewestFirst(queue: seq<Execution>) {
    forall j, k :: 0 <= j < k < |queue| ==> queue[k].id < queue[j].id
  }

  predicate WorkflowsNewestFirst(rest: seq<Workflow>) {
    forall j, k :: 0 <= j < k < |rest| ==> rest[k].id < rest[j].id
  }

  predicate InOrder(pc: Pc) {
    && (pc.Listing? ==> WorkflowsNewestFirst(pc.rest))
    && (pc.HasJob() ==> NewestFirst([pc.job.execution] + pc.job.queue)
                        && WorkflowsNewestFirst([pc.job.workflow] + pc.job.rest))
  }

  lemma {:induction false} DispatchInOrder(workflow: Workflow, queue: seq<Execution>, rest: seq<Workflow>)
    requires NewestFirst(queue) && WorkflowsNewestFirst([workflow] + rest)
    ensures InOrder(NextDispatch(workflow, queue, rest))
    decreases |queue|
  {
    assert forall k :: 0 <= k < |rest| ==> ([workflow] + rest)[k + 1] == rest[k];
    if queue != [] {
      assert queue == [queue[0]] + queue[1..];
      if queue[0].status != ExecPending { DispatchInOrder(workflow, queue[1..], rest); }
    }
  }

  lemma {:induction false} StepInOrder(m: Machine, a: Action)
    requires Inv(m) && InOrder(m.pc)
    ensures InOrder(Step(m, a).pc)
  {
    if a.Env? {
    } else if m.pc.HasJob() {
      JobInOrder(m, a.choice);
    } else if m.pc.Idle? {
      WindowOk(m.world.workflows, WORKFLOW_WINDOW);
    } else if m.pc.rest != [] {
      var rest := m.pc.rest;
      assert rest == [rest[0]] + rest[1..];
      forall e | 0 <= e < |m.world.executions| ensures m.world.executions[e].id == e {
        assert ExecutionOk(m.world, e);
      }
      ListingOk(m.world.executions, rest[0].id, EXECUTION_WINDOW);
      DispatchInOrder(rest[0], NewestExecutions(m.world.executions, rest[0].id, EXECUTION_WINDOW), rest[1..]);
    }
  }

  lemma {:induction false} JobInOrder(m: Machine, c: Choice)
    requires m.pc.HasJob() && InOrder(m.pc)
    ensures InOrder(EngineStep(m, c).pc)
  {
    hide EngineStep;
    var job, pc' := m.pc.job, EngineStep(m, c).pc;
    NextPcs(m, c);
    if pc' != Resume(job) {
      var had, has := [job.execution] + job.queue, [pc'.job.execution] + pc'.job.queue;
      assert forall k :: 0 <= k < |has| ==> has[k].id == had[k].id;
    }
    assert job.queue == ([job.execution] + job.queue)[1..];
    DispatchInOrder(job.workflow, job.queue, job.rest);
  }

  /** In every reached state the pass under way works through its listings from newer to older: what is still
      queued of a workflow is older than what is in hand, and what is still listed is an older workflow. */
  lemma {:induction false} PassesGoFromNewToOld(actions: seq<Action>)
    ensures InOrder(Reached(actions).pc)
  {
    if actions != [] {
      var n := |actions| - 1;
      PassesGoFromNewToOld(actions[..n]);
      assert actions == actions[..n] + [actions[n]];
      OneMore(actions[..n], actions[n]);
      StepInOrder(Reached(actions[..n]), actions[n]);
    }
  }
}
