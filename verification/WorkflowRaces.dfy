/** Exactly which interleavings of workflow calls break the lifecycle, workflow by workflow. */
module WorkflowRaces {
  import opened Domain
  import opened State
  import opened Environment
  import opened Machine
  import opened Safety
  import opened Guarantees
  import opened Witnesses
  import opened Workflows

  // ---- exactly which write breaks a workflow's history ----

  /** The write half of a call for workflow `k` that is not refused. */
  predicate Lands(w: World, a: Action, k: nat) {
    && a.Env? && a.action.WorkflowWrite? && a.action.fault.None?
    && a.action.call in w.calls && w.calls[a.action.call].Saving?
    && w.calls[a.action.call].workflow.id == k && k < |w.workflows|
  }

  /** An Update that read the draft lands after the workflow has left draft. */
  predicate UpdatesTooLate(stored: Workflow, held: Workflow) {
    held.status == Draft && stored.status != Draft
  }

  /** An Activate lands on something other than the draft it read, with or without its activation. */
  predicate ActivatesAnother(stored: Workflow, held: Workflow) {
    held.status == Active && stored != held.(status := Draft) && stored != held
  }

  /** The step is one of those two writes to workflow `k`. */
  predicate WritesOvertaken(m: Machine, a: Action, k: nat) {
    && Lands(m.world, a, k)
    && var stored, held := m.world.workflows[k], m.world.calls[a.action.call].workflow;
       UpdatesTooLate(stored, held) || ActivatesAnother(stored, held)
  }

  /** What the row that a call holds tells of the call and of the row it read. */
  lemma {:induction false} WhatWasRead(read: Workflow, request: WorkflowRequest, held: Workflow)
    requires Decide(read, request) == Success(held)
    ensures held.status == Draft ==> request.Modify? && read.status == Draft
    ensures held.status == Active ==> request.Activate? && read == held.(status := Draft)
    ensures held.status == Archived ==>
              (request.Archive? && read == held.(status := Active)) || (request.Modify? && read.status == Archived)
  {
  }

  predicate KeepsHistory(w: World, w': World, k: nat) {
    k < |w.workflows| ==> k < |w'.workflows| && Ages(w.workflows[k], w'.workflows[k])
  }

  lemma {:induction false} EnvLeavesWorkflow(w: World, a: EnvAction, k: nat)
    requires k < |w.workflows|
    ensures k < |EnvStep(w, a).workflows|
    ensures EnvStep(w, a).workflows[k] == if Lands(w, Env(a), k) then w.calls[a.call].workflow else w.workflows[k]
  {
  }

  /** Every held row that is archived was read from the stored row as it is, or from the archived one. It
      stays so for as long as the history has been kept: an Archive reads the active row, which does not
      change, and archived stays archived. */
  predicate HeldArchives(w: World, k: nat) {
    forall c :: c in w.calls && w.calls[c].Saving?
                && w.calls[c].workflow.id == k && w.calls[c].workflow.status == Archived ==>
      && k < |w.workflows|
      && (w.workflows[k].status == Archived || ArchivesIt(w.workflows[k], w.calls[c].workflow))
  }

  predicate ArchivesIt(stored: Workflow, held: Workflow) {
    stored.status == Active && held == stored.(status := Archived)
  }

  lemma {:induction false} HeldArchivesStay(m: Machine, a: Action, k: nat)
    requires Inv(m) && HeldArchives(m.world, k) && KeepsHistory(m.world, Step(m, a).world, k)
    ensures HeldArchives(Step(m, a).world, k)
  {
    match a
    case Engine(c) => EngineLeavesCalls(m, c);
    case Env(x) => EnvArchivesStay(m.world, x, k);
  }

  lemma {:induction false} EnvArchivesStay(w: World, a: EnvAction, k: nat)
    requires StoreOk(w) && HeldArchives(w, k) && KeepsHistory(w, EnvStep(w, a), k)
    ensures HeldArchives(EnvStep(w, a), k)
  {
    var w' := EnvStep(w, a);
    if k < |w.workflows| { EnvLeavesWorkflow(w, a, k); }
    forall c | c in w'.calls && w'.calls[c].Saving? && w'.calls[c].workflow.id == k
               && w'.calls[c].workflow.status == Archived
      ensures k < |w'.workflows|
      ensures w'.workflows[k].status == Archived || ArchivesIt(w'.workflows[k], w'.calls[c].workflow)
    {
      if a.WorkflowRead? && c == a.call && a.workflowId < |w.workflows| {
        var decided := Decide(w.workflows[a.workflowId], a.request);
        if decided.Success? { WhatWasRead(w.workflows[a.workflowId], a.request, decided.value); }
      }
    }
  }

  lemma {:induction false} BreaksHistoryIff(m: Machine, a: Action, k: nat)
    requires Inv(m) && WorkflowInv(m.world) && HeldArchives(m.world, k)
    ensures KeepsHistory(m.world, Step(m, a).world, k) <==> !WritesOvertaken(m, a, k)
  {
    if k < |m.world.workflows| {
      match a
      case Engine(c) => EngineLeavesCalls(m, c);
      case Env(x) =>
        EnvLeavesWorkflow(m.world, x, k);
        if Lands(m.world, a, k) { assert CallRunnable(m.world.calls[x.call]); }
    }
  }

  predicate HistoryKept(m: Machine, actions: seq<Action>, k: nat)
    decreases |actions|
  {
    actions != [] ==>
      && KeepsHistory(m.world, Step(m, actions[0]).world, k)
      && HistoryKept(Step(m, actions[0]), actions[1..], k)
  }

  predicate NeverOvertaken(m: Machine, actions: seq<Action>, k: nat)
    decreases |actions|
  {
    actions != [] ==> !WritesOvertaken(m, actions[0], k) && NeverOvertaken(Step(m, actions[0]), actions[1..], k)
  }

  lemma {:induction false} StepKeepsBoth(m: Machine, a: Action)
    requires Inv(m) && WorkflowInv(m.world)
    ensures Inv(Step(m, a)) && WorkflowInv(Step(m, a).world)
  {
    hide Inv;
    hide WorkflowInv;
    StepKeepsInv(m, a);
    match a
    case Engine(c) => EngineKeepsWorkflows(m, c);
    case Env(x) => EnvKeepsWorkflows(m.world, x);
  }

  lemma {:induction false} HistoryKeptFrom(m: Machine, actions: seq<Action>, k: nat)
    requires Inv(m) && WorkflowInv(m.world) && HeldArchives(m.world, k)
    ensures HistoryKept(m, actions, k) <==> NeverOvertaken(m, actions, k)
    decreases |actions|
  {
    hide Inv;
    hide WorkflowInv;
    hide HeldArchives;
    hide KeepsHistory;
    hide Step;
    if actions != [] {
      BreaksHistoryIff(m, actions[0], k);
      if KeepsHistory(m.world, Step(m, actions[0]).world, k) {
        StepKeepsBoth(m, actions[0]);
        HeldArchivesStay(m, actions[0], k);
        HistoryKeptFrom(Step(m, actions[0]), actions[1..], k);
      }
    }
  }

  lemma {:induction false} KeptArchives(m: Machine, actions: seq<Action>, k: nat)
    requires Inv(m) && WorkflowInv(m.world) && HeldArchives(m.world, k) && HistoryKept(m, actions, k)
    ensures HeldArchives(Execute(m, actions).world, k) && WorkflowInv(Execute(m, actions).world)
    decreases |actions|
  {
    hide Inv;
    hide WorkflowInv;
    hide HeldArchives;
    hide KeepsHistory;
    hide Step;
    if actions != [] {
      StepKeepsBoth(m, actions[0]);
      HeldArchivesStay(m, actions[0], k);
      KeptArchives(Step(m, actions[0]), actions[1..], k);
    }
  }

  /** After any interleaving that has kept a workflow's history, the next step breaks it exactly when an Update
      that read the draft lands after the workflow has left draft, or an Activate lands on something other
      than the draft it read. An Archive, or an Update that read the archived workflow, never breaks it first. */
  lemma {:induction false} ExactlyBreaksHistory(actions: seq<Action>, a: Action, k: nat)
    requires HistoryKept(INITIAL, actions, k)
    ensures KeepsHistory(Reached(actions).world, Step(Reached(actions), a).world, k)
       <==> !WritesOvertaken(Reached(actions), a, k)
  {
    KeptArchives(INITIAL, actions, k);
    BreaksHistoryIff(Reached(actions), a, k);
  }

  /** Over any interleaving from an empty store a workflow's history is kept, every change of its status an
      edge of the table, exactly when neither of those two writes happens. */
  lemma {:induction false} HistoryKeptIff(actions: seq<Action>, k: nat)
    ensures HistoryKept(INITIAL, actions, k) <==> NeverOvertaken(INITIAL, actions, k)
  {
    HistoryKeptFrom(INITIAL, actions, k);
  }

  // ---- a condition on the calls for one workflow ----

  /** When a row of workflow `k` is written, no other call holds one. */
  predicate WritesAlone(m: Machine, a: Action, k: nat) {
    Lands(m.world, a, k) ==>
      forall d :: d in m.world.calls && d != a.action.call && m.world.calls[d].Saving? ==>
        m.world.calls[d].workflow.id != k
  }

  ghost predicate Decided(stored: Workflow, held: Workflow) {
    exists request :: Decide(stored, request) == Success(held)
  }

  /** Every row held for workflow `k` is what a call makes of the stored row. */
  ghost predicate HeldUpToDate(w: World, k: nat) {
    forall c :: c in w.calls && w.calls[c].Saving? && w.calls[c].workflow.id == k ==>
      k < |w.workflows| && Decided(w.workflows[k], w.calls[c].workflow)
  }

  lemma {:induction false} DecidedIsNotOvertaken(stored: Workflow, held: Workflow)
    requires Decided(stored, held)
    ensures !UpdatesTooLate(stored, held) && !ActivatesAnother(stored, held)
  {
    var request :| Decide(stored, request) == Success(held);
    WhatWasRead(stored, request, held);
  }

  lemma {:induction false} EnvKeepsUpToDate(m: Machine, a: EnvAction, k: nat)
    requires StoreOk(m.world) && HeldUpToDate(m.world, k) && WritesAlone(m, Env(a), k)
    ensures HeldUpToDate(EnvStep(m.world, a), k)
  {
    var w, w' := m.world, EnvStep(m.world, a);
    if k < |w.workflows| { EnvLeavesWorkflow(w, a, k); }
    forall c | c in w'.calls && w'.calls[c].Saving? && w'.calls[c].workflow.id == k
      ensures k < |w'.workflows| && Decided(w'.workflows[k], w'.calls[c].workflow)
    {
      if a.WorkflowRead? && c == a.call && w' != w && a.workflowId < |w.workflows| {
        ReadIsUpToDate(w, a, k);
      }
    }
  }

  lemma {:induction false} ReadIsUpToDate(w: World, a: EnvAction, k: nat)
    requires StoreOk(w) && a.WorkflowRead? && a.workflowId < |w.workflows|
    requires Decide(w.workflows[a.workflowId], a.request).Success?
    requires Decide(w.workflows[a.workflowId], a.request).value.id == k
    ensures k == a.workflowId && Decided(w.workflows[k], Decide(w.workflows[k], a.request).value)
  {
  }

  predicate AllAlone(m: Machine, actions: seq<Action>, k: nat)
    decreases |actions|
  {
    actions != [] ==> WritesAlone(m, actions[0], k) && AllAlone(Step(m, actions[0]), actions[1..], k)
  }

  lemma {:induction false} AloneNeverOvertaken(m: Machine, actions: seq<Action>, k: nat)
    requires Inv(m) && HeldUpToDate(m.world, k) && AllAlone(m, actions, k)
    ensures NeverOvertaken(m, actions, k)
    decreases |actions|
  {
    if actions != [] {
      var a := actions[0];
      if Lands(m.world, a, k) {
        DecidedIsNotOvertaken(m.world.workflows[k], m.world.calls[a.action.call].workflow);
      }
      StepKeepsInv(m, a);
      StepKeepsUpToDate(m, a, k);
      AloneNeverOvertaken(Step(m, a), actions[1..], k);
    }
  }

  lemma {:induction false} StepKeepsUpToDate(m: Machine, a: Action, k: nat)
    requires Inv(m) && HeldUpToDate(m.world, k) && WritesAlone(m, a, k)
    ensures HeldUpToDate(Step(m, a).world, k)
  {
    match a
    case Env(x) => EnvKeepsUpToDate(m, x, k);
    case Engine(c) => EngineLeavesCalls(m, c);
  }

  lemma {:induction false} KeptHistoryAges(m: Machine, actions: seq<Action>, k: nat)
    requires HistoryKept(m, actions, k) && k < |m.world.workflows|
    ensures var m' := Execute(m, actions);
            && k < |m'.world.workflows|
            && var wf, wf' := m.world.workflows[k], m'.world.workflows[k];
            && Stage(wf.status) <= Stage(wf'.status)
            && (wf.status == Active && wf'.status == Active ==> wf' == wf)
    decreases |actions|
  {
    if actions != [] {
      KeptHistoryAges(Step(m, actions[0]), actions[1..], k);
    }
  }

  /** Any number of calls may interleave with each other and with the engine: if no row of a workflow is
      written while another call holds one of the same workflow, every change of its status is an edge of the
      table, it is activated only as the draft it was, and while it is active nothing about it changes. */
  lemma {:induction false} InterleavedHistory(before: seq<Action>, after: seq<Action>, k: nat)
    requires AllAlone(INITIAL, before + after, k) && k < |Reached(before).world.workflows|
    ensures HistoryKept(INITIAL, before + after, k)
    ensures var w, w' := Reached(before).world, Reached(before + after).world;
            && k < |w'.workflows|
            && Stage(w.workflows[k].status) <= Stage(w'.workflows[k].status)
            && (w.workflows[k].status == Active && w'.workflows[k].status == Active ==>
                  w'.workflows[k] == w.workflows[k])
  {
    AloneNeverOvertaken(INITIAL, before + after, k);
    HistoryKeptIff(before + after, k);
    ExecuteAll(INITIAL, before, after);
    HistorySplits(INITIAL, before, after, k);
    KeptHistoryAges(Reached(before), after, k);
  }

  lemma {:induction false} HistorySplits(m: Machine, before: seq<Action>, after: seq<Action>, k: nat)
    requires HistoryKept(m, before + after, k)
    ensures HistoryKept(Execute(m, before), after, k)
    decreases |before|
  {
    if before == [] {
      assert before + after == after;
    } else {
      assert (before + after)[1..] == before[1..] + after;
      HistorySplits(Step(m, before[0]), before[1..], after, k);
    }
  }

  // ---- every pair that the table forbids is written in some run ----

  predicate WritesStatus(m: Machine, a: Action, from: WorkflowStatus, to: WorkflowStatus) {
    && |m.world.workflows| == 1 && |Step(m, a).world.workflows| == 1
    && m.world.workflows[0].status == from && Step(m, a).world.workflows[0].status == to
  }

  function OneWorkflow(step: StepDefinition, status: WorkflowStatus): Workflow {
    Workflow(0, "w", "", [step], status)
  }

  function OnlyWorkflow(wf: Workflow, calls: map<nat, Call>): Machine {
    Machine(World([wf], [], [], 0, calls, []), Idle)
  }

  /** The workflow is active, an Update (call 1) and an Activate (call 2) have read the draft, and an Archive
      (call 3) the active row. */
  lemma {:induction false} ToAllHeld(step: StepDefinition) returns (m: Machine)
    ensures Reachable(m)
    ensures var draft, active := OneWorkflow(step, Draft), OneWorkflow(step, Active);
            var archived := OneWorkflow(step, Archived);
            m == OnlyWorkflow(active, map[1 := Saving(draft), 2 := Saving(active), 3 := Saving(archived)])
  {
    var draft, active := OneWorkflow(step, Draft), OneWorkflow(step, Active);
    assert IsReached(INITIAL, []);
    m := Then(INITIAL, Env(CreateWorkflow("w", "", [step])));
    m := Then(m, Env(WorkflowRead(1, 0, Modify(None, None, []))));
    m := Then(m, Env(WorkflowRead(2, 0, Activate)));
    assert m == OnlyWorkflow(draft, map[1 := Saving(draft), 2 := Saving(active)]);
    m := ThenActivated(m, draft, map[1 := Saving(draft), 2 := Saving(active)]);
    m := Then(m, Env(WorkflowRead(3, 0, Archive)));
  }

  /** An Activate call that runs whole, as call 0. */
  lemma {:induction false} ThenActivated(m: Machine, draft: Workflow, calls: map<nat, Call>) returns (m': Machine)
    requires Reachable(m) && m == OnlyWorkflow(draft, calls) && 0 !in calls
    requires draft.id == 0 && draft.status == Draft && draft.steps != []
    ensures Reachable(m') && m' == OnlyWorkflow(draft.(status := Active), calls)
  {
    m' := Then(m, Env(WorkflowRead(0, 0, Activate)));
    m' := Then(m', Env(WorkflowWrite(0, None)));
    assert calls[0 := Saving(draft.(status := Active))] - {0} == calls;
  }

  /** Each of the four changes of status that the table forbids happens in some run: active and archived
      workflows become drafts again, an archived one becomes active, and a draft is archived. */
  lemma {:induction false} ForbiddenWritesHappen(step: StepDefinition, from: WorkflowStatus, to: WorkflowStatus)
    returns (m: Machine, a: Action)
    requires !WorkflowEdge(from, to)
    ensures Reachable(m) && WritesStatus(m, a, from, to)
  {
    m := ToAllHeld(step);
    if from == Archived {
      m := Then(m, Env(WorkflowWrite(3, None)));
      a := Env(WorkflowWrite(if to == Draft then 1 else 2, None));
    } else {
      a := Env(WorkflowWrite(1, None));
      if from == Draft {
        m := Then(m, a);
        a := Env(WorkflowWrite(3, None));
      }
    }
  }
}
