/** execution_service.go and workflow_service.go as they are written, under interference: between any two of
    their repository calls the engine and other service calls may change the store. Each method is proved to
    do exactly what the halves of its call do in the state machine, interleaved with those others. */
module ServiceCode {
  import opened Domain
  import opened State
  import opened Environment
  import opened Machine
  import opened Store

  // ---- a call in progress and what others do meanwhile ----

  predicate Names(a: EnvAction, c: nat) {
    match a
    case Elapse(_) => false
    case CreateWorkflow(_, _, _) => false
    case _ => a.call == c
  }

  lemma {:induction false} HeldAndDropped(w: World, c: nat, held: Call, d: nat)
    requires c != d && c !in w.calls
    ensures Drop(Hold(w, c, held), d) == Hold(Drop(w, d), c, held) && c !in Drop(w, d).calls
  {
    assert w.calls[c := held] - {d} == (w.calls - {d})[c := held];
  }

  lemma {:induction false} HeldTwice(w: World, c: nat, held: Call, d: nat, other: Call)
    requires c != d && c !in w.calls
    ensures Hold(Hold(w, c, held), d, other) == Hold(Hold(w, d, other), c, held) && c !in Hold(w, d, other).calls
  {
    assert w.calls[c := held][d := other] == w.calls[d := other][c := held];
  }

  /** The effect of a cancel that lands. */
  function Canceled(w: World, e: nat): World
    requires HasExecution(w, e)
  {
    NoteMark(SetExecutionStatus(w, e, ExecCanceled), e, CancelLanded)
  }

  /** What other calls do neither sees nor disturbs what a call holds. */
  lemma {:induction false} HeldApartStep(w: World, c: nat, held: Call, a: EnvAction)
    requires c !in w.calls && !Names(a, c)
    ensures c !in EnvStep(w, a).calls
    ensures EnvStep(Hold(w, c, held), a) == Hold(EnvStep(w, a), c, held)
  {
    if a.CancelRead? {
      HeldTwice(w, c, held, a.call, Canceling(a.execution));
    } else if a.TriggerRead? {
      if a.workflowId < |w.workflows| {
        HeldTwice(w, c, held, a.call, Triggering(w.workflows[a.workflowId], w.clock));
      }
    } else if a.WorkflowRead? {
      if a.workflowId < |w.workflows| && Decide(w.workflows[a.workflowId], a.request).Success? {
        HeldTwice(w, c, held, a.call, Saving(Decide(w.workflows[a.workflowId], a.request).value));
      }
    } else if !a.Elapse? && !a.CreateWorkflow? {
      if a.call in w.calls { HeldApartWrite(w, c, held, a); }
    }
  }

  lemma {:induction false} HeldApartWrite(w: World, c: nat, held: Call, a: EnvAction)
    requires a.CancelWrite? || a.TriggerExecution? || a.TriggerStep? || a.WorkflowWrite?
    requires c !in w.calls && a.call != c && a.call in w.calls
    ensures c !in EnvStep(w, a).calls
    ensures EnvStep(Hold(w, c, held), a) == Hold(EnvStep(w, a), c, held)
  {
    var d, mine := a.call, w.calls[a.call];
    HeldAndDropped(w, c, held, d);
    if a.TriggerExecution? && mine.Triggering? {
      var Triggering(wf, startedAt) := mine;
      var w' := InsertExecution(w, PendingExecution(wf, startedAt), wf);
      HeldTwice(w', c, held, d, Inserting(wf, |w.executions|, 0));
    } else if a.TriggerStep? && mine.Inserting? && HasExecution(w, mine.execution)
              && mine.next < |mine.workflow.steps| {
      var Inserting(wf, e, next) := mine;
      var w' := AddStepRow(w, NewStepRow(e, wf.steps[next], StepPending, ByTrigger(next)));
      HeldTwice(w', c, held, d, Inserting(wf, e, next + 1));
    } else if a.CancelWrite? && mine.Canceling? && HasExecution(w, mine.execution) {
      HeldAndDropped(Canceled(w, mine.execution), c, held, d);
    } else if a.WorkflowWrite? && mine.Saving? && mine.workflow.id < |w.workflows| {
      HeldAndDropped(SaveWorkflow(w, mine.workflow), c, held, d);
    }
  }

  /** The step of the engine's job is the same whether or not the call is held. */
  predicate Apart(w: World, c: nat, held: Call, pc: Pc, choice: Choice)
    requires pc.HasJob()
  {
    var m := JobStep(w, pc, choice);
    JobStep(Hold(w, c, held), pc, choice) == Machine(Hold(m.world, c, held), m.pc) && m.world.calls == w.calls
  }

  lemma {:induction false} JobApart(w: World, c: nat, held: Call, pc: Pc, choice: Choice)
    requires pc.HasJob()
    ensures Apart(w, c, held, pc, choice)
  {
    if pc.Starting? || pc.Marking? || pc.Finishing? {
      EdgeApart(w, c, held, pc, choice);
    } else if pc.Checking? || pc.Creating? {
      HeadApart(w, c, held, pc, choice);
    } else if pc.Launching? || pc.Executing? || pc.Recording? {
      StepApart(w, c, held, pc, choice);
    } else {
      SkipApart(w, c, held, pc, choice);
    }
  }

  lemma {:induction false} EdgeApart(w: World, c: nat, held: Call, pc: Pc, choice: Choice)
    requires pc.Starting? || pc.Marking? || pc.Finishing?
    ensures Apart(w, c, held, pc, choice)
  {
  }

  lemma {:induction false} HeadApart(w: World, c: nat, held: Call, pc: Pc, choice: Choice)
    requires pc.Checking? || pc.Creating?
    ensures Apart(w, c, held, pc, choice)
  {
  }

  lemma {:induction false} StepApart(w: World, c: nat, held: Call, pc: Pc, choice: Choice)
    requires pc.Launching? || pc.Executing? || pc.Recording?
    ensures Apart(w, c, held, pc, choice)
  {
  }

  lemma {:induction false} SkipApart(w: World, c: nat, held: Call, pc: Pc, choice: Choice)
    requires pc.Skipping? || pc.Confirming?
    ensures Apart(w, c, held, pc, choice)
  {
  }

  /** Nor do the engine's steps: they neither read nor write what calls hold. */
  lemma {:induction false} EngineApart(m: Machine, c: nat, held: Call, choice: Choice)
    ensures EngineStep(m, choice).world.calls == m.world.calls
    ensures EngineStep(Machine(Hold(m.world, c, held), m.pc), choice)
         == Machine(Hold(EngineStep(m, choice).world, c, held), EngineStep(m, choice).pc)
  {
    if m.pc.HasJob() { JobApart(m.world, c, held, m.pc, choice); }
  }

  predicate StrangerRun(actions: seq<Action>, c: nat) {
    forall k :: 0 <= k < |actions| && actions[k].Env? ==> !Names(actions[k].action, c)
  }

  /** So a half-done call can be held across any interleaving of the engine and the other calls: what they do
      is the same with it as without it, and it is still held afterwards. */
  lemma {:induction false} HeldApartRun(m: Machine, c: nat, held: Call, actions: seq<Action>)
    requires c !in m.world.calls && StrangerRun(actions, c)
    ensures c !in Execute(m, actions).world.calls
    ensures Execute(Machine(Hold(m.world, c, held), m.pc), actions)
         == Machine(Hold(Execute(m, actions).world, c, held), Execute(m, actions).pc)
    decreases |actions|
  {
    if actions != [] {
      match actions[0] {
        case Env(a) => HeldApartStep(m.world, c, held, a);
        case Engine(choice) => EngineApart(m, c, held, choice);
      }
      HeldApartRun(Step(m, actions[0]), c, held, actions[1..]);
    }
  }

  lemma {:induction false} Released(w: World, c: nat, held: Call)
    requires c !in w.calls
    ensures Drop(Hold(w, c, held), c) == w && Drop(w, c) == w
  {
    assert w.calls[c := held] - {c} == w.calls && w.calls - {c} == w.calls;
  }

  /** The halves of a two-part call with `between` from the engine and the other calls: a read that holds, a
      write that releases. */
  lemma {:induction false} TwoHalves(
      m: Machine, c: nat, held: Call, read: EnvAction, between: seq<Action>, write: EnvAction)
    requires c !in m.world.calls && StrangerRun(between, c) && EnvStep(m.world, read) == Hold(m.world, c, held)
    ensures c !in Execute(m, between).world.calls
    ensures Execute(m, [Env(read)] + between + [Env(write)])
         == Machine(EnvStep(Hold(Execute(m, between).world, c, held), write), Execute(m, between).pc)
  {
    HeldApartRun(m, c, held, between);
    var first := [Env(read)] + between;
    ExecuteOne(m, Env(read));
    ExecuteAll(m, [Env(read)], between);
    ExecuteAll(m, first, [Env(write)]);
    ExecuteOne(Execute(m, first), Env(write));
  }

  /** Cancel's halves: the write lands on what the engine and the others made of the row. */
  lemma {:induction false} CancelHalves(m: Machine, c: nat, e: nat, between: seq<Action>, fault: Option<string>)
    requires c !in m.world.calls && StrangerRun(between, c)
    requires HasExecution(m.world, e) && Cancelable(m.world.executions[e].status)
    ensures c !in Execute(m, between).world.calls
    ensures var n := Execute(m, between);
            Execute(m, [Env(CancelRead(c, e))] + between + [Env(CancelWrite(c, fault))])
            == if Refusal(fault, HasExecution(n.world, e)).Some? then n else Machine(Canceled(n.world, e), n.pc)
  {
    hide Execute;
    TwoHalves(m, c, Canceling(e), CancelRead(c, e), between, CancelWrite(c, fault));
    var w := Execute(m, between).world;
    Released(w, c, Canceling(e));
    if Refusal(fault, HasExecution(w, e)).None? {
      Released(Canceled(w, e), c, Canceling(e));
    }
  }

  /** The halves of Update, Activate and Archive: the row decided on the row that was read is written over
      whatever the stored row has become. */
  lemma {:induction false} ChangeHalves(
      m: Machine, c: nat, id: nat, request: WorkflowRequest, between: seq<Action>, fault: Option<string>)
    requires c !in m.world.calls && StrangerRun(between, c)
    requires id < |m.world.workflows| && Decide(m.world.workflows[id], request).Success?
    ensures c !in Execute(m, between).world.calls
    ensures var n, wf := Execute(m, between), Decide(m.world.workflows[id], request).value;
            Execute(m, [Env(WorkflowRead(c, id, request))] + between + [Env(WorkflowWrite(c, fault))])
            == if Refusal(fault, wf.id < |n.world.workflows|).Some? then n else Machine(SaveWorkflow(n.world, wf), n.pc)
  {
    hide Execute;
    var wf := Decide(m.world.workflows[id], request).value;
    TwoHalves(m, c, Saving(wf), WorkflowRead(c, id, request), between, WorkflowWrite(c, fault));
    Released(Execute(m, between).world, c, Saving(wf));
  }

  /** The first two repository calls of Trigger, started at the time of the first. */
  lemma {:induction false} TriggerHalves(m: Machine, c: nat, id: nat, between: seq<Action>)
    requires c !in m.world.calls && StrangerRun(between, c)
    requires id < |m.world.workflows| && m.world.workflows[id].status == Active
    ensures var n, wf := Execute(m, between), m.world.workflows[id];
            && c !in n.world.calls
            && var x := Execution(|n.world.executions|, wf.id, ExecPending, Some(m.world.clock), None, Blank);
            && var w' := InsertExecution(n.world, x, wf);
            && w'.executions == n.world.executions + [x] && w'.stepRows == n.world.stepRows + [[]]
            && Execute(m, Opening(between, c, id)) == Machine(Hold(w', c, Inserting(wf, x.id, 0)), n.pc)
  {
    hide Execute;
    var w, wf := Execute(m, between).world, m.world.workflows[id];
    var held, next := Triggering(wf, m.world.clock), Inserting(wf, |w.executions|, 0);
    TwoHalves(m, c, held, TriggerRead(c, id), between, EnvAction.TriggerExecution(c, None));
    assert w.calls[c := held][c := next] == w.calls[c := next];
  }

  /** One round of Trigger's loop. */
  lemma {:induction false} InsertionRound(
      m: Machine, c: nat, wf: Workflow, e: nat, k: nat, between: seq<Action>, fault: Option<string>)
    requires c !in m.world.calls && StrangerRun(between, c) && k < |wf.steps|
    ensures var n := Execute(m, between);
            && c !in n.world.calls
            && Execute(Machine(Hold(m.world, c, Inserting(wf, e, k)), m.pc),
                       between + [Env(EnvAction.TriggerStep(c, fault))])
               == if Refusal(fault, HasExecution(n.world, e)).Some? then n
                  else
                    var row := StepRow(e, wf.steps[k].name, StepPending, None, None, None, Blank, ByTrigger(k));
                    var rows := n.world.stepRows[e := n.world.stepRows[e] + [row]];
                    Machine(Hold(n.world.(stepRows := rows), c, Inserting(wf, e, k + 1)), n.pc)
  {
    hide Execute;
    var held, next, write := Inserting(wf, e, k), Inserting(wf, e, k + 1), Env(EnvAction.TriggerStep(c, fault));
    var start, w := Machine(Hold(m.world, c, held), m.pc), Execute(m, between).world;
    HeldApartRun(m, c, held, between);
    ExecuteAll(start, between, [write]);
    ExecuteOne(Execute(start, between), write);
    Released(w, c, held);
    assert w.calls[c := held][c := next] == w.calls[c := next];
  }

  /** Rounds of the loop, from repository call `tick` on, with what others do before each. */
  ghost function Rounds(oracle: nat -> Turn, tick: nat, c: nat, count: nat): seq<Action> {
    if count == 0 then []
    else Rounds(oracle, tick, c, count - 1) + LastRound(oracle(tick + count - 1), c)
  }

  /** Everything that happens from a Trigger call's check on: its own repository calls, `count` of its row
      inserts among them, and what others do between. A refused insert ends the call, as does the last row. */
  ghost function TriggerActions(
      oracle: nat -> Turn, tick: nat, c: nat, id: nat, count: nat, complete: bool): seq<Action>
  {
    Opening(oracle(tick).before, c, id) + Rounds(oracle, tick + 1, c, count)
    + Ending(oracle, tick + 1 + count, c, complete)
  }

  ghost function Opening(between: seq<Action>, c: nat, id: nat): seq<Action> {
    [Env(TriggerRead(c, id))] + between + [Env(EnvAction.TriggerExecution(c, None))]
  }

  ghost function Ending(oracle: nat -> Turn, tick: nat, c: nat, complete: bool): seq<Action> {
    if complete then [Env(EnvAction.TriggerStep(c, None))] else LastRound(oracle(tick), c)
  }

  ghost function LastRound(turn: Turn, c: nat): seq<Action> {
    turn.before + [Env(EnvAction.TriggerStep(c, turn.choice.fault))]
  }

  /** The call is in its loop: its actions so far lead to `now`, where it is about to insert row `k`. */
  ghost predicate InLoop(m: Machine, done: seq<Action>, now: Machine, me: nat, wf: Workflow, e: nat, k: nat) {
    Execute(m, done) == Machine(Hold(now.world, me, Inserting(wf, e, k)), now.pc)
  }

  lemma {:induction false} RoundInLoop(
      m: Machine, done: seq<Action>, now: Machine, c: nat, wf: Workflow, e: nat, k: nat, turn: Turn)
    requires c !in now.world.calls && StrangerRun(turn.before, c) && k < |wf.steps|
    requires InLoop(m, done, now, c, wf, e, k)
    ensures var n := Execute(now, turn.before);
            && c !in n.world.calls
            && (if Refusal(turn.choice.fault, HasExecution(n.world, e)).Some?
                then Execute(m, done + LastRound(turn, c)) == n
                else
                  var w := AddStepRow(n.world, NewStepRow(e, wf.steps[k], StepPending, ByTrigger(k)));
                  InLoop(m, done + LastRound(turn, c), Machine(w, n.pc), c, wf, e, k + 1))
  {
    hide Execute;
    InsertionRound(now, c, wf, e, k, turn.before, turn.choice.fault);
    ExecuteAll(m, done, LastRound(turn, c));
  }

  lemma {:induction false} LoopEnds(m: Machine, done: seq<Action>, now: Machine, c: nat, wf: Workflow, e: nat)
    requires c !in now.world.calls && InLoop(m, done, now, c, wf, e, |wf.steps|)
    ensures Execute(m, done + [Env(EnvAction.TriggerStep(c, None))]) == now
  {
    var release := Env(EnvAction.TriggerStep(c, None));
    ExecuteAll(m, done, [release]);
    ExecuteOne(Execute(m, done), release);
    Released(now.world, c, Inserting(wf, e, |wf.steps|));
  }

  /** Nobody else uses the call number `me`, now or later. */
  ghost predicate Private(db: Database, me: nat)
    reads db
  {
    me !in db.world.calls && forall k :: StrangerRun(db.oracle(k).before, me)
  }

  lemma {:induction false} StaysPrivate(db: Database, me: nat)
    requires Private(db, me)
    ensures me !in db.Acting().world.calls
  {
    HeldApartRun(db.Here(), me, Canceling(0), db.oracle(db.tick).before);
  }

  /** The store's state is one that the system reaches, by some interleaving, from an empty store. */
  ghost predicate OnRun(db: Database)
    reads db
  {
    Reachable(db.Here())
  }

  lemma {:induction false} RunsOn(m: Machine, actions: seq<Action>)
    requires Reachable(m)
    ensures Reachable(Execute(m, actions))
  {
    var before :| IsReached(m, before);
    ExecuteAll(INITIAL, before, actions);
    assert IsReached(Execute(m, actions), before + actions);
  }

  /** What the next call finds is on the run too. */
  lemma {:induction false} StaysOnRun(db: Database)
    ensures OnRun(db) ==> Reachable(db.Acting())
  {
    hide Execute;
    if OnRun(db) { RunsOn(db.Here(), db.oracle(db.tick).before); }
  }

  /** The outcome of a two-part call is on the run. */
  lemma {:induction false} BothHalvesOnRun(m: Machine, read: EnvAction, between: seq<Action>, write: EnvAction)
    ensures Reachable(m) ==> Reachable(Execute(m, between))
    ensures Reachable(m) ==> Reachable(Execute(m, [Env(read)] + between + [Env(write)]))
  {
    hide Execute;
    if Reachable(m) {
      RunsOn(m, between);
      RunsOn(m, [Env(read)] + between + [Env(write)]);
    }
  }

  /** The tables differ in the status of one execution, which is canceled now. */
  predicate OnlyCanceled(w: World, w': World, e: nat) {
    && e < |w.executions|
    && w'.executions == w.executions[e := w.executions[e].(status := ExecCanceled)]
    && w'.stepRows == w.stepRows && w'.workflows == w.workflows
  }

  /** What Cancel does from its check on. */
  ghost predicate CancelDone(
      m: Machine, id: nat, turn: Turn, me: nat, m': Machine, err: Option<ServiceError>)
  {
    && m' == Execute(m, [Env(CancelRead(me, id))] + turn.before + [Env(CancelWrite(me, turn.choice.fault))])
    && (if Refusal(turn.choice.fault, HasExecution(Execute(m, turn.before).world, id)).Some?
        then err == Some(Internal) && m' == Execute(m, turn.before)
        else err == None && OnlyCanceled(Execute(m, turn.before).world, m'.world, id))
  }

  /** What a Trigger call past its checks does from repository call `tick` on. `inserted` counts the step rows
      written; when an insert is refused the execution and the rows before it stay behind. */
  ghost predicate Triggered(
      m: Machine, id: nat, oracle: nat -> Turn, tick: nat, me: nat, m': Machine, r: Result<Execution>, inserted: nat)
    requires id < |m.world.workflows|
  {
    var wf, n := m.world.workflows[id], Execute(m, oracle(tick).before);
    if oracle(tick).choice.fault.Some? then r == Failure(Internal) && m' == n
    else
      && inserted <= |wf.steps|
      && m' == Execute(m, TriggerActions(oracle, tick, me, id, inserted, inserted == |wf.steps|))
      && me !in m'.world.calls
      && r == (if inserted == |wf.steps|
               then Success(Execution(|n.world.executions|, wf.id, ExecPending, Some(m.world.clock), None, Blank))
               else Failure(Internal))
  }

  /** What Update, Activate and Archive share: the outcome is decided by the row read, and a success is one
      full-row write of the decided row, over whatever the stored row has become since. */
  ghost predicate Changed(
      m: Machine, id: nat, request: WorkflowRequest, readFault: Option<string>, turn: Turn, me: nat,
      m': Machine, r: Result<Workflow>)
  {
    if readFault.Some? || id >= |m.world.workflows| then r == Failure(Internal) && m' == m
    else if Decide(m.world.workflows[id], request).Failure?
    then r == Failure(Decide(m.world.workflows[id], request).error) && m' == m
    else
      var decided, fault := Decide(m.world.workflows[id], request).value, turn.choice.fault;
      && m' == Execute(m, [Env(WorkflowRead(me, id, request))] + turn.before + [Env(WorkflowWrite(me, fault))])
      && (if Refusal(fault, decided.id < |Execute(m, turn.before).world.workflows|).Some?
          then r == Failure(Internal) && m' == Execute(m, turn.before)
          else r == Success(decided) && decided.id < |m'.world.workflows| && m'.world.workflows[decided.id] == decided)
  }

  /** The write half of those three by its columns: others act, then `row` is stored as it is, under its id and
      over whatever is there, and answered; or the write is refused and stores nothing. */
  ghost predicate Saved(m: Machine, row: Workflow, turn: Turn, m': Machine, r: Result<Workflow>) {
    var n := Execute(m, turn.before);
    if turn.choice.fault.Some? || row.id >= |n.world.workflows| then r == Failure(Internal) && m' == n
    else r == Success(row) && m' == n.(world := n.world.(workflows := n.world.workflows[row.id := row]))
  }

  class ExecutionService {
    const db: Database

    constructor (db: Database)
      ensures this.db == db
    {
      this.db := db;
    }

    /** Cancel: read, check, blind write. The write lands on whatever the row has become since the read. A
        missing execution is an internal error: the repository reports it as an error, so the not-found
        branch of the source is never taken. */
    method Cancel(id: nat, ghost me: nat) returns (err: Option<ServiceError>)
      requires Private(db, me)
      modifies db
      ensures var m := old(db.Acting());
              if old(db.Fault()).Some? || !HasExecution(m.world, id) then err == Some(Internal) && db.Here() == m
              else if m.world.executions[id].status != ExecPending && m.world.executions[id].status != ExecRunning
              then err == Some(Conflict) && db.Here() == m
              else CancelDone(m, id, old(db.oracle(db.tick + 1)), me, db.Here(), err)
      ensures old(OnRun(db)) ==> OnRun(db)
    {
      hide Execute;
      StaysPrivate(db, me);
      StaysOnRun(db);
      var execution, refused := db.GetExecution(id);
      if refused.Some? {
        return Some(Internal);
      }
      var status := execution.value.status;
      if status != ExecPending && status != ExecRunning {
        return Some(Conflict);
      }
      if TransitionExecution(status, ExecCanceled).Some? {
        return Some(Conflict);
      }
      CancelHalves(db.Here(), me, id, db.oracle(db.tick).before, db.Fault());
      BothHalvesOnRun(db.Here(), CancelRead(me, id), db.oracle(db.tick).before, CancelWrite(me, db.Fault()));
      refused := db.UpdateExecutionStatus(id, ExecCanceled);
      if refused.Some? {
        return Some(Internal);
      }
      db.Note(id, CancelLanded);
      return None;
    }

    /** Trigger. A missing workflow is an internal error, as for Cancel. */
    method Trigger(workflowId: nat, ghost me: nat) returns (r: Result<Execution>, ghost inserted: nat)
      requires Private(db, me)
      modifies db
      ensures var m := old(db.Acting());
              if old(db.Fault()).Some? || workflowId >= |m.world.workflows|
              then r == Failure(Internal) && db.Here() == m
              else if m.world.workflows[workflowId].status != Active then r == Failure(Conflict) && db.Here() == m
              else Triggered(m, workflowId, db.oracle, old(db.tick) + 1, me, db.Here(), r, inserted)
      ensures old(OnRun(db)) ==> OnRun(db)
    {
      hide Execute;
      StaysPrivate(db, me);
      StaysOnRun(db);
      var workflow, err := db.GetWorkflow(workflowId);
      if err.Some? {
        return Failure(Internal), 0;
      }
      if workflow.value.status != Active {
        return Failure(Conflict), 0;
      }
      r, inserted := Launch(workflow.value, workflowId, me);
    }

    /** Trigger past its checks. */
    method Launch(workflow: Workflow, ghost workflowId: nat, ghost me: nat)
      returns (r: Result<Execution>, ghost inserted: nat)
      requires Private(db, me)
      requires workflowId < |db.world.workflows| && db.world.workflows[workflowId] == workflow
      requires workflow.status == Active
      modifies db
      ensures Triggered(old(db.Here()), workflowId, db.oracle, old(db.tick), me, db.Here(), r, inserted)
      ensures old(OnRun(db)) ==> OnRun(db)
    {
      hide Execute;
      ghost var m, between := db.Here(), db.oracle(db.tick).before;
      TriggerHalves(m, me, workflowId, between);
      StaysOnRun(db);
      var execution := Execution(0, workflow.id, ExecPending, Some(db.Now()), None, Blank);
      var id, err := db.CreateExecution(execution, workflow);
      if err.Some? {
        return Failure(Internal), 0;
      }
      execution := execution.(id := id);
      r, inserted := InsertRows(workflow, execution, m, Opening(between, me, workflowId), me);
    }

    /** Trigger's loop, one Pending row per step of the workflow it read. */
    method InsertRows(workflow: Workflow, execution: Execution,
        ghost m: Machine, ghost opening: seq<Action>, ghost me: nat)
      returns (r: Result<Execution>, ghost inserted: nat)
      requires Private(db, me) && InLoop(m, opening, db.Here(), me, workflow, execution.id, 0)
      modifies db
      ensures inserted <= |workflow.steps| && me !in db.world.calls
      ensures db.Here() == Execute(m, opening + Rounds(db.oracle, old(db.tick), me, inserted)
                + Ending(db.oracle, old(db.tick) + inserted, me, inserted == |workflow.steps|))
      ensures r == if inserted == |workflow.steps| then Success(execution) else Failure(Internal)
      ensures Reachable(m) ==> OnRun(db)
    {
      hide Execute;
      var steps := workflow.steps;
      ghost var t, done := db.tick, opening;
      inserted := 0;
      for k := 0 to |steps|
        invariant Private(db, me) && inserted == k && db.tick == t + k
        invariant done == opening + Rounds(db.oracle, t, me, k)
        invariant InLoop(m, done, db.Here(), me, workflow, execution.id, k)
      {
        ghost var turn := db.oracle(db.tick);
        var err := InsertRow(steps[k], execution.id, k, workflow, m, done, me);
        if err.Some? {
          if Reachable(m) { RunsOn(m, done + LastRound(turn, me)); }
          return Failure(Internal), k;
        }
        done := done + LastRound(turn, me);
        inserted := k + 1;
      }
      LoopEnds(m, done, db.Here(), me, workflow, execution.id);
      if Reachable(m) { RunsOn(m, done + [Env(EnvAction.TriggerStep(me, None))]); }
      return Success(execution), |steps|;
    }

    method InsertRow(step: StepDefinition, id: nat, k: nat,
        ghost workflow: Workflow, ghost m: Machine, ghost done: seq<Action>, ghost me: nat)
      returns (err: Option<string>)
      requires k < |workflow.steps| && step == workflow.steps[k]
      requires Private(db, me) && InLoop(m, done, db.Here(), me, workflow, id, k)
      modifies db
      ensures Private(db, me) && db.tick == old(db.tick) + 1
      ensures err.Some? ==> Execute(m, done + LastRound(old(db.oracle(db.tick)), me)) == db.Here()
      ensures err.None? ==> InLoop(m, done + LastRound(old(db.oracle(db.tick)), me), db.Here(), me, workflow, id, k + 1)
    {
      hide Execute;
      RoundInLoop(m, done, db.Here(), me, workflow, id, k, db.oracle(db.tick));
      var row;
      row, err := db.CreateStepRow(NewStepRow(id, step, StepPending, ByTrigger(k)));
    }
  }

  class WorkflowService {
    const db: Database

    constructor (db: Database)
      ensures this.db == db
    {
      this.db := db;
    }

    /** Create; `valid` is the verdict of the external validator on the input. */
    method Create(name: string, description: string, steps: seq<StepDefinition>, valid: bool)
      returns (r: Result<Workflow>)
      modifies db
      ensures !valid ==> r == Failure(Invalid) && db.Here() == old(db.Here())
      ensures valid && old(db.Fault()).Some? ==> r == Failure(Internal) && db.Here() == old(db.Acting())
      ensures valid && old(db.Fault()).None? ==>
                var m := old(db.Acting());
                var row := Workflow(|m.world.workflows|, name, description, steps, Draft);
                && r == Success(row)
                && db.Here() == m.(world := m.world.(workflows := m.world.workflows + [row]))
                && db.Here() == Step(m, Env(CreateWorkflow(name, description, steps)))
      ensures old(OnRun(db)) ==> OnRun(db)
    {
      hide Execute;
      if !valid {
        return Failure(Invalid);
      }
      StaysOnRun(db);
      ghost var m, call := db.Acting(), Env(CreateWorkflow(name, description, steps));
      ExecuteOne(m, call);
      if OnRun(db) { RunsOn(m, [call]); }
      var workflow := Workflow(0, name, description, steps, Draft);
      var id, err := db.CreateWorkflow(workflow);
      if err.Some? {
        return Failure(Internal);
      }
      workflow := workflow.(id := id);
      return Success(workflow);
    }

    /** The write half of the other three: UpdateWorkflow of the decided row. */
    method Write(workflow: Workflow, id: nat, ghost request: WorkflowRequest, ghost me: nat)
      returns (r: Result<Workflow>)
      requires Private(db, me) && id < |db.world.workflows|
      requires Decide(db.world.workflows[id], request) == Success(workflow)
      modifies db
      ensures Changed(old(db.Here()), id, request, None, old(db.oracle(db.tick)), me, db.Here(), r)
      ensures Saved(old(db.Here()), workflow, old(db.oracle(db.tick)), db.Here(), r)
      ensures old(OnRun(db)) ==> OnRun(db)
    {
      hide Execute;
      ChangeHalves(db.Here(), me, id, request, db.oracle(db.tick).before, db.Fault());
      var read, write := WorkflowRead(me, id, request), WorkflowWrite(me, db.Fault());
      BothHalvesOnRun(db.Here(), read, db.oracle(db.tick).before, write);
      var err := db.UpdateWorkflow(workflow);
      if err.Some? {
        return Failure(Internal);
      }
      return Success(workflow);
    }

    method Update(id: nat, name: Option<string>, description: Option<string>, steps: seq<StepDefinition>,
        valid: bool, ghost me: nat)
      returns (r: Result<Workflow>)
      requires Private(db, me)
      modifies db
      ensures !valid ==> r == Failure(Invalid) && db.Here() == old(db.Here())
      ensures var m := old(db.Acting());
              valid ==>
                if old(db.Fault()).Some? || id >= |m.world.workflows| then r == Failure(Internal) && db.Here() == m
                else if m.world.workflows[id].status == Active then r == Failure(Conflict) && db.Here() == m
                else
                  var read := m.world.workflows[id];
                  var row := Workflow(
                    read.id,
                    if name.Some? then name.value else read.name,
                    if description.Some? then description.value else read.description,
                    if steps != [] then steps else read.steps,
                    read.status);
                  Saved(m, row, old(db.oracle(db.tick + 1)), db.Here(), r)
      ensures valid ==> Changed(old(db.Acting()), id, Modify(name, description, steps), old(db.Fault()),
                          old(db.oracle(db.tick + 1)), me, db.Here(), r)
      ensures old(OnRun(db)) ==> OnRun(db)
    {
      hide Execute;
      if !valid {
        return Failure(Invalid);
      }
      StaysPrivate(db, me);
      StaysOnRun(db);
      var found, err := db.GetWorkflow(id);
      if err.Some? {
        return Failure(Internal);
      }
      var workflow := found.value;
      if workflow.status == Active {
        return Failure(Conflict);
      }
      if name.Some? {
        workflow := workflow.(name := name.value);
      }
      if description.Some? {
        workflow := workflow.(description := description.value);
      }
      if |steps| > 0 {
        workflow := workflow.(steps := steps);
      }
      r := Write(workflow, id, Modify(name, description, steps), me);
    }

    method Activate(id: nat, ghost me: nat) returns (r: Result<Workflow>)
      requires Private(db, me)
      modifies db
      ensures var m := old(db.Acting());
              if old(db.Fault()).Some? || id >= |m.world.workflows| then r == Failure(Internal) && db.Here() == m
              else
                var read := m.world.workflows[id];
                if read.steps == [] then r == Failure(Invalid) && db.Here() == m
                else if read.status != Draft then r == Failure(Conflict) && db.Here() == m
                else
                  var row := Workflow(read.id, read.name, read.description, read.steps, Active);
                  Saved(m, row, old(db.oracle(db.tick + 1)), db.Here(), r)
      ensures Changed(old(db.Acting()), id, WorkflowRequest.Activate, old(db.Fault()),
                old(db.oracle(db.tick + 1)), me, db.Here(), r)
      ensures old(OnRun(db)) ==> OnRun(db)
    {
      hide Execute;
      StaysPrivate(db, me);
      StaysOnRun(db);
      var found, err := db.GetWorkflow(id);
      if err.Some? {
        return Failure(Internal);
      }
      var workflow := found.value;
      if |workflow.steps| == 0 {
        return Failure(Invalid);
      }
      if TransitionWorkflow(workflow.status, Active).Some? {
        return Failure(Conflict);
      }
      workflow := workflow.(status := Active);
      r := Write(workflow, id, WorkflowRequest.Activate, me);
    }

    method Archive(id: nat, ghost me: nat) returns (r: Result<Workflow>)
      requires Private(db, me)
      modifies db
      ensures var m := old(db.Acting());
              if old(db.Fault()).Some? || id >= |m.world.workflows| then r == Failure(Internal) && db.Here() == m
              else
                var read := m.world.workflows[id];
                if read.status != Active then r == Failure(Conflict) && db.Here() == m
                else
                  var row := Workflow(read.id, read.name, read.description, read.steps, Archived);
                  Saved(m, row, old(db.oracle(db.tick + 1)), db.Here(), r)
      ensures Changed(old(db.Acting()), id, WorkflowRequest.Archive, old(db.Fault()),
                old(db.oracle(db.tick + 1)), me, db.Here(), r)
      ensures old(OnRun(db)) ==> OnRun(db)
    {
      hide Execute;
      StaysPrivate(db, me);
      StaysOnRun(db);
      var found, err := db.GetWorkflow(id);
      if err.Some? {
        return Failure(Internal);
      }
      var workflow := found.value;
      if TransitionWorkflow(workflow.status, Archived).Some? {
        return Failure(Conflict);
      }
      workflow := workflow.(status := Archived);
      r := Write(workflow, id, WorkflowRequest.Archive, me);
    }
  }
}
