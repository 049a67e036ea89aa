/** The exact outcome of engine runs without faults: when a cancellation takes hold, what is left then and
    otherwise, and how many step rows an execution owns. */
module CleanOutcomes {
  import opened Domain
  import opened State
  import opened Environment
  import opened Machine
  import opened Safety
  import opened Guarantees
  import opened CleanRuns

  lemma {:induction false} CleanReached(actions: seq<Action>, e: nat)
    requires forall k :: 0 <= k < |actions| ==> Clean(actions[k])
    requires e < |Reached(actions).world.executions|
    ensures CleanInv(Reached(actions))
    ensures Reached(actions).pc.Focus() != Some(e) ==> CleanResting(Reached(actions).world, e)
  {
    ExecuteKeepsClean(INITIAL, actions);
  }

  // ---- what the window automaton means ----

  /** A cancel landed at `p` after the engine's Running update at `o`, and the pre-step read at `q` saw it
      before the engine's final update. */
  predicate TookHoldAt(trace: seq<Mark>, o: nat, p: nat, q: nat) {
    && o < p < q < |trace|
    && trace[o] == Opened && trace[p] == CancelLanded && trace[q].Fetched?
    && (forall r :: 0 <= r < o ==> trace[r] != Opened)
    && (forall r :: o < r < q ==> trace[r] != Closed)
  }

  predicate TookHold(trace: seq<Mark>) {
    exists o: nat, p: nat, q: nat :: o < |trace| && p < |trace| && q < |trace| && TookHoldAt(trace, o, p, q)
  }

  lemma {:induction false} NotOpened(trace: seq<Mark>)
    requires forall r :: 0 <= r < |trace| ==> trace[r] != Opened
    ensures WindowOf(trace) == Before
  {
    if trace != [] { NotOpened(trace[..|trace| - 1]); }
  }

  lemma {:induction false} TakesHold(trace: seq<Mark>, o: nat, p: nat, q: nat, n: nat)
    requires TookHoldAt(trace, o, p, q) && o < n <= |trace|
    ensures var win := WindowOf(trace[..n]);
            && (n <= q ==> win.Open? || win.Hit? || win.Caught?)
            && (p < n <= q ==> win.Hit? || win.Caught?)
            && (q < n ==> win.Caught?)
  {
    assert trace[..n][..n - 1] == trace[..n - 1];
    if n - 1 == o {
      NotOpened(trace[..o]);
    } else {
      TakesHold(trace, o, p, q, n - 1);
    }
  }

  lemma {:induction false} FindOpened(trace: seq<Mark>) returns (o: nat)
    requires !WindowOf(trace).Before?
    ensures o < |trace| && trace[o] == Opened && forall r :: 0 <= r < o ==> trace[r] != Opened
  {
    var n := |trace| - 1;
    if WindowOf(trace[..n]).Before? {
      o := n;
      if exists r :: 0 <= r < n && trace[r] == Opened {
        StaysOpened(trace[..n]);
      }
    } else {
      o := FindOpened(trace[..n]);
    }
  }

  lemma {:induction false} StaysOpened(trace: seq<Mark>)
    requires exists r :: 0 <= r < |trace| && trace[r] == Opened
    ensures !WindowOf(trace).Before?
  {
    var n := |trace| - 1;
    if trace[n] != Opened {
      var r :| 0 <= r < |trace| && trace[r] == Opened;
      assert trace[..n][r] == Opened;
      StaysOpened(trace[..n]);
    }
  }

  /** Open and hit windows have seen no final update since the first Running update; a hit one has seen a cancel. */
  lemma {:induction false} FindHit(trace: seq<Mark>) returns (o: nat, p: nat)
    requires WindowOf(trace).Open? || WindowOf(trace).Hit?
    ensures o < |trace| && trace[o] == Opened && (forall r :: 0 <= r < o ==> trace[r] != Opened)
    ensures forall r :: o < r < |trace| ==> trace[r] != Closed
    ensures WindowOf(trace).Hit? ==> o < p < |trace| && trace[p] == CancelLanded
  {
    var n := |trace| - 1;
    if WindowOf(trace[..n]).Before? {
      o := FindOpened(trace);
      p := 0;
      if o != n { assert trace[..n][o] == Opened; StaysOpened(trace[..n]); }
    } else {
      o, p := FindHit(trace[..n]);
      if WindowOf(trace[..n]).Open? && WindowOf(trace).Hit? { p := n; }
    }
  }

  lemma {:induction false} FindCaught(trace: seq<Mark>)
    requires WindowOf(trace).Caught?
    ensures TookHold(trace)
  {
    var n := |trace| - 1;
    if WindowOf(trace[..n]).Caught? {
      FindCaught(trace[..n]);
      var o: nat, p: nat, q: nat :| o < n && p < n && q < n && TookHoldAt(trace[..n], o, p, q);
      assert TookHoldAt(trace, o, p, q);
    } else {
      var o, p := FindHit(trace[..n]);
      assert TookHoldAt(trace, o, p, n);
    }
  }

  /** The automaton is caught exactly when the three events happened in that order. */
  lemma {:induction false} CaughtMeansTookHold(trace: seq<Mark>)
    ensures WindowOf(trace).Caught? <==> TookHold(trace)
  {
    if WindowOf(trace).Caught? {
      FindCaught(trace);
    }
    if TookHold(trace) {
      var o: nat, p: nat, q: nat :| o < |trace| && p < |trace| && q < |trace| && TookHoldAt(trace, o, p, q);
      TakesHold(trace, o, p, q, |trace|);
      assert trace[..|trace|] == trace;
    }
  }

  /** Some cancel landed after the engine's final update. */
  predicate CanceledLate(trace: seq<Mark>) {
    exists p, q :: 0 <= p < q < |trace| && trace[p] == Closed && trace[q] == CancelLanded
  }

  lemma {:induction false} LateMeansLate(trace: seq<Mark>)
    ensures WindowOf(trace).Shut? ==> Closed in trace
    ensures WindowOf(trace) == Shut(true) ==> CanceledLate(trace)
  {
    if trace != [] {
      var n := |trace| - 1;
      LateMeansLate(trace[..n]);
      if WindowOf(trace) == Shut(true) {
        if WindowOf(trace[..n]) == Shut(true) {
          var p, q :| 0 <= p < q < n && trace[..n][p] == Closed && trace[..n][q] == CancelLanded;
          assert trace[p] == Closed && trace[q] == CancelLanded;
        } else {
          var p :| 0 <= p < n && trace[..n][p] == Closed;
          assert trace[p] == Closed && trace[n] == CancelLanded;
        }
      }
    }
  }

  // ---- outcomes ----

  /** The exact cancellation window. If every cancel landed before the engine's final update, the row ends
      canceled exactly when some cancel landed after the Running update and a later pre-step read saw it;
      then the runner was called for the steps before that read and for none from it on, those earlier
      steps have succeeded rows, and every later step has a skipped row. */
  lemma {:induction false} CancellationWindow(actions: seq<Action>, e: nat)
    requires forall k :: 0 <= k < |actions| ==> Clean(actions[k])
    requires e < |Reached(actions).world.executions| && Reached(actions).pc.Focus() != Some(e)
    requires Reached(actions).world.logs[e].entries != []
    ensures var w := Reached(actions).world;
            var log, status := w.logs[e], w.executions[e].status;
            var wf, n := log.entries[0], |log.entries[0].steps|;
            && (TookHold(log.trace) ==>
                  && status == ExecCanceled
                  && |log.runs| < n && RanWell(wf, log.runs)
                  && WindowOf(log.trace) == Caught(|log.runs|)
                  && EngineRows(w.stepRows[e]) == SucceededRows(wf, e, |log.runs|) + SkippedRows(wf, e, |log.runs|, n))
            && (!CanceledLate(log.trace) ==> (status == ExecCanceled <==> TookHold(log.trace)))
  {
    CleanReached(actions, e);
    var w := Reached(actions).world;
    var log, wf := w.logs[e], w.logs[e].entries[0];
    CaughtMeansTookHold(log.trace);
    LateMeansLate(log.trace);
    if TookHold(log.trace) {
      assert ExpectedRows(wf, e, log.runs, |wf.steps|)
          == SucceededRows(wf, e, |log.runs|) + SkippedRows(wf, e, |log.runs|, |wf.steps|);
    }
  }

  /** A runner call that reported an error or a non-zero exit code. */
  predicate CameBackBad(run: Run) {
    run.result.error.Some? || run.result.exitCode != 0
  }

  /** The engine's row for step `i`: skipped when the step was not called, failed with the exit code when the
      call came back bad, and succeeded with exit code 0 otherwise. */
  function FinalRow(wf: Workflow, e: nat, runs: seq<Run>, i: nat): StepRow
    requires i < |wf.steps|
  {
    var (status, exitCode) :=
      if i >= |runs| then (StepSkipped, None)
      else if CameBackBad(runs[i]) then (StepFailed, Some(runs[i].result.exitCode))
      else (StepSucceeded, Some(0));
    StepRow(e, wf.steps[i].name, status, None, None, exitCode, Blank, ByEngine(i))
  }

  /** The calls and rows of an engine run. The runner is called for the steps in order, each time with the step's
      own definition, up to and including the first call that comes back bad, and there is one row per step, by
      what became of its call. */
  predicate CallsAndRows(wf: Workflow, e: nat, runs: seq<Run>, rows: seq<StepRow>) {
    var n, m := |wf.steps|, |runs|;
    && m <= n && (m < n ==> m > 0 && CameBackBad(runs[m - 1]))
    && (forall q :: 0 <= q < m ==> runs[q].index == q && runs[q].step == wf.steps[q])
    && (forall q :: 0 <= q < m - 1 ==> !CameBackBad(runs[q]))
    && |rows| == n
    && (forall i :: 0 <= i < n ==> rows[i] == FinalRow(wf, e, runs, i))
  }

  /** Failed, with the broken step in the error, when the last call came back bad, and otherwise Succeeded. */
  predicate EndsAccordingly(wf: Workflow, runs: seq<Run>, x: Execution)
    requires |runs| <= |wf.steps|
  {
    var m := |runs|;
    if m > 0 && CameBackBad(runs[m - 1]) then
      var result := runs[m - 1].result;
      && x.status == ExecFailed
      && x.error == StepBroken(wf.steps[m - 1].name, result.exitCode, result.error)
    else x.status == ExecSucceeded && x.error == Blank
  }

  /** An engine run in which no cancel took hold, though some may have landed and been overwritten: its calls and
      rows are determined by the results up to the first bad one, and so, unless a cancel landed after the final
      update, is what is stored of the execution. */
  lemma {:induction false} RunOutcome(actions: seq<Action>, e: nat)
    requires forall k :: 0 <= k < |actions| ==> Clean(actions[k])
    requires e < |Reached(actions).world.executions| && Reached(actions).pc.Focus() != Some(e)
    requires Reached(actions).world.logs[e].entries != []
    requires !TookHold(Reached(actions).world.logs[e].trace)
    ensures var w := Reached(actions).world;
            var wf, runs := w.logs[e].entries[0], w.logs[e].runs;
            && CallsAndRows(wf, e, runs, EngineRows(w.stepRows[e]))
            && (!CanceledLate(w.logs[e].trace) ==> EndsAccordingly(wf, runs, w.executions[e]))
  {
    CleanReached(actions, e);
    StoredExecution(Reached(actions), e);
    CompletedOutcome(Reached(actions).world, e);
  }

  lemma {:induction false} CompletedOutcome(w: World, e: nat)
    requires Resting(w, e) && w.logs[e].entries != [] && Completed(w, e, w.logs[e].entries[0])
    requires RecordOk(w.executions[e]) && !TookHold(w.logs[e].trace)
    ensures var wf, runs := w.logs[e].entries[0], w.logs[e].runs;
            && CallsAndRows(wf, e, runs, EngineRows(w.stepRows[e]))
            && (!CanceledLate(w.logs[e].trace) ==> EndsAccordingly(wf, runs, w.executions[e]))
  {
    hide Shape;
    CaughtMeansTookHold(w.logs[e].trace);
    LateMeansLate(w.logs[e].trace);
    ExpectedAreFinal(w.logs[e].entries[0], e, w.logs[e].runs);
  }

  lemma {:induction false} ExpectedAreFinal(wf: Workflow, e: nat, runs: seq<Run>)
    requires |runs| <= |wf.steps| && OrderlyRuns(runs)
    ensures var rows := ExpectedRows(wf, e, runs, |wf.steps|);
            && |rows| == |wf.steps|
            && (forall i :: 0 <= i < |rows| ==> rows[i] == FinalRow(wf, e, runs, i))
  {
    var k, rows := GoodCount(runs), ExpectedRows(wf, e, runs, |wf.steps|);
    forall i | 0 <= i < |rows| ensures rows[i] == FinalRow(wf, e, runs, i) {
      if i < k {
        assert rows[i] == SucceededRows(wf, e, k)[i] == RowOf(wf, e, i, StepSucceeded, Some(0));
      } else if i >= |runs| {
        assert rows[i] == SkippedRows(wf, e, |runs|, |wf.steps|)[i - |runs|] == RowOf(wf, e, i, StepSkipped, None);
      } else {
        assert rows[i] == RowOf(wf, e, k, StepFailed, Some(runs[k].result.exitCode));
      }
    }
  }

  // ---- Trigger's rows ----

  /** Trigger's rows for the first `k` steps: still as inserted. */
  function PendingRows(wf: Workflow, e: nat, k: nat): seq<StepRow>
    requires k <= |wf.steps|
  {
    seq(k, i requires 0 <= i < k =>
      StepRow(e, wf.steps[i].name, StepPending, None, None, None, Blank, ByTrigger(i)))
  }

  predicate TriggeredOk(w: World, e: nat) {
    && HasExecution(w, e)
    && var wf, rows := w.logs[e].trigger, TriggerRows(w.stepRows[e]);
    && |rows| <= |wf.steps|
    && rows == PendingRows(wf, e, |rows|)
    && wf.id == w.executions[e].workflowId
  }

  /** A Trigger call that is inserting rows is the only one for its execution and knows how far it is. */
  predicate InsertingOk(w: World) {
    && (forall c :: c in w.calls && w.calls[c].Inserting? ==>
          && HasExecution(w, w.calls[c].execution)
          && w.calls[c].workflow == w.logs[w.calls[c].execution].trigger
          && w.calls[c].next == |TriggerRows(w.stepRows[w.calls[c].execution])|)
    && (forall c, d :: c in w.calls && d in w.calls && c != d && w.calls[c].Inserting? && w.calls[d].Inserting? ==>
          w.calls[c].execution != w.calls[d].execution)
  }

  predicate TriggerInv(m: Machine) {
    && Inv(m)
    && AllTriggered(m.world)
    && InsertingOk(m.world)
  }

  /** What Trigger left of an execution is as it was. */
  predicate SameTriggerPart(w: World, w': World, e: nat) {
    && HasExecution(w, e) && HasExecution(w', e)
    && TriggerRows(w'.stepRows[e]) == TriggerRows(w.stepRows[e])
    && w'.logs[e].trigger == w.logs[e].trigger
    && w'.executions[e].workflowId == w.executions[e].workflowId
  }

  predicate AllTriggered(w: World) {
    forall e :: 0 <= e < |w.executions| ==> TriggeredOk(w, e)
  }

  /** No engine step touches Trigger's rows. */
  lemma {:induction false} EngineLeavesTriggerRows(m: Machine, c: Choice, e: nat)
    requires Inv(m) && e < |m.world.executions|
    ensures SameTriggerPart(m.world, EngineStep(m, c).world, e)
  {
    StoredExecution(m, e);
    if m.pc.Focus() == Some(e) {
      FocusLeavesTriggerRows(m.world, m.pc, c);
    } else {
      EngineTouches(m, c, e);
    }
  }

  lemma {:induction false} FocusLeavesTriggerRows(w: World, pc: Pc, c: Choice)
    requires pc.HasJob() && HasExecution(w, pc.job.execution.id) && FocusOk(w, pc)
    ensures SameTriggerPart(w, JobStep(w, pc, c).world, pc.job.execution.id)
  {
    var rows := w.stepRows[pc.job.execution.id];
    if pc.Launching? || pc.Recording? || pc.Confirming? {
      StatusWriteOnly(w, pc, c);
      WriteLeavesTriggerRows(rows, pc.row);
    } else if pc.Creating? {
      CreatingAppends(w, pc, c);
      AppendRow(rows, NewStepRow(pc.job.execution.id, pc.job.workflow.steps[pc.i], StepPending, ByEngine(pc.i)));
    } else if pc.Skipping? {
      SkippingAppends(w, pc, c);
      AppendRow(rows, NewStepRow(pc.job.execution.id, pc.job.workflow.steps[pc.i], StepSkipped, ByEngine(pc.i)));
    } else {
      OtherPhasesLeaveRows(w, pc, c);
    }
  }

  /** The logs' triggers and the workflow ids survive, and the step rows become `rows`. */
  predicate RowsBecome(w: World, w': World, e: nat, rows: seq<StepRow>)
    requires HasExecution(w, e)
  {
    && HasExecution(w', e) && w'.stepRows[e] == rows
    && w'.logs[e].trigger == w.logs[e].trigger && w'.executions[e].workflowId == w.executions[e].workflowId
  }

  /** The three phases that write a step status change no more than the engine's last row. */
  lemma {:induction false} StatusWriteOnly(w: World, pc: Pc, c: Choice)
    requires (pc.Launching? || pc.Recording? || pc.Confirming?) && FocusOk(w, pc)
    ensures var w', e := JobStep(w, pc, c).world, pc.job.execution.id;
            || RowsBecome(w, w', e, w.stepRows[e])
            || exists row: StepRow :: row.author.ByEngine? && RowsBecome(w, w', e, w.stepRows[e][pc.row := row])
  {
    var w', e := JobStep(w, pc, c).world, pc.job.execution.id;
    if w' != w {
      assert w'.stepRows[e] == w.stepRows[e][pc.row := w'.stepRows[e][pc.row]];
    }
  }

  lemma {:induction false} CreatingAppends(w: World, pc: Pc, c: Choice)
    requires pc.Creating? && pc.i < |pc.job.workflow.steps| && HasExecution(w, pc.job.execution.id)
    ensures var w', e := JobStep(w, pc, c).world, pc.job.execution.id;
            var row := NewStepRow(e, pc.job.workflow.steps[pc.i], StepPending, ByEngine(pc.i));
            RowsBecome(w, w', e, w.stepRows[e]) || RowsBecome(w, w', e, w.stepRows[e] + [row])
  {
  }

  lemma {:induction false} SkippingAppends(w: World, pc: Pc, c: Choice)
    requires pc.Skipping? && pc.i < |pc.job.workflow.steps| && HasExecution(w, pc.job.execution.id)
    ensures var w', e := JobStep(w, pc, c).world, pc.job.execution.id;
            var row := NewStepRow(e, pc.job.workflow.steps[pc.i], StepSkipped, ByEngine(pc.i));
            RowsBecome(w, w', e, w.stepRows[e]) || RowsBecome(w, w', e, w.stepRows[e] + [row])
  {
  }

  lemma {:induction false} OtherPhasesLeaveRows(w: World, pc: Pc, c: Choice)
    requires pc.Starting? || pc.Marking? || pc.Checking? || pc.Executing? || pc.Finishing?
    requires HasExecution(w, pc.job.execution.id)
    ensures var w', e := JobStep(w, pc, c).world, pc.job.execution.id;
            RowsBecome(w, w', e, w.stepRows[e])
  {
  }

  lemma {:induction false} WriteLeavesTriggerRows(rows: seq<StepRow>, r: nat)
    requires IsLastEngineRow(rows, r)
    ensures forall row: StepRow :: row.author.ByEngine? ==> TriggerRows(rows[r := row]) == TriggerRows(rows)
  {
    forall row: StepRow | row.author.ByEngine? ensures TriggerRows(rows[r := row]) == TriggerRows(rows) {
      UpdateLastRow(rows, r, row);
    }
  }

  /** A step that leaves what Trigger wrote alone, and opens no call that inserts rows. */
  lemma {:induction false} TriggerFrame(w: World, w': World)
    requires AllTriggered(w) && InsertingOk(w) && |w'.executions| == |w.executions|
    requires forall e :: 0 <= e < |w.executions| ==> SameTriggerPart(w, w', e)
    requires forall c :: c in w'.calls && w'.calls[c].Inserting? ==> c in w.calls && w'.calls[c] == w.calls[c]
    ensures AllTriggered(w') && InsertingOk(w')
  {
    forall e | 0 <= e < |w'.executions| ensures TriggeredOk(w', e) {
      assert TriggeredOk(w, e) && SameTriggerPart(w, w', e);
    }
    forall c | c in w'.calls && w'.calls[c].Inserting?
      ensures HasExecution(w', w'.calls[c].execution)
      ensures w'.calls[c].workflow == w'.logs[w'.calls[c].execution].trigger
      ensures w'.calls[c].next == |TriggerRows(w'.stepRows[w'.calls[c].execution])|
    {
      assert HasExecution(w, w.calls[c].execution);
      assert SameTriggerPart(w, w', w.calls[c].execution);
    }
  }

  lemma {:induction false} EngineKeepsTrigger(m: Machine, c: Choice)
    requires TriggerInv(m)
    ensures TriggerInv(EngineStep(m, c))
  {
    var w, w' := m.world, EngineStep(m, c).world;
    EngineKeepsInv(m, c);
    EngineKeepsSizes(m, c);
    forall e | 0 <= e < |w.executions| ensures SameTriggerPart(w, w', e) {
      EngineLeavesTriggerRows(m, c, e);
    }
    TriggerFrame(w, w');
  }

  lemma {:induction false} EngineKeepsSizes(m: Machine, c: Choice)
    requires |m.world.executions| == |m.world.stepRows| == |m.world.logs|
    ensures |EngineStep(m, c).world.executions| == |m.world.executions|
    ensures EngineStep(m, c).world.calls == m.world.calls
  {
    if m.pc.HasJob() { JobTouches(m.world, m.pc, c); }
  }

  lemma {:induction false} OneMorePending(rows: seq<StepRow>, wf: Workflow, e: nat, next: nat)
    requires next < |wf.steps| && TriggerRows(rows) == PendingRows(wf, e, next)
    ensures var row := NewStepRow(e, wf.steps[next], StepPending, ByTrigger(next));
            TriggerRows(rows + [row]) == PendingRows(wf, e, next + 1)
  {
    AppendRow(rows, NewStepRow(e, wf.steps[next], StepPending, ByTrigger(next)));
  }

  predicate InsertsRow(w: World, a: EnvAction) {
    && a.TriggerStep? && a.fault.None? && a.call in w.calls && w.calls[a.call].Inserting?
    && w.calls[a.call].next < |w.calls[a.call].workflow.steps| && HasExecution(w, w.calls[a.call].execution)
  }

  /** One more row of a call that is inserting. */
  lemma {:induction false} RowKeepsTrigger(w: World, c: nat)
    requires |w.executions| == |w.stepRows| == |w.logs| && AllTriggered(w) && InsertingOk(w)
    requires c in w.calls && w.calls[c].Inserting? && w.calls[c].next < |w.calls[c].workflow.steps|
    requires HasExecution(w, w.calls[c].execution)
    ensures var w' := EnvStep(w, EnvAction.TriggerStep(c, None)); AllTriggered(w') && InsertingOk(w')
  {
    var w' := EnvStep(w, EnvAction.TriggerStep(c, None));
    var Inserting(wf, x, next) := w.calls[c];
    assert TriggeredOk(w, x);
    OneMorePending(w.stepRows[x], wf, x, next);
    assert TriggeredOk(w', x);
    forall e | 0 <= e < |w'.executions| && e != x ensures TriggeredOk(w', e) { assert TriggeredOk(w, e); }
    forall d | d in w'.calls && d != c && w'.calls[d].Inserting?
      ensures w'.calls[d] == w.calls[d] && w.calls[d].execution != x && HasExecution(w, w.calls[d].execution)
    {
    }
  }

  /** Trigger's insert of the execution. */
  lemma {:induction false} InsertKeepsTrigger(w: World, c: nat)
    requires |w.executions| == |w.stepRows| == |w.logs| && AllTriggered(w) && InsertingOk(w)
    requires c in w.calls && w.calls[c].Triggering?
    ensures var w' := EnvStep(w, EnvAction.TriggerExecution(c, None)); AllTriggered(w') && InsertingOk(w')
  {
    var w' := EnvStep(w, EnvAction.TriggerExecution(c, None));
    assert w'.stepRows[|w.executions|] == [] && TriggeredOk(w', |w.executions|);
    forall e | 0 <= e < |w.executions| ensures TriggeredOk(w', e) { assert TriggeredOk(w, e); }
    forall d | d in w'.calls && d != c && w'.calls[d].Inserting?
      ensures w'.calls[d] == w.calls[d] && HasExecution(w, w.calls[d].execution)
    {
    }
  }

  /** The other steps of the services leave what Trigger wrote alone. */
  lemma {:induction false} PlainKeepsTrigger(w: World, a: EnvAction)
    requires |w.executions| == |w.stepRows| == |w.logs| && AllTriggered(w) && InsertingOk(w)
    requires !InsertsRow(w, a)
    requires !(a.TriggerExecution? && a.call in w.calls && w.calls[a.call].Triggering? && a.fault.None?)
    ensures AllTriggered(EnvStep(w, a)) && InsertingOk(EnvStep(w, a))
  {
    var w' := EnvStep(w, a);
    forall e | 0 <= e < |w.executions| ensures SameTriggerPart(w, w', e) {
    }
    forall c | c in w'.calls && w'.calls[c].Inserting? ensures c in w.calls && w'.calls[c] == w.calls[c] {
      PlainOpensNoInsert(w, a, c);
    }
    TriggerFrame(w, w');
  }

  lemma {:induction false} PlainOpensNoInsert(w: World, a: EnvAction, c: nat)
    requires !InsertsRow(w, a)
    requires !(a.TriggerExecution? && a.call in w.calls && w.calls[a.call].Triggering? && a.fault.None?)
    requires c in EnvStep(w, a).calls && EnvStep(w, a).calls[c].Inserting?
    ensures c in w.calls && EnvStep(w, a).calls[c] == w.calls[c]
  {
  }

  lemma {:induction false} EnvKeepsTrigger(m: Machine, a: EnvAction)
    requires TriggerInv(m)
    ensures TriggerInv(Step(m, Env(a)))
  {
    var w := m.world;
    StepKeepsInv(m, Env(a));
    if InsertsRow(w, a) {
      RowKeepsTrigger(w, a.call);
    } else if a.TriggerExecution? && a.fault.None? && a.call in w.calls && w.calls[a.call].Triggering? {
      InsertKeepsTrigger(w, a.call);
    } else {
      PlainKeepsTrigger(w, a);
    }
  }

  lemma {:induction false} ReachedTrigger(m: Machine, actions: seq<Action>)
    requires TriggerInv(m)
    ensures TriggerInv(Execute(m, actions))
    decreases |actions|
  {
    if actions != [] {
      if actions[0].Env? { EnvKeepsTrigger(m, actions[0].action); } else { EngineKeepsTrigger(m, actions[0].choice); }
      ReachedTrigger(Step(m, actions[0]), actions[1..]);
    }
  }

  lemma {:induction false} TriggerReached(actions: seq<Action>, e: nat)
    requires e < |Reached(actions).world.executions|
    ensures TriggeredOk(Reached(actions).world, e)
  {
    ReachedTrigger(INITIAL, actions);
  }

  /** Row accounting: when Trigger inserted all its n rows and the engine ran, without faults, with the steps
      Trigger saw, the execution owns exactly 2n step rows: Trigger's n, still pending, and the engine's n,
      which name the same steps in the same order and are all in a final state. */
  lemma {:induction false} RowAccounting(actions: seq<Action>, e: nat)
    requires forall k :: 0 <= k < |actions| ==> Clean(actions[k])
    requires e < |Reached(actions).world.executions| && Reached(actions).pc.Focus() != Some(e)
    requires Reached(actions).world.logs[e].entries != []
    requires Reached(actions).world.logs[e].entries[0].steps == Reached(actions).world.logs[e].trigger.steps
    requires |TriggerRows(Reached(actions).world.stepRows[e])| == |Reached(actions).world.logs[e].trigger.steps|
    ensures var w := Reached(actions).world;
            var n, trigger, engine := |w.logs[e].trigger.steps|, TriggerRows(w.stepRows[e]), EngineRows(w.stepRows[e]);
            && |w.stepRows[e]| == 2 * n && |trigger| == n && |engine| == n
            && (forall i :: 0 <= i < n ==>
                  && trigger[i].status == StepPending && trigger[i].stepName == w.logs[e].trigger.steps[i].name
                  && engine[i].stepName == trigger[i].stepName
                  && engine[i].status in {StepSucceeded, StepFailed, StepSkipped})
  {
    hide Inv;
    hide CleanInv;
    CleanReached(actions, e);
    TriggerReached(actions, e);
    var w := Reached(actions).world;
    RowsPartition(w.stepRows[e]);
    ExpectedAreFinal(w.logs[e].entries[0], e, w.logs[e].runs);
  }
}
