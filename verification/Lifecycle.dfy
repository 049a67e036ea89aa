/** Start, Stop and the goroutine of pollLoop, as threads that interleave at the mutex and the two channels.
    Both channels are made once, when the engine is built, and closing a closed channel panics. */
module Lifecycle {

  /** One goroutine per successful Start: promised by `go`, in the select, in a pass, past its return but
      before the deferred close, and gone. */
  datatype Loop = Unborn | Selecting | Passing | Leaving | Gone

  /** A Stop call past its check: about to close stopCh, receiving from doneCh, about to reset, returned. */
  datatype Stopper = Checked | Awaiting | Resetting | Returned

  datatype State = State(
    running: bool, stopClosed: bool, doneClosed: bool, cancelled: set<nat>,
    loops: seq<Loop>, stops: seq<Stopper>, passes: nat, panicked: bool)

  datatype Action =
    | Start
    | Stop
    | Launch(loop: nat)
    | CancelContext(loop: nat)
    | BeginPass(loop: nat)
    | EndPass(loop: nat)
    | Leave(loop: nat)
    | CloseDone(loop: nat)
    | CloseStop(stop: nat)
    | Receive(stop: nat)
    | Reset(stop: nat)

  const BUILT := State(false, false, false, {}, [], [], 0, false)

  predicate LoopAt(s: State, i: nat, l: Loop) {
    i < |s.loops| && s.loops[i] == l
  }

  predicate StopAt(s: State, j: nat, p: Stopper) {
    j < |s.stops| && s.stops[j] == p
  }

  /** One atomic step. A step that is not enabled changes nothing, and nothing runs after a panic. The
      select may serve a tick although a stop or a cancelled context is ready too. */
  function Apply(s: State, a: Action): State {
    if s.panicked then s else
    match a
    case Start => if s.running then s else s.(running := true, loops := s.loops + [Unborn])
    case Stop => if !s.running then s else s.(stops := s.stops + [Checked])
    case Launch(i) => if LoopAt(s, i, Unborn) then s.(loops := s.loops[i := Selecting]) else s
    case CancelContext(i) => s.(cancelled := s.cancelled + {i})
    case BeginPass(i) =>
      if LoopAt(s, i, Selecting) then s.(loops := s.loops[i := Passing], passes := s.passes + 1) else s
    case EndPass(i) => if LoopAt(s, i, Passing) then s.(loops := s.loops[i := Selecting]) else s
    case Leave(i) =>
      if LoopAt(s, i, Selecting) && (s.stopClosed || i in s.cancelled) then s.(loops := s.loops[i := Leaving]) else s
    case CloseDone(i) =>
      if !LoopAt(s, i, Leaving) then s
      else if s.doneClosed then s.(panicked := true)
      else s.(doneClosed := true, loops := s.loops[i := Gone])
    case CloseStop(j) =>
      if !StopAt(s, j, Checked) then s
      else if s.stopClosed then s.(panicked := true)
      else s.(stopClosed := true, stops := s.stops[j := Awaiting])
    case Receive(j) => if StopAt(s, j, Awaiting) && s.doneClosed then s.(stops := s.stops[j := Resetting]) else s
    case Reset(j) => if StopAt(s, j, Resetting) then s.(running := false, stops := s.stops[j := Returned]) else s
  }

  function Run(s: State, actions: seq<Action>): State {
    if actions == [] then s else Apply(Run(s, actions[..|actions| - 1]), actions[|actions| - 1])
  }

  // ---------------------------------------------------------------- the invariant

  predicate PastClose(s: State, j: nat) {
    j < |s.stops| && s.stops[j] != Checked
  }

  /** Only the first loop can ever be gone, and it is exactly when doneCh is closed. */
  ghost predicate LoopsMatch(s: State) {
    && (forall i :: LoopAt(s, i, Gone) <==> i == 0 && s.doneClosed)
    && (s.doneClosed ==> s.loops != [])
    && |s.loops| <= (if s.doneClosed then 2 else 1)
    && (s.running ==> s.loops != [])
    && (!s.running ==> forall i: nat :: i < |s.loops| ==> LoopAt(s, i, Gone))
  }

  /** One Stop at most gets past closing stopCh; it leaves only when doneCh is closed, and only its reset
      lets the flag fall or a second loop be promised. */
  ghost predicate StopsMatch(s: State) {
    && (forall j, k :: PastClose(s, j) && PastClose(s, k) ==> j == k)
    && (s.stopClosed <==> exists j :: PastClose(s, j))
    && (forall j :: StopAt(s, j, Resetting) || StopAt(s, j, Returned) ==> s.doneClosed)
    && (s.stops != [] ==> s.loops != [])
    && ((exists j :: StopAt(s, j, Returned)) <==> (if s.running then |s.loops| == 2 else s.loops != []))
  }

  ghost predicate Inv(s: State) {
    if s.panicked then |s.loops| >= 2 || |s.stops| >= 2 else LoopsMatch(s) && StopsMatch(s)
  }

  lemma {:induction false} ApplyKeepsInv(s: State, a: Action)
    requires Inv(s)
    ensures Inv(Apply(s, a))
    ensures s.panicked ==> Apply(s, a) == s
  {
    var t := Apply(s, a);
    if !s.panicked && t != s {
      LoopsStayMatched(s, a);
      if !t.panicked {
        StopsStayMatched(s, a);
      }
    }
  }

  lemma {:induction false} AtRestOneLoop(s: State)
    requires LoopsMatch(s) && !s.running
    ensures |s.loops| <= 1 && (s.loops != [] ==> s.doneClosed)
  {
    assert !LoopAt(s, 1, Gone);
    assert s.loops != [] ==> LoopAt(s, 0, Gone);
  }

  lemma {:induction false} LoopsStayMatched(s: State, a: Action)
    requires !s.panicked && LoopsMatch(s) && StopsMatch(s) && Apply(s, a) != s
    ensures Apply(s, a).panicked ==> |s.loops| >= 2 || |s.stops| >= 2
    ensures !Apply(s, a).panicked ==> LoopsMatch(Apply(s, a))
  {
    var t := Apply(s, a);
    if a.CloseStop? && t.panicked {
      var j :| PastClose(s, j);
      assert !PastClose(s, a.stop);
    } else if a.CloseDone? && t.panicked {
      assert LoopAt(s, 0, Gone) && !LoopAt(s, a.loop, Gone);
    } else if a.Start? {
      assert forall i :: LoopAt(t, i, Gone) <==> LoopAt(s, i, Gone);
      AtRestOneLoop(s);
    } else if a.Launch? || a.BeginPass? || a.EndPass? || a.Leave? {
      assert forall i :: LoopAt(t, i, Gone) <==> LoopAt(s, i, Gone);
      assert s.running by {
        assert !LoopAt(s, a.loop, Gone);
      }
    } else if a.CloseDone? {
      assert a.loop == 0;
      assert forall i :: LoopAt(t, i, Gone) <==> i == 0;
    } else {
      assert forall i :: LoopAt(t, i, Gone) <==> LoopAt(s, i, Gone);
      if a.Reset? {
        assert StopAt(s, a.stop, Resetting) && LoopAt(s, 0, Gone);
        if |s.loops| == 2 {
          assert !LoopAt(s, 1, Gone);
          var j :| StopAt(s, j, Returned);
          assert PastClose(s, j) && PastClose(s, a.stop);
        }
      }
    }
  }

  lemma {:induction false} StopsStayMatched(s: State, a: Action)
    requires !s.panicked && LoopsMatch(s) && StopsMatch(s) && Apply(s, a) != s && !Apply(s, a).panicked
    ensures StopsMatch(Apply(s, a))
  {
    var t := Apply(s, a);
    if a.CloseStop? || a.Receive? || a.Reset? {
      assert forall j :: PastClose(t, j) ==> PastClose(s, j) || j == a.stop;
      assert PastClose(t, a.stop);
      assert forall j :: PastClose(s, j) ==> j == a.stop by {
        assert a.CloseStop? || PastClose(s, a.stop);
      }
      assert t.stopClosed by {
        assert a.CloseStop? || PastClose(s, a.stop);
      }
      assert forall j, p :: j != a.stop ==> StopAt(t, j, p) == StopAt(s, j, p);
      if a.Reset? {
        assert StopAt(t, a.stop, Returned);
      }
    } else {
      if a.Start? {
        AtRestOneLoop(s);
      }
      assert forall j :: PastClose(t, j) == PastClose(s, j);
      assert forall j, p :: p != Checked ==> StopAt(t, j, p) == StopAt(s, j, p);
    }
  }

  lemma {:induction false} RunKeepsInv(s: State, actions: seq<Action>)
    requires Inv(s)
    ensures Inv(Run(s, actions))
    ensures s.panicked ==> Run(s, actions) == s
    decreases |actions|
  {
    if actions == [] {
    } else {
      var rest := actions[..|actions| - 1];
      RunKeepsInv(s, rest);
      ApplyKeepsInv(Run(s, rest), actions[|actions| - 1]);
    }
  }

  lemma {:induction false} Reached(history: seq<Action>)
    ensures Inv(Run(BUILT, history))
  {
    assert forall j :: !PastClose(BUILT, j) && !StopAt(BUILT, j, Returned);
    RunKeepsInv(BUILT, history);
  }

  // ---------------------------------------------------------------- what holds while nothing panics

  predicate Alive(s: State, i: nat) {
    i < |s.loops| && s.loops[i] != Gone
  }

  /** In any interleaving that has not panicked, at most one loop is alive, and a live loop means the flag is
      up. The flag also stays up after a loop left because its context was cancelled. */
  lemma {:induction false} AtMostOneLiveLoop(history: seq<Action>)
    requires !Run(BUILT, history).panicked
    ensures var s := Run(BUILT, history);
            && (forall i, k :: Alive(s, i) && Alive(s, k) ==> i == k)
            && (forall i :: Alive(s, i) ==> s.running)
            && (s.running && s.stops == [] ==> forall more | Stop !in more :: Run(s, more).running)
  {
    Reached(history);
    var s := Run(BUILT, history);
    forall i: nat, k: nat | Alive(s, i) && Alive(s, k) ensures i == k {
      assert !LoopAt(s, i, Gone) && !LoopAt(s, k, Gone);
    }
    forall i: nat | Alive(s, i) ensures s.running {
      assert !LoopAt(s, i, Gone);
    }
    if s.running && s.stops == [] {
      forall more | Stop !in more ensures Run(s, more).running {
        NoStopNoReset(s, more);
      }
    }
  }

  lemma {:induction false} NoStopNoReset(s: State, more: seq<Action>)
    requires s.running && s.stops == [] && Stop !in more
    ensures Run(s, more).running && Run(s, more).stops == []
    decreases |more|
  {
    if more == [] {
    } else {
      NoStopNoReset(s, more[..|more| - 1]);
    }
  }

  /** With one successful Start, a Stop that returned (or has just received from doneCh) finds its loop gone,
      and no pass begins afterwards in any continuation that does not start the engine again; once it has
      returned, the flag is down and stays down. */
  lemma {:induction false} StopMeansStopped(history: seq<Action>, j: nat, more: seq<Action>)
    requires var s := Run(BUILT, history); !s.panicked && (StopAt(s, j, Resetting) || StopAt(s, j, Returned))
    requires |Run(Run(BUILT, history), more).loops| <= 1
    ensures var s := Run(BUILT, history); s.stopClosed && s.doneClosed && s.loops == [Gone]
    ensures Run(Run(BUILT, history), more).passes == Run(BUILT, history).passes
    ensures Run(Run(BUILT, history), more).loops == [Gone]
    ensures StopAt(Run(BUILT, history), j, Returned) ==> !Run(Run(BUILT, history), more).running
  {
    Reached(history);
    var s := Run(BUILT, history);
    assert PastClose(s, j);
    RunOnlyAddsThreads(s, more);
    assert LoopAt(s, 0, Gone);
    GoneStaysGone(s, more);
  }

  lemma {:induction false} GoneStaysGone(s: State, more: seq<Action>)
    requires s.loops == [Gone] && |Run(s, more).loops| <= 1
    ensures Run(s, more).loops == [Gone] && Run(s, more).passes == s.passes
    ensures Run(s, more).running ==> s.running
    decreases |more|
  {
    if more == [] {
    } else {
      var rest := more[..|more| - 1];
      OneActionOnlyAddsThreads(Run(s, rest), more[|more| - 1]);
      GoneStaysGone(s, rest);
    }
  }

  lemma {:induction false} OneActionOnlyAddsThreads(s: State, a: Action)
    ensures |s.loops| <= |Apply(s, a).loops| && |s.stops| <= |Apply(s, a).stops|
  {
  }

  lemma {:induction false} RunOnlyAddsThreads(s: State, actions: seq<Action>)
    ensures |s.loops| <= |Run(s, actions).loops| && |s.stops| <= |Run(s, actions).stops|
    decreases |actions|
  {
    if actions == [] {
    } else {
      RunOnlyAddsThreads(s, actions[..|actions| - 1]);
      OneActionOnlyAddsThreads(Run(s, actions[..|actions| - 1]), actions[|actions| - 1]);
    }
  }

  // ---------------------------------------------------------------- exactly when it panics

  predicate NoNewCalls(actions: seq<Action>) {
    Start !in actions && Stop !in actions
  }

  /** Every thread has finished, and none by a panic. */
  predicate Settled(s: State) {
    && !s.panicked
    && (forall i :: 0 <= i < |s.loops| ==> s.loops[i] == Gone)
    && (forall j :: 0 <= j < |s.stops| ==> s.stops[j] == Returned)
  }

  ghost predicate CanPanic(s: State) {
    exists more :: NoNewCalls(more) && Run(s, more).panicked
  }

  ghost predicate CanSettle(s: State) {
    exists more :: NoNewCalls(more) && Settled(Run(s, more))
  }

  predicate NoCancels(actions: seq<Action>) {
    forall k :: 0 <= k < |actions| ==> !actions[k].CancelContext?
  }

  /** As CanSettle, and without any context being cancelled. */
  ghost predicate CanSettleAlone(s: State) {
    exists more :: NoNewCalls(more) && NoCancels(more) && Settled(Run(s, more))
  }

  /** The loop, if there is one, has a reason to leave: a Stop, its context, or it has left already. */
  predicate LoopMayLeave(s: State) {
    s.loops == [] || s.stops != [] || 0 in s.cancelled || s.loops[0] == Leaving || s.loops[0] == Gone
  }

  /** The engine is good for one Start and one Stop: once a second Start has succeeded (a restart) or a second
      Stop is past its check, some schedule of the threads there are panics and none lets them all finish.
      Otherwise no schedule panics and they can all finish; a Stop is enough for that, and a loop without one
      needs its context cancelled. */
  lemma {:induction false} GoodForOneStartAndOneStop(history: seq<Action>)
    ensures var s := Run(BUILT, history);
            && (CanPanic(s) <==> |s.loops| >= 2 || |s.stops| >= 2)
            && (CanSettle(s) <==> |s.loops| <= 1 && |s.stops| <= 1)
            && (CanSettleAlone(s) <==> |s.loops| <= 1 && |s.stops| <= 1 && LoopMayLeave(s))
  {
    Reached(history);
    var s := Run(BUILT, history);
    if |s.loops| >= 2 || |s.stops| >= 2 {
      SomeSchedulePanics(s);
    } else {
      ThreadsCanFinish(s);
      if LoopMayLeave(s) { var more := FinishAlone(s); }
    }
    forall more | NoNewCalls(more) && Run(s, more).panicked ensures |s.loops| >= 2 || |s.stops| >= 2 {
      RunKeepsInv(s, more);
      NoNewCallsNoNewThreads(s, more);
    }
    forall more | NoNewCalls(more) && Settled(Run(s, more)) ensures |s.loops| <= 1 && |s.stops| <= 1 {
      RunKeepsInv(s, more);
      NoNewCallsNoNewThreads(s, more);
      OnlyOneFinishes(Run(s, more));
    }
    forall more | NoNewCalls(more) && NoCancels(more) && Settled(Run(s, more)) ensures LoopMayLeave(s) {
      if !LoopMayLeave(s) && |s.loops| <= 1 { KeepsLooping(s, more); }
    }
  }

  /** One loop, no Stop, and no reason for the loop to leave. */
  predicate Looping(s: State) {
    s.stops == [] && !s.stopClosed && |s.loops| == 1 && !LoopMayLeave(s)
  }

  lemma {:induction false} OneStepLooping(s: State, a: Action)
    requires Looping(s) && !a.Start? && !a.Stop? && !a.CancelContext?
    ensures Looping(Apply(s, a))
  {
  }

  /** Without a Stop and without a cancelled context the loop goes on. */
  lemma {:induction false} KeepsLooping(s: State, more: seq<Action>)
    requires Looping(s) && NoNewCalls(more) && NoCancels(more)
    ensures Looping(Run(s, more))
    decreases |more|
  {
    hide Apply;
    hide Looping;
    if more == [] {
    } else {
      KeepsLooping(s, more[..|more| - 1]);
      OneStepLooping(Run(s, more[..|more| - 1]), more[|more| - 1]);
    }
  }

  lemma {:induction false} OnlyOneFinishes(s: State)
    requires LoopsMatch(s) && StopsMatch(s)
    ensures |s.loops| >= 2 ==> s.loops[1] != Gone
    ensures |s.stops| >= 2 ==> s.stops[0] == Checked || s.stops[1] == Checked
  {
    assert LoopAt(s, 1, Gone) ==> false;
    assert PastClose(s, 0) && PastClose(s, 1) ==> false;
  }

  lemma {:induction false} NoNewCallsNoNewThreads(s: State, more: seq<Action>)
    requires NoNewCalls(more)
    ensures |Run(s, more).loops| == |s.loops| && |Run(s, more).stops| == |s.stops|
    decreases |more|
  {
    if more == [] {
    } else {
      NoNewCallsNoNewThreads(s, more[..|more| - 1]);
    }
  }

  lemma {:induction false} RunAppend(s: State, first: seq<Action>, second: seq<Action>)
    ensures Run(s, first + second) == Run(Run(s, first), second)
    decreases |second|
  {
    if second == [] {
      assert first + second == first;
    } else {
      var all := first + second;
      assert all[..|all| - 1] == first + second[..|second| - 1];
      RunAppend(s, first, second[..|second| - 1]);
    }
  }

  lemma {:induction false} RunTwo(s: State, a: Action, b: Action)
    ensures Run(s, [a]) == Apply(s, a)
    ensures Run(s, [a, b]) == Apply(Apply(s, a), b)
  {
    assert Run(s, [a]) == Apply(Run(s, [a][..0]), a);
    assert [a, b][..1] == [a];
  }

  lemma {:induction false} RunFour(s: State, a: Action, b: Action, c: Action, d: Action)
    ensures Run(s, [a, b, c, d]) == Apply(Apply(Apply(Apply(s, a), b), c), d)
  {
    RunTwo(s, a, b);
    RunTwo(Run(s, [a, b]), c, d);
    RunAppend(s, [a, b], [c, d]);
    assert [a, b] + [c, d] == [a, b, c, d];
  }

  lemma {:induction false} SomeSchedulePanics(s: State)
    requires Inv(s) && (|s.loops| >= 2 || |s.stops| >= 2)
    ensures CanPanic(s)
  {
    if s.panicked {
      assert NoNewCalls([]) && Run(s, []).panicked;
    } else if |s.stops| >= 2 {
      assert !(PastClose(s, 0) && PastClose(s, 1));
      var a, b := if PastClose(s, 0) then 0 else 1, if PastClose(s, 0) then 1 else 0;
      if s.stopClosed {
        RunTwo(s, CloseStop(b), CloseStop(b));
        assert NoNewCalls([CloseStop(b)]);
      } else {
        assert !PastClose(s, 0) && !PastClose(s, 1);
        RunTwo(s, CloseStop(0), CloseStop(1));
        assert NoNewCalls([CloseStop(0), CloseStop(1)]);
      }
    } else {
      assert !LoopAt(s, 1, Gone) && LoopAt(s, 0, Gone);
      assert s.running && s.stopClosed by {
        var j :| StopAt(s, j, Returned);
        assert PastClose(s, j);
      }
      SecondLoopPanics(s);
    }
  }

  lemma {:induction false} SecondLoopPanics(s: State)
    requires !s.panicked && s.doneClosed && s.stopClosed && |s.loops| >= 2 && s.loops[1] != Gone
    ensures CanPanic(s)
  {
    RunFour(s, Launch(1), EndPass(1), Leave(1), CloseDone(1));
    assert NoNewCalls([Launch(1), EndPass(1), Leave(1), CloseDone(1)]);
  }

  lemma {:induction false} LeavingLoopEnds(s: State) returns (more: seq<Action>)
    requires !s.panicked && LoopsMatch(s) && |s.loops| <= 1
    requires s.loops != [] ==> s.stopClosed || 0 in s.cancelled || s.loops[0] == Leaving || s.loops[0] == Gone
    ensures NoNewCalls(more) && NoCancels(more)
    ensures var t := Run(s, more); t.stops == s.stops && !t.panicked && (s.loops != [] ==> t.doneClosed)
  {
    more := [Launch(0), EndPass(0), Leave(0), CloseDone(0)];
    RunFour(s, Launch(0), EndPass(0), Leave(0), CloseDone(0));
    assert s.loops != [] ==> (LoopAt(s, 0, Gone) <==> s.doneClosed);
  }

  lemma {:induction false} StopCanFinish(s: State) returns (more: seq<Action>)
    requires !s.panicked && StopsMatch(s) && |s.stops| <= 1 && (s.stops != [] ==> s.doneClosed)
    ensures NoNewCalls(more) && NoCancels(more) && Run(s, more).loops == s.loops && !Run(s, more).panicked
    ensures s.stops != [] ==> Run(s, more).stops == [Returned]
  {
    more := [CloseStop(0), Receive(0), Reset(0), Reset(0)];
    assert StopAt(s, 0, Checked) ==> !s.stopClosed by {
      assert forall j :: PastClose(s, j) ==> j == 0;
    }
    StopRuns(s);
  }

  lemma {:induction false} StopRuns(s: State)
    requires !s.panicked && |s.stops| <= 1 && (s.stops != [] ==> s.doneClosed)
    requires StopAt(s, 0, Checked) ==> !s.stopClosed
    ensures var t := Run(s, [CloseStop(0), Receive(0), Reset(0), Reset(0)]);
            t.loops == s.loops && !t.panicked && (s.stops != [] ==> t.stops == [Returned])
  {
    RunFour(s, CloseStop(0), Receive(0), Reset(0), Reset(0));
  }

  /** A Stop that is about to close stopCh does so first. */
  lemma {:induction false} StopSignals(s: State)
    requires Inv(s) && !s.panicked && |s.stops| <= 1
    ensures var t := Apply(s, CloseStop(0));
            && Inv(t) && !t.panicked && t.loops == s.loops && |t.stops| == |s.stops| && t.cancelled == s.cancelled
            && (s.stops != [] ==> t.stopClosed)
  {
    ApplyKeepsInv(s, CloseStop(0));
    if s.stops != [] {
      assert StopAt(s, 0, Checked) <==> !PastClose(s, 0);
      assert forall j :: PastClose(s, j) ==> j == 0;
    }
  }

  lemma {:induction false} FinishAlone(s: State) returns (more: seq<Action>)
    requires Inv(s) && !s.panicked && |s.loops| <= 1 && |s.stops| <= 1 && LoopMayLeave(s)
    ensures NoNewCalls(more) && NoCancels(more) && Settled(Run(s, more))
  {
    hide Apply;
    hide Run;
    StopSignals(s);
    var s1 := Apply(s, CloseStop(0));
    var loopEnds := LeavingLoopEnds(s1);
    var s2 := Run(s1, loopEnds);
    RunKeepsInv(s1, loopEnds);
    NoNewCallsNoNewThreads(s1, loopEnds);
    assert s2.loops != [] ==> LoopAt(s2, 0, Gone);
    var stopEnds := StopCanFinish(s2);
    NoNewCallsNoNewThreads(s2, stopEnds);
    more := [CloseStop(0)] + loopEnds + stopEnds;
    RunTwo(s, CloseStop(0), CloseStop(0));
    RunAppend(s, [CloseStop(0)], loopEnds);
    RunAppend(s, [CloseStop(0)] + loopEnds, stopEnds);
  }

  lemma {:induction false} ThreadsCanFinish(s: State)
    requires Inv(s) && !s.panicked && |s.loops| <= 1 && |s.stops| <= 1
    ensures CanSettle(s)
  {
    var cancel := CancelContext(0);
    ApplyKeepsInv(s, cancel);
    var more := FinishAlone(Apply(s, cancel));
    RunTwo(s, cancel, cancel);
    RunAppend(s, [cancel], more);
    assert NoNewCalls([cancel] + more) && Settled(Run(s, [cancel] + more));
  }

  /** Closing stopCh does not by itself keep a pass from beginning: a tick that is ready may still be served. */
  lemma {:induction false} PassAfterTheStopSignal()
    ensures exists history, j :: StopAt(Run(BUILT, history), j, Awaiting)
              && Apply(Run(BUILT, history), BeginPass(0)).passes == Run(BUILT, history).passes + 1
  {
    RunFour(BUILT, Start, Launch(0), Stop, CloseStop(0));
    var s := Run(BUILT, [Start, Launch(0), Stop, CloseStop(0)]);
    assert StopAt(s, 0, Awaiting);
  }

  // ---------------------------------------------------------------- Start and Stop as written

  datatype Outcome = Done | Refused | Crashed | StillWaiting

  /** What other threads may do while this one is not scheduled: anything but this thread's own steps. */
  function Others(batch: seq<Action>, own: set<Action>): seq<Action> {
    if batch == [] then []
    else if batch[0] in own then Others(batch[1..], own)
    else [batch[0]] + Others(batch[1..], own)
  }

  lemma {:induction false} OthersAreNotOwn(batch: seq<Action>, own: set<Action>)
    ensures forall a :: a in Others(batch, own) ==> a !in own
  {
    if batch == [] {
    } else {
      OthersAreNotOwn(batch[1..], own);
    }
  }

  function OwnOfStop(j: nat): set<Action> {
    {CloseStop(j), Receive(j), Reset(j)}
  }

  lemma {:induction false} OthersLeaveMyStop(s: State, actions: seq<Action>, j: nat)
    requires j < |s.stops| && forall a :: a in actions ==> a !in OwnOfStop(j)
    ensures j < |Run(s, actions).stops| && Run(s, actions).stops[j] == s.stops[j]
    decreases |actions|
  {
    if actions == [] {
    } else {
      OthersLeaveMyStop(s, actions[..|actions| - 1], j);
      assert actions[|actions| - 1] in actions;
    }
  }

  lemma {:induction false} OthersLeaveMyLoop(s: State, actions: seq<Action>, i: nat)
    requires LoopAt(s, i, Unborn) && Launch(i) !in actions
    ensures LoopAt(Run(s, actions), i, Unborn)
    decreases |actions|
  {
    if actions == [] {
    } else {
      OthersLeaveMyLoop(s, actions[..|actions| - 1], i);
    }
  }

  class Switch {
    var state: State
    /** The other threads' steps, one batch for each point where a call can be interrupted. */
    var schedule: seq<seq<Action>>
    ghost var history: seq<Action>

    ghost predicate Valid()
      reads this
    {
      state == Run(BUILT, history)
    }

    constructor (schedule: seq<seq<Action>>)
      ensures Valid() && state == BUILT
    {
      state := BUILT;
      this.schedule := schedule;
      history := [];
    }

    method Act(a: Action)
      requires Valid()
      modifies this`state, this`history
      ensures Valid() && state == Apply(old(state), a) && history == old(history) + [a]
    {
      RunAppend(BUILT, history, [a]);
      RunTwo(state, a, a);
      state := Apply(state, a);
      history := history + [a];
    }

    method Interrupted(own: set<Action>)
      requires Valid()
      modifies this
      ensures Valid() && |schedule| == (if old(schedule) == [] then 0 else |old(schedule)| - 1)
      ensures exists between :: (forall a :: a in between ==> a !in own)
                && state == Run(old(state), between) && history == old(history) + between
    {
      ghost var between: seq<Action> := [];
      if schedule == [] {
        assert history == history + between && state == Run(state, between);
      } else {
        between := Others(schedule[0], own);
        OthersAreNotOwn(schedule[0], own);
        RunAppend(BUILT, history, between);
        state := Run(state, Others(schedule[0], own));
        history := history + between;
        schedule := schedule[1..];
      }
    }

    /** Start refuses exactly when it finds the flag up; otherwise it raises the flag and launches a loop of
        its own, whatever runs in between. */
    method Start() returns (r: Outcome, ghost me: nat)
      requires Valid()
      modifies this
      ensures Valid() && old(history) <= history
      ensures r.Refused? ==> state.running && !state.panicked
      ensures r.Crashed? ==> state.panicked
      ensures r.Done? ==> me >= |old(state).loops| && LoopAt(state, me, Selecting) && !state.panicked
      ensures !r.StillWaiting?
    {
      me := 0;
      ghost var s0 := state;
      Interrupted({});
      ghost var between :| state == Run(s0, between) && history == old(history) + between;
      RunOnlyAddsThreads(s0, between);
      if state.panicked {
        return Crashed, me;
      }
      if state.running {
        return Refused, me;
      }
      me := |state.loops|;
      var mine := |state.loops|;
      Act(Action.Start);
      ghost var s1 := state;
      Interrupted({Launch(mine)});
      ghost var later :| (forall a :: a in later ==> a !in {Launch(mine)}) && state == Run(s1, later);
      OthersLeaveMyLoop(s1, later, mine);
      if state.panicked {
        return Crashed, me;
      }
      Act(Launch(mine));
      return Done, me;
    }

    /** A Stop that returns without error has closed stopCh itself, has seen doneCh closed and, unless the
        engine was started again meanwhile, leaves no live loop behind. */
    method Stop() returns (r: Outcome, ghost me: nat)
      requires Valid()
      modifies this
      ensures Valid() && old(history) <= history
      ensures r.Refused? ==> !state.running && !state.panicked
      ensures r.Crashed? ==> state.panicked
      ensures r.StillWaiting? ==> !state.panicked && StopAt(state, me, Awaiting) && !state.doneClosed && schedule == []
      ensures r.Done? ==> !state.panicked && StopAt(state, me, Returned) && state.stopClosed && state.doneClosed
      ensures r.Done? && |state.loops| <= 1 ==> state.loops == [Gone] && !state.running
      ensures r.Done? || r.StillWaiting? ==> me >= |old(state).stops|
    {
      me := 0;
      ghost var s0 := state;
      Interrupted({});
      ghost var before :| state == Run(s0, before) && history == old(history) + before;
      RunOnlyAddsThreads(s0, before);
      if state.panicked {
        return Crashed, me;
      }
      if !state.running {
        return Refused, me;
      }
      me := |state.stops|;
      var mine := |state.stops|;
      Act(Action.Stop);
      CloseStopChannel(mine);
      if state.panicked {
        return Crashed, me;
      }
      AwaitDone(mine);
      if state.panicked {
        return Crashed, me;
      }
      if StopAt(state, mine, Awaiting) {
        return StillWaiting, me;
      }
      LowerFlag(mine);
      if state.panicked {
        return Crashed, me;
      }
      Reached(history);
      assert PastClose(state, mine);
      if |state.loops| <= 1 {
        StopMeansStopped(history, mine, []);
      }
      return Done, me;
    }

    method CloseStopChannel(mine: nat)
      requires Valid() && StopAt(state, mine, Checked)
      modifies this
      ensures Valid() && old(history) <= history
      ensures state.panicked || StopAt(state, mine, Awaiting)
    {
      InterruptedStop(mine);
      Act(CloseStop(mine));
    }

    /** The receive from doneCh: it blocks until the channel is closed or no thread has a step left. */
    method AwaitDone(mine: nat)
      requires Valid() && StopAt(state, mine, Awaiting)
      modifies this
      ensures Valid() && old(history) <= history
      ensures state.panicked || StopAt(state, mine, Resetting)
              || (StopAt(state, mine, Awaiting) && !state.doneClosed && schedule == [])
    {
      while !state.doneClosed && !state.panicked && schedule != []
        invariant Valid() && old(history) <= history && StopAt(state, mine, Awaiting)
        decreases |schedule|
      {
        InterruptedStop(mine);
      }
      if state.doneClosed {
        Act(Receive(mine));
      }
    }

    method LowerFlag(mine: nat)
      requires Valid() && StopAt(state, mine, Resetting)
      modifies this
      ensures Valid() && old(history) <= history
      ensures state.panicked || StopAt(state, mine, Returned)
    {
      InterruptedStop(mine);
      Act(Reset(mine));
    }

    method InterruptedStop(mine: nat)
      requires Valid() && mine < |state.stops|
      modifies this
      ensures Valid() && old(history) <= history
      ensures |schedule| == (if old(schedule) == [] then 0 else |old(schedule)| - 1)
      ensures mine < |state.stops| && state.stops[mine] == old(state).stops[mine]
    {
      ghost var s := state;
      Interrupted(OwnOfStop(mine));
      ghost var between :| (forall a :: a in between ==> a !in OwnOfStop(mine)) && state == Run(s, between)
                           && history == old(history) + between;
      OthersLeaveMyStop(s, between, mine);
    }
  }
}
