/** watchJobCompletion and getJobExitCode: a loop over watch events that stops at the first decisive one, and
    the pod lookup that turns a finished job into an exit code. */
module Watch {
  import opened Domain

  datatype ConditionType = Complete | Failed | OtherCondition(name: string)

  datatype ConditionStatus = ConditionTrue | ConditionFalse | ConditionUnknown

  datatype Condition = Condition(kind: ConditionType, status: ConditionStatus)

  /** The object of an event: a job with its conditions, or anything else, nil included. */
  datatype Object = Job(conditions: seq<Condition>) | NoJob

  datatype EventType = Added | Modified | Deleted | Bookmark | ErrorEvent | NoType

  /** `terminated` is the exit code of a container that has terminated. */
  datatype ContainerStatus = ContainerStatus(name: string, terminated: Option<int>)

  /** What the two pod calls answer when a decision is taken: the names listed for the job, or an error, and
      the container statuses of the pods that can be fetched. */
  datatype Cluster = Cluster(listed: Option<seq<string>>, pods: map<string, seq<ContainerStatus>>)

  /** One turn of the select: the context is done, or an event is received. A closed channel keeps delivering
      `Received(NoType, NoJob)`. */
  datatype Turn = ContextDone | Received(kind: EventType, subject: Object, cluster: Cluster)

  /** `NotWatching` is the error of a watch that could not be opened; `Waiting` means that the loop has used
      up the turns without deciding. */
  datatype Outcome = Exit(code: int) | NotWatching | ContextError | WatchError | Waiting

  predicate Holds(conditions: seq<Condition>, kind: ConditionType) {
    Condition(kind, ConditionTrue) in conditions
  }

  /** isJobComplete */
  method IsJobComplete(conditions: seq<Condition>) returns (r: bool)
    ensures r == Holds(conditions, Complete)
  {
    for i := 0 to |conditions|
      invariant Condition(Complete, ConditionTrue) !in conditions[..i]
    {
      if conditions[i].kind == Complete && conditions[i].status == ConditionTrue {
        return true;
      }
    }
    return false;
  }

  /** isJobFailed */
  method IsJobFailed(conditions: seq<Condition>) returns (r: bool)
    ensures r == Holds(conditions, Failed)
  {
    for i := 0 to |conditions|
      invariant Condition(Failed, ConditionTrue) !in conditions[..i]
    {
      if conditions[i].kind == Failed && conditions[i].status == ConditionTrue {
        return true;
      }
    }
    return false;
  }

  const STEP_CONTAINER := "step"

  predicate StepTerminated(c: ContainerStatus) {
    c.name == "step" && c.terminated.Some?
  }

  /** The pod the exit code is read from: the first one listed for the job, if it can be fetched. */
  function PodStatuses(cluster: Cluster): Option<seq<ContainerStatus>> {
    if cluster.listed.None? || cluster.listed.value == [] then None
    else if cluster.listed.value[0] !in cluster.pods then None
    else Some(cluster.pods[cluster.listed.value[0]])
  }

  /** Some `step` container of the pod has terminated with `code`, and none before it has terminated. */
  predicate StepExited(statuses: seq<ContainerStatus>, code: int) {
    exists i :: 0 <= i < |statuses| && StepTerminated(statuses[i]) && statuses[i].terminated == Some(code)
                && forall k :: 0 <= k < i ==> !StepTerminated(statuses[k])
  }

  predicate NoStepExited(statuses: seq<ContainerStatus>) {
    forall k :: 0 <= k < |statuses| ==> !StepTerminated(statuses[k])
  }

  predicate ExitCodeIs(cluster: Cluster, code: int) {
    match PodStatuses(cluster)
    case None => code == 1
    case Some(statuses) => StepExited(statuses, code) || (NoStepExited(statuses) && code == 1)
  }

  /** getJobPodName */
  method GetJobPodName(cluster: Cluster) returns (name: Option<string>)
    ensures name == if cluster.listed.Some? && cluster.listed.value != [] then Some(cluster.listed.value[0]) else None
  {
    if cluster.listed.None? {
      return None;
    }
    if |cluster.listed.value| == 0 {
      return None;
    }
    return Some(cluster.listed.value[0]);
  }

  /** getJobExitCode */
  method GetJobExitCode(cluster: Cluster) returns (code: int)
    ensures ExitCodeIs(cluster, code)
  {
    var podName := GetJobPodName(cluster);
    if podName.None? {
      return 1;
    }
    if podName.value !in cluster.pods {
      return 1;
    }
    var statuses := cluster.pods[podName.value];
    for i := 0 to |statuses|
      invariant forall k :: 0 <= k < i ==> !StepTerminated(statuses[k])
    {
      var containerStatus := statuses[i];
      if containerStatus.name == STEP_CONTAINER {
        if containerStatus.terminated.Some? {
          return containerStatus.terminated.value;
        }
      }
    }
    return 1;
  }

  /** ExitCodeIs singles out one code, so it says everything about what getJobExitCode returns. */
  lemma {:induction false} ExitCodeIsAFunction(cluster: Cluster, code: int, other: int)
    requires ExitCodeIs(cluster, code) && ExitCodeIs(cluster, other)
    ensures code == other
  {
    var statuses := PodStatuses(cluster);
    if statuses.Some? && StepExited(statuses.value, code) && StepExited(statuses.value, other) {
      var s := statuses.value;
      var i :| 0 <= i < |s| && StepTerminated(s[i]) && s[i].terminated == Some(code)
               && forall k :: 0 <= k < i ==> !StepTerminated(s[k]);
      var j :| 0 <= j < |s| && StepTerminated(s[j]) && s[j].terminated == Some(other)
               && forall k :: 0 <= k < j ==> !StepTerminated(s[k]);
      assert i == j;
    }
  }

  predicate Finished(t: Turn) {
    t.Received? && t.kind != ErrorEvent && t.subject.Job?
    && (Holds(t.subject.conditions, Complete) || Holds(t.subject.conditions, Failed))
  }

  /** A turn that ends the loop. */
  predicate Decisive(t: Turn) {
    t.ContextDone? || t.kind == ErrorEvent || Finished(t)
  }

  /** What one decisive turn makes the loop return. */
  predicate Decides(t: Turn, r: Outcome) {
    if t.ContextDone? then r == ContextError
    else if t.kind == ErrorEvent then r == WatchError
    else Finished(t) && r.Exit? && ExitCodeIs(t.cluster, r.code)
  }

  /** `r` is decided by the first decisive turn, whatever comes before it or after. */
  predicate Outcomes(turns: seq<Turn>, r: Outcome) {
    if turns == [] then r == Waiting
    else if Decisive(turns[0]) then Decides(turns[0], r)
    else Outcomes(turns[1..], r)
  }

  /** watchJobCompletion; `watching` is whether the call that opens the watch succeeded. */
  method WatchJobCompletion(watching: bool, turns: seq<Turn>) returns (r: Outcome)
    ensures if watching then Outcomes(turns, r) else r == NotWatching
  {
    if !watching {
      return NotWatching;
    }
    var i := 0;
    while i < |turns|
      invariant 0 <= i <= |turns|
      invariant forall o :: Outcomes(turns[i..], o) ==> Outcomes(turns, o)
    {
      assert turns[i..][0] == turns[i] && turns[i..][1..] == turns[i + 1..];
      var turn := turns[i];
      i := i + 1;
      if turn.ContextDone? {
        return ContextError;
      }
      if turn.kind == ErrorEvent {
        return WatchError;
      }
      if turn.subject.NoJob? {
        continue;
      }
      var complete := IsJobComplete(turn.subject.conditions);
      if complete {
        var exitCode := GetJobExitCode(turn.cluster);
        assert Decides(turn, Exit(exitCode));
        return Exit(exitCode);
      }
      var failed := IsJobFailed(turn.subject.conditions);
      if failed {
        var exitCode := GetJobExitCode(turn.cluster);
        assert Decides(turn, Exit(exitCode));
        return Exit(exitCode);
      }
    }
    return Waiting;
  }

  predicate FirstDecisive(turns: seq<Turn>, i: int) {
    0 <= i < |turns| && Decisive(turns[i]) && forall k :: 0 <= k < i ==> !Decisive(turns[k])
  }

  /** The outcome depends on the first decisive turn alone; without one the loop goes on waiting. */
  lemma {:induction false} FirstDecisiveTurnDecides(turns: seq<Turn>, r: Outcome)
    ensures forall i | FirstDecisive(turns, i) :: Outcomes(turns, r) <==> Decides(turns[i], r)
    ensures r != Waiting ==> (Outcomes(turns, r) <==> exists i :: FirstDecisive(turns, i) && Decides(turns[i], r))
    ensures Outcomes(turns, Waiting) <==> forall k :: 0 <= k < |turns| ==> !Decisive(turns[k])
  {
    if turns == [] {
    } else if Decisive(turns[0]) {
      assert FirstDecisive(turns, 0);
    } else {
      var rest := turns[1..];
      FirstDecisiveTurnDecides(rest, r);
      forall i | 0 <= i ensures FirstDecisive(turns, i + 1) <==> FirstDecisive(rest, i) {
        assert FirstDecisive(rest, i) ==> forall k :: 1 <= k < i + 1 ==> turns[k] == rest[k - 1];
      }
      assert !FirstDecisive(turns, 0);
      forall i | FirstDecisive(turns, i) ensures Outcomes(turns, r) <==> Decides(turns[i], r) {
        assert FirstDecisive(rest, i - 1) && rest[i - 1] == turns[i];
      }
      if exists i :: FirstDecisive(rest, i) && Decides(rest[i], r) {
        var i :| FirstDecisive(rest, i) && Decides(rest[i], r);
        assert FirstDecisive(turns, i + 1) && turns[i + 1] == rest[i];
      }
      assert forall k :: 0 <= k < |rest| ==> rest[k] == turns[k + 1];
    }
  }

  lemma {:induction false} OutcomeIsUnique(turns: seq<Turn>, r: Outcome, other: Outcome)
    requires Outcomes(turns, r) && Outcomes(turns, other)
    ensures r == other
  {
    if turns == [] {
    } else if Decisive(turns[0]) {
      if Finished(turns[0]) {
        ExitCodeIsAFunction(turns[0].cluster, r.code, other.code);
      }
    } else {
      OutcomeIsUnique(turns[1..], r, other);
    }
  }

  /** Exit code 0 without an error comes only from a finished job whose first pod can be fetched and has a
      `step` container that terminated with 0. Whether the job is complete or failed plays no part: a job
      that failed after its container exited with 0 is reported as a success. */
  lemma {:induction false} ZeroOnlyFromTheStepContainer(turns: seq<Turn>)
    ensures Outcomes(turns, Exit(0)) <==>
            exists i :: FirstDecisive(turns, i) && Finished(turns[i]) && PodStatuses(turns[i].cluster).Some?
                        && StepExited(PodStatuses(turns[i].cluster).value, 0)
  {
    FirstDecisiveTurnDecides(turns, Exit(0));
    forall i | FirstDecisive(turns, i)
      ensures Decides(turns[i], Exit(0)) <==> Finished(turns[i]) && PodStatuses(turns[i].cluster).Some?
                                              && StepExited(PodStatuses(turns[i].cluster).value, 0)
    {
    }
  }

  /** A job that failed, with a container that exited with 0, counts as a success. */
  lemma {:induction false} FailedJobCountsAsSuccess(name: string) returns (turns: seq<Turn>)
    ensures |turns| == 1 && turns[0].Received? && turns[0].subject.Job?
    ensures Holds(turns[0].subject.conditions, Failed) && !Holds(turns[0].subject.conditions, Complete)
    ensures forall r :: Outcomes(turns, r) <==> r == Exit(0)
  {
    var pod := [ContainerStatus(STEP_CONTAINER, Some(0))];
    var failed := Job([Condition(Failed, ConditionTrue)]);
    turns := [Received(Modified, failed, Cluster(Some([name]), map[name := pod]))];
    assert StepExited(pod, 0) by { assert StepTerminated(pod[0]); }
    assert Outcomes(turns, Exit(0));
    forall r | Outcomes(turns, r) ensures r == Exit(0) {
      OutcomeIsUnique(turns, r, Exit(0));
    }
  }
}
