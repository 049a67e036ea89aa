/** The step conversions of the gRPC transport. A timeout is a machine-sized integer in the domain and an
    optional 32-bit one on the wire, so one direction is partial. */
module Conversion {
  import opened Domain

  const MIN_INT32 := -0x8000_0000
  const MAX_INT32 := 0x7fff_ffff

  newtype int32 = x: int | MIN_INT32 <= x <= MAX_INT32

  /** A step on the wire; `None` is a timeout that is not set. */
  datatype WireStep = WireStep(
    name: string, image: string, command: seq<string>, args: seq<string>, env: map<string, string>,
    timeoutSeconds: Option<int32>)

  const EMPTY_STEP := StepDefinition("", "", [], [], map[], 0)
  const EMPTY_WIRE_STEP := WireStep("", "", [], [], map[], None)

  predicate Fits(step: StepDefinition) {
    -0x8000_0000 <= step.timeoutSeconds <= 0x7fff_ffff
  }

  /** The same step on both sides: all columns alike, and an unset timeout stands for zero. */
  predicate SameStep(wire: WireStep, step: StepDefinition) {
    && wire.name == step.name && wire.image == step.image
    && wire.command == step.command && wire.args == step.args && wire.env == step.env
    && step.timeoutSeconds == (if wire.timeoutSeconds.None? then 0 else wire.timeoutSeconds.value as int)
  }

  predicate SameSteps(wire: seq<WireStep>, steps: seq<StepDefinition>) {
    |wire| == |steps| && forall i :: 0 <= i < |steps| ==> SameStep(wire[i], steps[i])
  }

  /** A zero timeout is never set explicitly. */
  predicate Normal(wire: WireStep) {
    wire.timeoutSeconds != Some(0)
  }

  predicate AllNormal(wire: seq<WireStep>) {
    forall i :: 0 <= i < |wire| ==> Normal(wire[i])
  }

  function ToDomainTimeout(timeout: Option<int32>): int {
    if timeout.None? then 0 else timeout.value as int
  }

  /** toDomainSteps */
  method ToDomainSteps(wire: seq<WireStep>) returns (steps: seq<StepDefinition>)
    ensures SameSteps(wire, steps)
  {
    var domainSteps := new StepDefinition[|wire|](_ => EMPTY_STEP);
    for i := 0 to |wire|
      invariant forall k :: 0 <= k < i ==> SameStep(wire[k], domainSteps[k])
    {
      var step := wire[i];
      domainSteps[i] := StepDefinition(
        step.name, step.image, step.command, step.args, step.env, ToDomainTimeout(step.timeoutSeconds));
    }
    return domainSteps[..];
  }

  /** The step loop of toPbWorkflow: `None` is the invalid-argument error. */
  method ToWireSteps(steps: seq<StepDefinition>) returns (r: Option<seq<WireStep>>)
    ensures r.None? <==> exists i :: 0 <= i < |steps| && !Fits(steps[i])
    ensures r.Some? ==> SameSteps(r.value, steps) && AllNormal(r.value)
  {
    var wireSteps := new WireStep[|steps|](_ => EMPTY_WIRE_STEP);
    for i := 0 to |steps|
      invariant forall k :: 0 <= k < i ==> Fits(steps[k]) && SameStep(wireSteps[k], steps[k]) && Normal(wireSteps[k])
    {
      var step := steps[i];
      wireSteps[i] := WireStep(step.name, step.image, step.command, step.args, step.env, None);
      if step.timeoutSeconds != 0 {
        if step.timeoutSeconds < MIN_INT32 || step.timeoutSeconds > MAX_INT32 {
          assert !Fits(steps[i]);
          return None;
        }
        wireSteps[i] := wireSteps[i].(timeoutSeconds := Some(step.timeoutSeconds as int32));
      }
    }
    return Some(wireSteps[..]);
  }

  /** An explicit zero timeout becomes an unset one; nothing else changes. */
  function Normalized(wire: WireStep): (r: WireStep)
    ensures Normal(r) && (Normal(wire) ==> r == wire)
    ensures forall step :: SameStep(wire, step) <==> SameStep(r, step)
  {
    if wire.timeoutSeconds == Some(0) then wire.(timeoutSeconds := None) else wire
  }

  /** The two relations pin the conversions down: a wire list stands for one list of steps, and a list of
      steps for one normal wire list. */
  lemma {:induction false} ConversionsAreFunctions(
      wire: seq<WireStep>, other: seq<WireStep>, steps: seq<StepDefinition>, back: seq<StepDefinition>)
    requires SameSteps(wire, steps)
    ensures SameSteps(wire, back) ==> back == steps
    ensures SameSteps(other, steps) && AllNormal(wire) && AllNormal(other) ==> other == wire
  {
    if SameSteps(wire, back) {
      forall i | 0 <= i < |steps| ensures back[i] == steps[i] {
        assert SameStep(wire[i], steps[i]) && SameStep(wire[i], back[i]);
      }
    }
    if SameSteps(other, steps) && AllNormal(wire) && AllNormal(other) {
      forall i | 0 <= i < |steps| ensures other[i] == wire[i] {
        assert SameStep(wire[i], steps[i]) && SameStep(other[i], steps[i]) && Normal(wire[i]) && Normal(other[i]);
      }
    }
  }

  /** The answer to a caller that sends back what it was sent: fails exactly when some timeout is not an int32,
      and otherwise loses nothing. */
  method OutAndBack(steps: seq<StepDefinition>) returns (r: Option<seq<StepDefinition>>)
    ensures r == if forall i :: 0 <= i < |steps| ==> Fits(steps[i]) then Some(steps) else None
  {
    var wire := ToWireSteps(steps);
    if wire.None? {
      return None;
    }
    var back := ToDomainSteps(wire.value);
    ConversionsAreFunctions(wire.value, wire.value, steps, back);
    return Some(back);
  }

  /** What a caller reads back of the steps it sent: never fails, and only turns explicit zero timeouts
      into unset ones. */
  method InAndBack(wire: seq<WireStep>) returns (r: Option<seq<WireStep>>)
    ensures r == Some(seq(|wire|, i requires 0 <= i < |wire| => Normalized(wire[i])))
  {
    var steps := ToDomainSteps(wire);
    forall i | 0 <= i < |steps| ensures Fits(steps[i]) {
      assert SameStep(wire[i], steps[i]);
    }
    r := ToWireSteps(steps);
    ghost var normal := seq(|wire|, i requires 0 <= i < |wire| => Normalized(wire[i]));
    assert SameSteps(normal, steps);
    ConversionsAreFunctions(r.value, normal, steps, steps);
  }
}
