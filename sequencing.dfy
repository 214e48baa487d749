/**
 * The command sequencer's protocol: a list of steps, each a blocking service
 * call followed by a convergence wait on an entity, ended by one state
 * publication. A rejected call raises out of the sequence: no later step is
 * issued, nothing is rolled back and nothing is published.
 */
module Sequencing {
  import opened Wrappers
  import opened Host
  import opened Convergence

  /** One step: a service call, then a convergence wait on `waitOn`. */
  datatype Step = Step(call: ServiceCall, waitOn: string)

  /** The most ticks one step can take: the call plus a full default wait. */
  const MaxStepTicks: nat := 1 + MaxPolls(DefaultTimeoutMs)

  /** The index of the first step whose call is rejected, or |steps| if none is. */
  function FirstRejected(steps: seq<Step>, rejects: ServiceCall -> bool): (k: nat)
    ensures k <= |steps|
    ensures forall i :: 0 <= i < k ==> !rejects(steps[i].call)
    ensures k < |steps| ==> rejects(steps[k].call)
  {
    if steps == [] || rejects(steps[0].call) then 0
    else 1 + FirstRejected(steps[1..], rejects)
  }

  /** The dispatch records of the steps' calls, in order. */
  function Calls(steps: seq<Step>): (t: seq<Effect>)
    ensures |t| == |steps|
    ensures forall i :: 0 <= i < |steps| ==> t[i] == Call(steps[i].call)
  {
    if steps == [] then [] else [Call(steps[0].call)] + Calls(steps[1..])
  }

  /** What running the steps adds to the host's trace. */
  function SequenceTrace(steps: seq<Step>, rejects: ServiceCall -> bool): (t: seq<Effect>)
    ensures 1 <= |t| <= |steps| + 1
    ensures t[0] == if steps == [] then StateWritten else Call(steps[0].call)
  {
    if steps == [] then [StateWritten]
    else if rejects(steps[0].call) then [Call(steps[0].call)]
    else [Call(steps[0].call)] + SequenceTrace(steps[1..], rejects)
  }

  /** The trace in closed form: the calls up to and including the first
      rejected one, or every call followed by one state publication. */
  lemma {:induction false} SequenceTraceClosedForm(steps: seq<Step>, rejects: ServiceCall -> bool)
    ensures var k := FirstRejected(steps, rejects);
      SequenceTrace(steps, rejects) ==
        if k == |steps| then Calls(steps) + [StateWritten] else Calls(steps[..k + 1])
  {
    if steps != [] && !rejects(steps[0].call) {
      SequenceTraceClosedForm(steps[1..], rejects);
      var k := FirstRejected(steps, rejects);
      if k < |steps| {
        assert steps[..k + 1][1..] == steps[1..][..k];
      }
    }
  }

  /** What running the steps raises: nothing exactly when every call is
      accepted, otherwise the error of the first rejected call. */
  function SequenceOutcome(steps: seq<Step>, rejects: ServiceCall -> bool): (r: Outcome<Error>)
    ensures r.Pass? <==> forall i :: 0 <= i < |steps| ==> !rejects(steps[i].call)
    ensures r.Fail? ==>
      exists i :: 0 <= i < |steps| && rejects(steps[i].call) && r.error == ServiceRejected(steps[i].call)
        && (forall j :: 0 <= j < i ==> !rejects(steps[j].call))
  {
    var k := FirstRejected(steps, rejects);
    if k == |steps| then Pass else Fail(ServiceRejected(steps[k].call))
  }

  /** The clock when one step entered at tick `t` is done: its call takes one
      tick and, when it is accepted, is followed by a wait seeded with the
      snapshot read after the call has returned. */
  function StepEnd(world: nat -> Registry, step: Step, rejects: ServiceCall -> bool, t: nat): (end: nat)
    ensures t < end <= t + MaxStepTicks
    ensures rejects(step.call) <==> end == t + 1
  {
    if rejects(step.call) then t + 1 else t + 1 + WaitPolls(world, step.waitOn, t + 1, DefaultTimeoutMs)
  }

  /** The clock when the steps are done, entered at tick `t`: the steps run
      one after the other, up to and including the first rejected one. */
  function SequenceClock(world: nat -> Registry, steps: seq<Step>, rejects: ServiceCall -> bool, t: nat): (end: nat)
    ensures t <= end
    ensures steps != [] ==> t < end
  {
    if steps == [] then t
    else if rejects(steps[0].call) then StepEnd(world, steps[0], rejects, t)
    else SequenceClock(world, steps[1..], rejects, StepEnd(world, steps[0], rejects, t))
  }

  /** A command never hangs: each step takes at most MaxStepTicks (its call
      and a wait that runs to the timeout). */
  lemma {:induction false} SequenceClockBounded(world: nat -> Registry, steps: seq<Step>, rejects: ServiceCall -> bool, t: nat)
    ensures SequenceClock(world, steps, rejects, t) <= t + |steps| * MaxStepTicks
  {
    if steps != [] && !rejects(steps[0].call) {
      var next := StepEnd(world, steps[0], rejects, t);
      SequenceClockBounded(world, steps[1..], rejects, next);
      assert |steps[1..]| * MaxStepTicks + MaxStepTicks == |steps| * MaxStepTicks;
    }
  }

  /** The trace of a two-step command, case by case: the first call is always
      issued, the second only when the first was accepted, and the state is
      published only when both were. */
  lemma TwoStepTrace(a: Step, b: Step, rejects: ServiceCall -> bool)
    ensures SequenceTrace([a, b], rejects) ==
      if rejects(a.call) then [Call(a.call)]
      else if rejects(b.call) then [Call(a.call), Call(b.call)]
      else [Call(a.call), Call(b.call), StateWritten]
  {
    assert [a, b][1..] == [b];
    assert [b][1..] == [];
    assert SequenceTrace([], rejects) == [StateWritten];
  }

  /** What a two-step command raises, case by case. */
  lemma TwoStepOutcome(a: Step, b: Step, rejects: ServiceCall -> bool)
    ensures SequenceOutcome([a, b], rejects) ==
      if rejects(a.call) then Fail(ServiceRejected(a.call))
      else if rejects(b.call) then Fail(ServiceRejected(b.call))
      else Pass
  {
    assert [a, b][1..] == [b];
    assert [b][1..] == [];
    assert FirstRejected([b], rejects) == if rejects(b.call) then 0 else 1;
  }

  /** When a two-step command is done: after its first step when that one is
      rejected, otherwise after both. */
  lemma TwoStepClock(world: nat -> Registry, a: Step, b: Step, rejects: ServiceCall -> bool, t: nat)
    ensures SequenceClock(world, [a, b], rejects, t) ==
      if rejects(a.call) then StepEnd(world, a, rejects, t)
      else StepEnd(world, b, rejects, StepEnd(world, a, rejects, t))
  {
    assert [a, b][1..] == [b];
    assert [b][1..] == [];
    var end := StepEnd(world, b, rejects, StepEnd(world, a, rejects, t));
    assert SequenceClock(world, [], rejects, end) == end;
  }

  /** The light's state is published exactly when every step was accepted, and
      then once, as the last effect. */
  lemma PublishesOnlyOnSuccess(steps: seq<Step>, rejects: ServiceCall -> bool)
    ensures var t := SequenceTrace(steps, rejects);
      StateWritten in t <==> SequenceOutcome(steps, rejects).Pass?
    ensures var t := SequenceTrace(steps, rejects);
      forall i :: 0 <= i < |t| - 1 ==> t[i] != StateWritten
  {
  }

  /** A step's call is issued exactly when every earlier call was accepted. */
  lemma IssuedIffEarlierAccepted(steps: seq<Step>, rejects: ServiceCall -> bool, i: nat)
    requires i < |steps|
    ensures i < |SequenceTrace(steps, rejects)| ==> SequenceTrace(steps, rejects)[i] == Call(steps[i].call)
    ensures i < |SequenceTrace(steps, rejects)| && SequenceTrace(steps, rejects)[i].Call?
      <==> forall j :: 0 <= j < i ==> !rejects(steps[j].call)
  {
    SequenceTraceClosedForm(steps, rejects);
  }
}
