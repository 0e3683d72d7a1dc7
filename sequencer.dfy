/**
 The MultiheadSequencer module object: the two step indices and the two
 trigger latches it updates in place, and process, called by the host once
 per sample.

 The host's buffers become parameters: clockIn holds the two clock input
 voltages, params the sixteen knob values (indexed by ParamId), outputs the
 two output voltages and lights the sixteen light brightnesses (indexed by
 LightId).
 */
module Sequencer {
  import opened Tables
  import opened ClockTrigger
  import opened Playheads

  class MultiheadSequencer {
    // stepIndex[NUM_PLAYHEADS]
    const stepIndex: array<int>
    // the latch state of clockTrigger[NUM_PLAYHEADS]
    const clockTrigger: array<bool>

    ghost predicate Valid()
      reads stepIndex, clockTrigger
    {
      && stepIndex.Length == NumPlayheads
      && clockTrigger.Length == NumPlayheads
      && 0 <= stepIndex[0] < NumSteps
      && 0 <= stepIndex[1] < NumSteps
    }

    /** Playhead i as a value. */
    ghost function Head(i: int): (p: Playhead)
      reads stepIndex, clockTrigger
      requires Valid() && 0 <= i < NumPlayheads
      ensures Playheads.Valid(p)
    {
      Playhead(stepIndex[i], clockTrigger[i])
    }

    /** Both playheads start at step 0. The initial state of the library's
        trigger latch is not part of this model, so it is a parameter. */
    constructor (latched: bool)
      ensures Valid() && fresh(stepIndex) && fresh(clockTrigger)
      ensures Head(0) == Playhead(0, latched) && Head(1) == Playhead(0, latched)
    {
      stepIndex := new int[NumPlayheads];
      clockTrigger := new bool[NumPlayheads](_ => latched);
      new;
      for i := 0 to NumPlayheads
        invariant forall j :: 0 <= j < i ==> stepIndex[j] == 0
        invariant forall j :: 0 <= j < NumPlayheads ==> clockTrigger[j] == latched
      {
        stepIndex[i] := 0;
      }
    }

    /** One sample. Each playhead moves by its own clock alone; each output
        is ten times the knob of its playhead's new step; the lights show
        playhead 0's new step and nothing of playhead 1. */
    method Process(clockIn: seq<real>, params: seq<real>, outputs: array<real>, lights: array<real>)
      requires Valid()
      requires |clockIn| == InputsLen && |params| == ParamsLen
      requires outputs.Length == OutputsLen && lights.Length == LightsLen
      modifies stepIndex, clockTrigger, outputs, lights
      ensures Valid()
      ensures forall i :: 0 <= i < NumPlayheads ==> Head(i) == Step(old(Head(i)), clockIn[i])
      ensures forall i :: 0 <= i < NumPlayheads ==> outputs[i] == Output(params, Head(i))
      ensures lights[..] == Lights(Head(0).step)
    {
      ghost var before := [Head(0), Head(1)];
      for i := 0 to NumPlayheads
        modifies stepIndex, clockTrigger, outputs
        invariant Valid()
        invariant forall j :: 0 <= j < i ==> Head(j) == Step(before[j], clockIn[j])
        invariant forall j :: i <= j < NumPlayheads ==> Head(j) == before[j]
        invariant forall j :: 0 <= j < i ==> outputs[j] == Output(params, Head(j))
      {
        ProcessPlayhead(i, clockIn[i], params, outputs);
      }

      ShowStep(lights);
    }

    /** The body of process's first loop, for playhead i: poll its
        trigger, advance on a firing, and write output i. */
    method ProcessPlayhead(i: int, clockIn: real, params: seq<real>, outputs: array<real>)
      requires Valid() && 0 <= i < NumPlayheads
      requires |params| == ParamsLen && outputs.Length == OutputsLen
      modifies stepIndex, clockTrigger, outputs
      ensures Valid()
      ensures Head(i) == Step(old(Head(i)), clockIn)
      ensures forall j :: 0 <= j < NumPlayheads && j != i ==> Head(j) == old(Head(j))
      ensures outputs[i] == Output(params, Head(i))
      ensures forall j :: 0 <= j < OutputsLen && j != i ==> outputs[j] == old(outputs[j])
    {
      StepParamsInRange();
      var t := ClockTrigger.Process(clockTrigger[i], Rescale(clockIn));
      clockTrigger[i] := t.latched;
      if t.fired {
        stepIndex[i] := (stepIndex[i] + 1) % NumSteps;
      }
      outputs[i] := params[StepParams[stepIndex[i]]] * 10.0;
    }

    /** The second loop of process: light stepLights[s] gets brightness 1
        when s is playhead 0's step and 0 otherwise. */
    method ShowStep(lights: array<real>)
      requires Valid() && lights.Length == LightsLen
      modifies lights
      ensures lights[..] == Lights(Head(0).step)
    {
      StepLightsTable();
      for s := 0 to NumSteps
        invariant forall j :: 0 <= j < s ==> lights[StepLights[j]] == if j == stepIndex[0] then 1.0 else 0.0
      {
        lights[StepLights[s]] := if s == stepIndex[0] then 1.0 else 0.0;
      }
      EveryLightWritten(lights[..], stepIndex[0]);
    }
  }
}
