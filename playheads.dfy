/**
 The value-level model of the sequencer: one playhead's step on one sample,
 its run over a sequence of clock samples, the voltage it outputs and the
 light pattern that follows playhead 0. The class in module Sequencer is
 specified in terms of these functions.
 */
module Playheads {
  import opened Tables
  import opened ClockTrigger

  /** A playhead: its step index and the latch of its clock trigger. */
  datatype Playhead = Playhead(step: int, latched: bool)

  predicate Valid(p: Playhead)
  {
    0 <= p.step < NumSteps
  }

  /** Whether clock sample clockIn fires p's trigger. */
  predicate Fires(p: Playhead, clockIn: real): (b: bool)
    // in volts: a released trigger and a clock of at least ClockHigh
    ensures b <==> !p.latched && clockIn >= ClockHigh
  {
    ProcessInVolts(p.latched, clockIn);
    Process(p.latched, Rescale(clockIn)).fired
  }

  /** One sample for one playhead: poll the trigger, and on a firing advance
      (stepIndex + 1) % NUM_STEPS; the operands are never negative, so C++'s
      remainder agrees with Dafny's. */
  function Step(p: Playhead, clockIn: real): (q: Playhead)
    requires Valid(p)
    ensures Valid(q)
    // a rising edge in volts advances by exactly one, wrapping after 15
    ensures !p.latched && clockIn >= ClockHigh ==>
              q.step == (if p.step == NumSteps - 1 then 0 else p.step + 1)
    // otherwise the step does not move
    ensures !(!p.latched && clockIn >= ClockHigh) ==> q.step == p.step
    ensures q.step != p.step <==> Fires(p, clockIn)
    // a released trigger latches on a firing; a latched one stays latched
    // exactly while the clock is above ClockLow
    ensures q.latched <==> (if p.latched then clockIn > ClockLow else clockIn >= ClockHigh)
  {
    var t := Process(p.latched, Rescale(clockIn));
    if t.fired then Playhead((p.step + 1) % NumSteps, t.latched) else Playhead(p.step, t.latched)
  }

  /** The playhead after the samples cs, one call of process per sample. */
  function Run(p: Playhead, cs: seq<real>): (q: Playhead)
    requires Valid(p)
    ensures Valid(q)
    decreases |cs|
  {
    if cs == [] then p else Run(Step(p, cs[0]), cs[1..])
  }

  /** How many of the samples cs fire the trigger, starting from p. */
  function Firings(p: Playhead, cs: seq<real>): nat
    requires Valid(p)
    decreases |cs|
  {
    if cs == [] then 0
    else (if Fires(p, cs[0]) then 1 else 0) + Firings(Step(p, cs[0]), cs[1..])
  }

  /** How many of the samples cs are at or below ClockLow. */
  function LowSamples(cs: seq<real>): nat
  {
    if cs == [] then 0
    else (if cs[0] <= ClockLow then 1 else 0) + LowSamples(cs[1..])
  }

  /** After a run, the step index is the start plus the number of firings,
      modulo 16: it moves on firings only, by one each, and never leaves
      [0, 16). */
  lemma {:induction false} RunPosition(p: Playhead, cs: seq<real>)
    requires Valid(p)
    ensures Valid(Run(p, cs))
    ensures Run(p, cs).step == (p.step + Firings(p, cs)) % NumSteps
    decreases |cs|
  {
    if cs != [] {
      var q := Step(p, cs[0]);
      RunPosition(q, cs[1..]);
      var f := if Fires(p, cs[0]) then 1 else 0;
      assert q.step == (p.step + f) % NumSteps;
      ModAdd(p.step + f, Firings(q, cs[1..]));
    }
  }

  lemma ModAdd(a: int, b: int)
    ensures ((a % NumSteps) + b) % NumSteps == (a + b) % NumSteps
  {
  }

  /** Sixteen firings bring a playhead back to the step it started on. */
  lemma SixteenFiringsReturn(p: Playhead, cs: seq<real>)
    requires Valid(p)
    requires Firings(p, cs) == NumSteps
    ensures Run(p, cs).step == p.step
  {
    RunPosition(p, cs);
  }

  /** 1 while the trigger is released (ready to fire), 0 while latched. */
  function Ready(p: Playhead): nat
  {
    if p.latched then 0 else 1
  }

  /** Hysteresis, counted: every firing after the first needs a sample at or
      below ClockLow before it, so there are at most as many firings as low
      samples, plus one if the trigger starts released. */
  lemma {:induction false} FiringsBoundedByLowSamples(p: Playhead, cs: seq<real>)
    requires Valid(p)
    ensures Firings(p, cs) + Ready(Run(p, cs)) <= LowSamples(cs) + Ready(p)
    ensures Firings(p, cs) <= LowSamples(cs) + Ready(p)
    decreases |cs|
  {
    if cs != [] {
      ProcessInVolts(p.latched, cs[0]);
      FiringsBoundedByLowSamples(Step(p, cs[0]), cs[1..]);
    }
  }

  /** Hysteresis, stepwise: a latched trigger fed only samples above ClockLow
      stays latched and never fires, so the playhead stays where it is. */
  lemma {:induction false} NoRefireWhileHigh(p: Playhead, cs: seq<real>)
    requires Valid(p) && p.latched
    requires forall k :: 0 <= k < |cs| ==> cs[k] > ClockLow
    ensures Firings(p, cs) == 0
    ensures Run(p, cs) == p
    decreases |cs|
  {
    if cs != [] {
      ProcessInVolts(p.latched, cs[0]);
      assert Step(p, cs[0]) == p;
      NoRefireWhileHigh(p, cs[1..]);
    }
  }

  /** One excursion, one step: a firing sample followed by samples that never
      come down to ClockLow advances the playhead exactly once. */
  lemma OneStepPerExcursion(p: Playhead, c: real, cs: seq<real>)
    requires Valid(p) && Fires(p, c)
    requires forall k :: 0 <= k < |cs| ==> cs[k] > ClockLow
    ensures Firings(p, [c] + cs) == 1
    ensures Run(p, [c] + cs).step == (p.step + 1) % NumSteps
  {
    var q := Step(p, c);
    assert ([c] + cs)[1..] == cs;
    NoRefireWhileHigh(q, cs);
  }

  /** Output i: 10 times the knob stepParams selects for the playhead's step. */
  function Output(params: seq<real>, p: Playhead): (r: real)
    requires |params| == ParamsLen && Valid(p)
    // the knob whose enumerator is CV_(step+1)
    ensures forall v :: 0 <= v < ParamsLen && ParamIdNumbers[v] == p.step + 1 ==> r == 10.0 * params[v]
  {
    StepParamsTable();
    EnumNumbersArePanelNumbers();
    params[StepParams[p.step]] * 10.0
  }

  /** The output is 10 times the knob labelled CV_(step+1) on the panel, and
      knobs in their configured range [0, 1] give outputs in [0, 10]. */
  lemma OutputIsPanelKnob(params: seq<real>, p: Playhead)
    requires |params| == ParamsLen && Valid(p)
    ensures ParamIdNumbers[StepParams[p.step]] == p.step + 1
    ensures Output(params, p) == 10.0 * params[ParamId(p.step + 1)]
    ensures (forall v :: 0 <= v < ParamsLen ==> 0.0 <= params[v] <= 1.0) ==>
              0.0 <= Output(params, p) <= 10.0
  {
    StepParamsTable();
  }

  /** The light brightnesses, indexed by LightId, for playhead 0 at step k:
      light l is lit exactly when l is stepLights[k]. */
  function Lights(k: int): (b: seq<real>)
    requires 0 <= k < NumSteps
    ensures |b| == LightsLen
  {
    seq(LightsLen, l => if l == StepLights[k] then 1.0 else 0.0)
  }

  /** The lights loop writes brightness (s == k) to light stepLights[s] for
      each step s; since every light is some step's light, that leaves
      exactly the pattern Lights(k). */
  lemma EveryLightWritten(b: seq<real>, k: int)
    requires 0 <= k < NumSteps && |b| == LightsLen
    requires forall s :: 0 <= s < NumSteps ==> 0 <= StepLights[s] < LightsLen
    requires forall s :: 0 <= s < NumSteps ==> b[StepLights[s]] == if s == k then 1.0 else 0.0
    ensures b == Lights(k)
  {
    StepLightsCoverAll();
    forall l | 0 <= l < LightsLen
      ensures b[l] == Lights(k)[l]
    {
      assert l in StepLights;
      var s :| 0 <= s < NumSteps && StepLights[s] == l;
    }
  }

  /** How many entries of b equal x. */
  function Count(b: seq<real>, x: real): nat
  {
    if b == [] then 0 else (if b[0] == x then 1 else 0) + Count(b[1..], x)
  }

  lemma {:induction false} CountOneHot(b: seq<real>, j: int)
    requires 0 <= j < |b|
    requires forall l :: 0 <= l < |b| ==> b[l] == if l == j then 1.0 else 0.0
    ensures Count(b, 1.0) == 1
    ensures Count(b, 0.0) == |b| - 1
  {
    if j == 0 {
      CountNone(b[1..], 1.0, 0.0);
    } else {
      CountOneHot(b[1..], j - 1);
    }
  }

  lemma {:induction false} CountNone(b: seq<real>, x: real, y: real)
    requires x != y
    requires forall l :: 0 <= l < |b| ==> b[l] == y
    ensures Count(b, x) == 0 && Count(b, y) == |b|
  {
    if b != [] {
      CountNone(b[1..], x, y);
    }
  }

  /** Exactly one light has brightness 1, all others 0, and the lit one is
      LIGHT_(k+1)_LIGHT, the light of playhead 0's step k. */
  lemma ExactlyOneLight(k: int)
    requires 0 <= k < NumSteps
    ensures Count(Lights(k), 1.0) == 1
    ensures Count(Lights(k), 0.0) == LightsLen - 1
    ensures 0 <= StepLights[k] < LightsLen && Lights(k)[StepLights[k]] == 1.0
    ensures LightIdNumbers[StepLights[k]] == k + 1
  {
    StepLightsTable();
    CountOneHot(Lights(k), StepLights[k]);
  }

  /** Three clean clock pulses (0 V then 5 V) on a playhead that starts
      released at step 0, with knob CV_2 at 0.5, CV_3 at 1 and the rest at 0
      (params is indexed by ParamId, so CV_3 is entry 1 and CV_2 entry 3):
      after the pulses the outputs are the knobs of steps 1, 2 and 3 and the
      lit lights are LIGHT_2, LIGHT_3 and LIGHT_4. */
  lemma ThreePulseScenario(params: seq<real>, p1: Playhead, p2: Playhead, p3: Playhead)
    requires params == [0.0, 1.0, 0.0, 0.5, 0.0, 0.0, 0.0, 0.0, 0.0, 0.0, 0.0, 0.0, 0.0, 0.0, 0.0, 0.0]
    requires p1 == Run(Playhead(0, false), [0.0, 5.0])
    requires p2 == Run(p1, [0.0, 5.0])
    requires p3 == Run(p2, [0.0, 5.0])
    ensures p1.step == 1 && p2.step == 2 && p3.step == 3
    ensures Output(params, p1) == 5.0 && Output(params, p2) == 10.0 && Output(params, p3) == 0.0
    ensures LightIdNumbers[StepLights[p1.step]] == 2
    ensures LightIdNumbers[StepLights[p2.step]] == 3
    ensures LightIdNumbers[StepLights[p3.step]] == 4
  {
    // each pulse: 0 V releases the latch, 5 V fires it
    assert p1 == Playhead(1, true);
    assert p2 == Playhead(2, true);
    assert p3 == Playhead(3, true);
    assert StepParams[1] == 3 && StepParams[2] == 1 && StepParams[3] == 5;
  }
}
