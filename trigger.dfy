/**
 The clock front end of one playhead: the clock voltage is rescaled from
 [0.1 V, 2 V] onto [0, 1] and fed to a Schmitt trigger with thresholds 0
 and 1.

 The trigger is Rack's dsp::SchmittTrigger, whose code is not part of this
 model. Its behaviour here is an ASSUMPTION, not a fact proved about that
 library: a two-state latch that, when released, fires and latches on an
 input of at least 1, and, when latched, releases on an input of at most 0.
 Voltages are exact reals rather than 32-bit floats.
 */
module ClockTrigger {

  // rescale(clockIn, 0.1f, 2.f, 0.f, 1.f)
  const ClockLow: real := 0.1
  const ClockHigh: real := 2.0

  // the trigger's default thresholds
  const LowThreshold: real := 0.0
  const HighThreshold: real := 1.0

  /** Linear map of [ClockLow, ClockHigh] onto [0, 1], not clamped. */
  function Rescale(clockIn: real): (y: real)
    ensures y >= HighThreshold <==> clockIn >= ClockHigh
    ensures y <= LowThreshold <==> clockIn <= ClockLow
    ensures clockIn == ClockLow ==> y == 0.0
    ensures clockIn == ClockHigh ==> y == 1.0
  {
    (clockIn - ClockLow) / (ClockHigh - ClockLow) * (1.0 - 0.0) + 0.0
  }

  /** The latch after one input, and whether that input fired it. */
  datatype TriggerStep = TriggerStep(latched: bool, fired: bool)

  /** One call of the trigger's process on input x, from latch state latched. */
  function Process(latched: bool, x: real): (r: TriggerStep)
    // it fires exactly on a released latch meeting the high threshold
    ensures r.fired <==> !latched && x >= HighThreshold
    // and a firing leaves it latched
    ensures r.fired ==> r.latched
    // a latched trigger never fires, and is released only by a low input
    ensures latched ==> !r.fired && (r.latched <==> x > LowThreshold)
    // a released trigger that does not fire stays released
    ensures !latched && !r.fired ==> !r.latched
  {
    if latched then
      TriggerStep(!(x <= LowThreshold), false)
    else if x >= HighThreshold then
      TriggerStep(true, true)
    else
      TriggerStep(false, false)
  }

  /** Clamping onto [0, 1], which the library's rescale may or may not do. */
  function Clamp(y: real): (c: real)
    ensures 0.0 <= c <= 1.0
    ensures 0.0 <= y <= 1.0 ==> c == y
  {
    if y < 0.0 then 0.0 else if y > 1.0 then 1.0 else y
  }

  /** Whether rescale clamps or not makes no difference to the trigger. */
  lemma ClampIsInvisible(latched: bool, y: real)
    ensures Process(latched, Clamp(y)) == Process(latched, y)
  {
  }

  /** In clock volts: the trigger fires on at least ClockHigh and is released
      by at most ClockLow. */
  lemma ProcessInVolts(latched: bool, clockIn: real)
    ensures Process(latched, Rescale(clockIn)).fired <==> !latched && clockIn >= ClockHigh
    ensures latched ==> (Process(latched, Rescale(clockIn)).latched <==> clockIn > ClockLow)
  {
  }
}
