# MultiheadSequencer, modelled in Dafny

This project models the per-sample engine of the MultiheadSequencer module
for the Rack modular-synthesis host. The module has sixteen knobs (one per
step), two clock inputs and two playheads. It also has sixteen lights.

Each playhead keeps a step index and the latch of a Schmitt trigger on its
own clock input. On every sample (`process`), each playhead polls its
trigger. When the trigger fires, the playhead advances one step, wrapping
after step 15. Each playhead then outputs ten times the knob of its
current step. The sixteen lights show playhead 0's step: exactly one is
lit.

The ParamId and LightId enumerations are declared out of panel order
(CV_1, CV_3, CV_5, CV_2, ...). The lookup tables `stepParams` and
`stepLights` undo that order.

Files, one module each:

- `tables.dfy` (`Tables`): the bank sizes and the declaration order of
  ParamId and LightId. It also holds the two tables and the proof that each
  table is a permutation sending step s to the enumerator numbered s+1.
- `trigger.dfy` (`ClockTrigger`): the rescale of the clock voltage from
  [0.1 V, 2 V] onto [0, 1], and the assumed behaviour of the
  `dsp::SchmittTrigger` latch.
- `playheads.dfy` (`Playheads`): the value-level model. It covers one
  playhead's step, runs of successive samples, the output voltage and the
  light pattern, with the lemmas about them.
- `sequencer.dfy` (`Sequencer`): the module object as a class. It holds the
  `stepIndex` and latch arrays, updated in place by `Process`, whose
  contract is stated with the functions of `Playheads`.

The host's buffers are parameters of `Process`: `clockIn` holds the two
clock voltages, `params` the knob values indexed by ParamId, `outputs` the
two output voltages and `lights` the brightnesses indexed by LightId.

## Model

| member | source | states |
|---|---|---|
| `Tables.ParamId` | src/MultiheadSequencer.cpp:8-26 | the value of enumerator CV_n_PARAM lies in [0, 16), and the enumerator declared at that position is CV_n |
| `Tables.LightId` | src/MultiheadSequencer.cpp:37-55 | the value of enumerator LIGHT_n_LIGHT lies in [0, 16), and the enumerator declared at that position is LIGHT_n |
| `Tables.IndexOf` | src/MultiheadSequencer.cpp:8-26 | the position it returns for a value in the sequence is in range, holds that value, and no earlier position holds it |
| `Tables.EnumNumbersArePanelNumbers` | src/MultiheadSequencer.cpp:8-55 | both enumerations name each panel number 1..16 exactly once |
| `Tables.UnscramblingIsPermutation` | src/MultiheadSequencer.cpp:60-72 | take an enumeration naming every panel number once, and a 16-entry table whose entry s is the enumerator numbered s+1; that table is a permutation of 0..15 |
| `Tables.StepParamsTable` | src/MultiheadSequencer.cpp:60-65 | `stepParams[s]` is the value of CV_(s+1)_PARAM for every step s, and `stepParams` is a permutation of 0..15, so every knob belongs to exactly one step |
| `Tables.StepLightsTable` | src/MultiheadSequencer.cpp:67-72 | `stepLights[s]` is the value of LIGHT_(s+1)_LIGHT for every step s, and `stepLights` is a permutation of 0..15 |
| `ClockTrigger.Rescale` | src/MultiheadSequencer.cpp:95 | the rescaled clock is at least 1 exactly when the clock is at least 2 V, and at most 0 exactly when the clock is at most 0.1 V; 0.1 V maps to 0 and 2 V to 1 |
| `ClockTrigger.Process` | src/MultiheadSequencer.cpp:95 | the assumed latch fires exactly when released and the input is at least 1, and a firing leaves it latched; a latched trigger never fires and is released only by an input of at most 0 |
| `ClockTrigger.ClampIsInvisible` | src/MultiheadSequencer.cpp:95 | clamping the rescaled value to [0, 1] never changes the trigger's result |
| `ClockTrigger.ProcessInVolts` | src/MultiheadSequencer.cpp:95 | in clock volts, the trigger fires exactly on a released latch and a clock of at least 2 V; a latched trigger stays latched exactly while the clock is above 0.1 V |
| `Playheads.Fires` | src/MultiheadSequencer.cpp:95 | the value of `clockTrigger[i].process(rescale(...))`: true exactly when the trigger is released and the clock is at least 2 V |
| `Playheads.Step` | src/MultiheadSequencer.cpp:93-97 | one sample keeps the step in [0, 16); a rising edge on a released trigger with the clock at 2 V or above advances the step by one, from 15 to 0; otherwise the step stays put; the step moves exactly when the trigger fires; the new latch is set after a firing, kept set exactly while the clock is above 0.1 V, and otherwise stays released |
| `Playheads.Run` | src/MultiheadSequencer.cpp:92-97 | any number of successive samples keeps the step index in [0, 16) |
| `Playheads.RunPosition` | src/MultiheadSequencer.cpp:96 | after any run of samples, the step is the start step plus the number of firings, modulo 16 |
| `Playheads.SixteenFiringsReturn` | src/MultiheadSequencer.cpp:96 | after exactly sixteen firings, a playhead is back at the step it started from |
| `Playheads.FiringsBoundedByLowSamples` | src/MultiheadSequencer.cpp:95 | a run fires at most once per clock sample at or below 0.1 V, plus once more if the trigger started released |
| `Playheads.NoRefireWhileHigh` | src/MultiheadSequencer.cpp:95 | a latched trigger fed only samples above 0.1 V never fires, and the playhead is left unchanged |
| `Playheads.OneStepPerExcursion` | src/MultiheadSequencer.cpp:95-96 | a firing sample followed by samples that never drop to 0.1 V gives exactly one firing and one step forward |
| `Playheads.Output` | src/MultiheadSequencer.cpp:99-100 | output i is 10 times the knob whose enumerator is CV_(s+1), for the playhead's step s |
| `Playheads.OutputIsPanelKnob` | src/MultiheadSequencer.cpp:99-100 | the output for the playhead's step s is 10 times the knob CV_(s+1); knobs within [0, 1] give outputs within [0, 10] |
| `Playheads.Lights` | src/MultiheadSequencer.cpp:103-106 | the light pattern for a step has one brightness per light |
| `Playheads.EveryLightWritten` | src/MultiheadSequencer.cpp:103-106 | writing brightness (s == k) to light `stepLights[s]` for every step s yields exactly the pattern `Lights(k)`: every light is written |
| `Playheads.ExactlyOneLight` | src/MultiheadSequencer.cpp:103-106 | in the pattern for step k, exactly one light has brightness 1 and the other fifteen have 0; the lit one is LIGHT_(k+1)_LIGHT |
| `Playheads.ThreePulseScenario` | src/MultiheadSequencer.cpp:92-107 | a scenario: knobs CV_2 = 0.5 and CV_3 = 1, a playhead starting released at step 0, then three clean pulses; the steps are 1, 2, 3, the outputs 5 V, 10 V, 0 V, and the lit lights LIGHT_2, LIGHT_3, LIGHT_4 |
| `Sequencer.MultiheadSequencer.Head` | src/MultiheadSequencer.cpp:74-75 | the state of playhead i, a step index in [0, 16) and a latch |
| `Sequencer.MultiheadSequencer.constructor` | src/MultiheadSequencer.cpp:87-89 | both playheads start at step 0 |
| `Sequencer.MultiheadSequencer.Process` | src/MultiheadSequencer.cpp:92-107 | the state stays valid; playhead i's new state is `Step` of its old state and clock i alone; output i is `Output` of the new step; the lights are `Lights` of playhead 0's new step, so playhead 1 never affects them |
| `Sequencer.MultiheadSequencer.ProcessPlayhead` | src/MultiheadSequencer.cpp:93-101 | playhead i takes one `Step` on its clock and output i is written; the other playhead and the other output are unchanged |
| `Sequencer.MultiheadSequencer.ShowStep` | src/MultiheadSequencer.cpp:103-106 | the light array becomes `Lights` of playhead 0's step |

## Left out

- `MultiheadSequencerWidget` (src/MultiheadSequencer.cpp:110-163) is panel
  loading and widget placement. It is presentation only and is not modelled.
- `createModel` (src/MultiheadSequencer.cpp:165) and `init` /
  `pluginInstance` (src/plugin.cpp) are host registration glue. They are not
  modelled.
- The host configuration calls `config`, `configParam`, `configInput` and
  `configOutput` (src/MultiheadSequencer.cpp:78-85) are not modelled. The
  knob range [0, 1] set by `configParam` is only a hypothesis of the range
  statement in `OutputIsPanelKnob`, not a precondition of `Process`.
- Voltages and knob values are exact reals, not 32-bit floats. The model
  has no rounding in the rescale or in `* 10.f`. The constant 0.1 is exact,
  while `0.1f` is not.
- Rack's `rescale` is not part of this model. `Rescale` is the unclamped
  linear map. `ClampIsInvisible` shows a clamping rescale would give the
  same trigger results.
- `dsp::SchmittTrigger` is not part of this model. Its behaviour (fire and
  latch at 1 or above, release at 0 or below) is an assumption. The latch's
  initial state is also not visible, so the constructor takes it as a
  parameter.
- `ProcessArgs` (sample rate and time) is not read by the source, so it is
  not modelled. The real-time audio thread and the host's synchronisation
  of knob values are not modelled either; the model handles one call at a
  time.
- In `process`, the body of the first loop becomes the method
  `ProcessPlayhead`, and the second loop becomes the method `ShowStep`.
  They are separate methods so that each can be verified on its own; what
  they compute is unchanged.
- Playheads.Lights: its own contract states only the length of the
  pattern, because the pattern is its definition; `ExactlyOneLight` and
  `EveryLightWritten` state what it means.
- Playheads.Output: its own contract names the knob by its enumerator
  number (the v with ParamIdNumbers[v] == s+1), not through `ParamId`,
  because evaluating `ParamId` on the literal tables in every caller is
  costly to verify. `OutputIsPanelKnob` states the same output as
  `10 * params[ParamId(s+1)]`.
- Playheads.Run: its own contract states only the bounds; `RunPosition`
  states where the playhead ends up.
- The tables are written with each enumerator replaced by its value.
  `StepParamsTable` and `StepLightsTable` prove that entry s is the value of
  the enumerator named CV_(s+1) or LIGHT_(s+1).

## Behaviour worth noting

- The knob is read after the advance. After three clean pulses from step 0,
  the outputs are the knobs of steps 1, 2 and 3, not those of steps 0, 1
  and 2 (`ThreePulseScenario`).
- A clock must reach 2 V to fire a trigger, and must fall to 0.1 V or below
  before the next firing. A 1.5 V clock rescales to about 0.74 and never
  fires (`ProcessInVolts`).
