/**
 The fixed numbering of the MultiheadSequencer module: the sizes of its
 parameter, input, output and light banks, the declaration order of the
 ParamId and LightId enumerations, and the two lookup tables that map a
 step number to the knob and to the light that belong to it.

 The enumerations are declared out of panel order (CV_1, CV_3, CV_5, CV_2,
 ...), so the value of an enumerator is not its panel number minus one; the
 tables undo that scrambling.
 */
module Tables {

  const NumSteps := 16
  const NumPlayheads := 2

  // PARAMS_LEN, INPUTS_LEN, OUTPUTS_LEN and LIGHTS_LEN
  const ParamsLen := 16
  const InputsLen := 2
  const OutputsLen := 2
  const LightsLen := 16

  /** Entry v is the panel number n of the enumerator CV_n_PARAM whose value
      is v: ParamId lists CV_1, CV_3, CV_5, CV_2, CV_7, ... in that order. */
  const ParamIdNumbers: seq<int> := [1, 3, 5, 2, 7, 4, 6, 8, 9, 11, 13, 10, 15, 12, 14, 16]

  /** Entry v is the panel number n of the enumerator LIGHT_n_LIGHT whose
      value is v; LightId is scrambled exactly like ParamId. */
  const LightIdNumbers: seq<int> := [1, 3, 5, 2, 7, 4, 6, 8, 9, 11, 13, 10, 15, 12, 14, 16]

  /** No value occurs twice in s. */
  predicate Distinct(s: seq<int>)
  {
    forall i, j :: 0 <= i < j < |s| ==> s[i] != s[j]
  }

  /** t lists each of 0 .. n-1 exactly once. */
  predicate IsPermutation(t: seq<int>, n: int)
  {
    && |t| == n
    && (forall s :: 0 <= s < n ==> 0 <= t[s] < n)
    && Distinct(t)
    && (forall v :: 0 <= v < n ==> v in t)
  }

  /** The first position at which x occurs in s. */
  function IndexOf(s: seq<int>, x: int): (i: nat)
    requires x in s
    ensures i < |s| && s[i] == x
    ensures forall j :: 0 <= j < i ==> s[j] != x
  {
    if s[0] == x then 0 else 1 + IndexOf(s[1..], x)
  }

  /** The enumeration declaration lists every panel number 1 .. 16 once. */
  lemma EnumNumbersArePanelNumbers()
    ensures |ParamIdNumbers| == ParamsLen && Distinct(ParamIdNumbers)
    ensures forall v :: 0 <= v < ParamsLen ==> 1 <= ParamIdNumbers[v] <= NumSteps
    ensures forall n :: 1 <= n <= NumSteps ==> n in ParamIdNumbers
    ensures |LightIdNumbers| == LightsLen && Distinct(LightIdNumbers)
    ensures forall v :: 0 <= v < LightsLen ==> 1 <= LightIdNumbers[v] <= NumSteps
    ensures forall n :: 1 <= n <= NumSteps ==> n in LightIdNumbers
  {
  }

  /** The value of the enumerator CV_n_PARAM. */
  function ParamId(n: int): (v: int)
    requires 1 <= n <= NumSteps
    ensures 0 <= v < ParamsLen && ParamIdNumbers[v] == n
  {
    assert n in ParamIdNumbers;
    IndexOf(ParamIdNumbers, n)
  }

  /** The value of the enumerator LIGHT_n_LIGHT. */
  function LightId(n: int): (v: int)
    requires 1 <= n <= NumSteps
    ensures 0 <= v < LightsLen && LightIdNumbers[v] == n
  {
    assert n in LightIdNumbers;
    IndexOf(LightIdNumbers, n)
  }

  /** stepParams, with each enumerator written as its value:
      CV_1_PARAM, CV_2_PARAM, CV_3_PARAM, ..., CV_16_PARAM. */
  const StepParams: seq<int> := [0, 3, 1, 5, 2, 6, 4, 7, 8, 11, 9, 13, 10, 14, 12, 15]

  /** stepLights, with each enumerator written as its value:
      LIGHT_1_LIGHT, LIGHT_2_LIGHT, LIGHT_3_LIGHT, ..., LIGHT_16_LIGHT. */
  const StepLights: seq<int> := [0, 3, 1, 5, 2, 6, 4, 7, 8, 11, 9, 13, 10, 14, 12, 15]

  /** A table whose entry s is the enumerator numbered s+1, over an
      enumeration that names every panel number once, is a permutation. */
  lemma {:induction false} UnscramblingIsPermutation(t: seq<int>, names: seq<int>)
    requires |names| == NumSteps && Distinct(names)
    requires forall v :: 0 <= v < NumSteps ==> 1 <= names[v] <= NumSteps
    requires |t| == NumSteps
    requires forall s :: 0 <= s < NumSteps ==> 0 <= t[s] < NumSteps && names[t[s]] == s + 1
    ensures IsPermutation(t, NumSteps)
  {
    forall v | 0 <= v < NumSteps
      ensures v in t
    {
      // names[v] is some panel number n; the entry for step n-1 names it too
      var s := names[v] - 1;
      assert names[t[s]] == names[v];
    }
  }

  /** stepParams maps step s to CV_(s+1)_PARAM and reads every knob once. */
  lemma StepParamsTable()
    ensures |StepParams| == NumSteps
    ensures forall s :: 0 <= s < NumSteps ==> 0 <= StepParams[s] < ParamsLen && ParamIdNumbers[StepParams[s]] == s + 1
    ensures forall s :: 0 <= s < NumSteps ==> StepParams[s] == ParamId(s + 1)
    ensures IsPermutation(StepParams, NumSteps)
  {
    EnumNumbersArePanelNumbers();
    UnscramblingIsPermutation(StepParams, ParamIdNumbers);
  }

  /** stepLights maps step s to LIGHT_(s+1)_LIGHT and covers every light once. */
  lemma StepLightsTable()
    ensures |StepLights| == NumSteps
    ensures forall s :: 0 <= s < NumSteps ==> 0 <= StepLights[s] < LightsLen && LightIdNumbers[StepLights[s]] == s + 1
    ensures forall s :: 0 <= s < NumSteps ==> StepLights[s] == LightId(s + 1)
    ensures IsPermutation(StepLights, NumSteps)
  {
    EnumNumbersArePanelNumbers();
    UnscramblingIsPermutation(StepLights, LightIdNumbers);
  }

  /** The range half of StepParamsTable alone: every entry of stepParams
      is a valid ParamId. */
  lemma StepParamsInRange()
    ensures forall s :: 0 <= s < NumSteps ==> 0 <= StepParams[s] < ParamsLen
  {
  }

  /** The covering half of StepLightsTable alone: every light is the light
      of some step. */
  lemma StepLightsCoverAll()
    ensures forall l :: 0 <= l < LightsLen ==> l in StepLights
  {
    StepLightsTable();
  }
}
