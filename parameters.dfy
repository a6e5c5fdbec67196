/** The plugin's user parameters: their declared ranges and defaults, the
    labels of the two slope choices, and the snapshot of raw values from which
    every coefficient update is derived. */
module Parameters {

  /** One consistent read of all seven parameters. The slopes are the values
      the raw choice index is cast to: 0 means 12 dB/Oct, ..., 3 means 48 dB/Oct. */
  datatype ChainSettings = ChainSettings(
    lowCutFreq: real, highCutFreq: real,
    peakFreq: real, peakGainDecibels: real, peakQuality: real,
    lowCutSlope: int, highCutSlope: int)

  /** A normalisable range: its bounds, the step between legal values and the
      skew of the slider mapping. */
  datatype Range = Range(start: real, end: real, interval: real, skew: real)

  datatype Parameter =
    | FloatParameter(id: string, range: Range, defaultValue: real)
    | ChoiceParameter(id: string, choices: seq<string>, defaultIndex: int)

  /** A parameter is well formed when its range is not empty, its step is
      positive and its default is one of its legal values. */
  predicate WellFormed(p: Parameter)
  {
    match p
    case FloatParameter(_, r, d) => r.start < r.end && r.interval > 0.0 && r.skew > 0.0 && r.start <= d <= r.end
    case ChoiceParameter(_, cs, d) => 0 <= d < |cs|
  }

  const LowCutFreq := "LowCut Freq"
  const HighCutFreq := "HighCut Freq"
  const PeakFreq := "Peak Freq"
  const PeakGain := "Peak Gain"
  const PeakQuality := "Peak Quality"
  const LowCutSlope := "LowCut Slope"
  const HighCutSlope := "HighCut Slope"

  const FrequencyRange := Range(20.0, 20000.0, 1.0, 0.25)
  const PeakFrequencyRange := Range(20.0, 20000.0, 1.0, 0.5)
  const GainRange := Range(-24.0, 24.0, 0.5, 1.0)
  const QualityRange := Range(0.1, 10.0, 0.05, 1.0)

  /** The number of slope choices: 12, 24, 36 and 48 dB/Oct. */
  const SlopeCount := 4

  // ---------------------------------------------------------------------------
  // Decimal text of the slope labels

  function DigitChar(d: nat): (c: char)
    requires d < 10
    ensures '0' <= c <= '9' && (c as int) - ('0' as int) == d
  {
    "0123456789"[d]
  }

  /** The decimal digits of n, most significant first, without leading zeros. */
  function NatToString(n: nat): (s: string)
    ensures |s| > 0 && forall k :: 0 <= k < |s| ==> '0' <= s[k] <= '9'
    decreases n
  {
    if n < 10 then [DigitChar(n)] else NatToString(n / 10) + [DigitChar(n % 10)]
  }

  /** The value of a string of decimal digits. */
  function ParseNat(s: string): nat
    requires forall k :: 0 <= k < |s| ==> '0' <= s[k] <= '9'
    decreases |s|
  {
    if s == [] then 0 else 10 * ParseNat(s[..|s| - 1]) + ((s[|s| - 1] as int) - ('0' as int))
  }

  /** Reading back the decimal text of a number gives the number. */
  lemma {:induction false} ParseNatToString(n: nat)
    ensures ParseNat(NatToString(n)) == n
    decreases n
  {
    var s := NatToString(n);
    if n >= 10 {
      ParseNatToString(n / 10);
      assert s[..|s| - 1] == NatToString(n / 10);
    }
  }

  /** The label of slope choice i. */
  function SlopeLabel(i: nat): string
  {
    NatToString(12 + i * 12) + " dB/Oct"
  }

  /** The number in front of a slope label is its slope in dB/Oct. */
  lemma SlopeLabelNamesSlope(i: nat)
    ensures |SlopeLabel(i)| > 7
    ensures SlopeLabel(i)[|SlopeLabel(i)| - 7..] == " dB/Oct"
    ensures ParseNat(SlopeLabel(i)[..|SlopeLabel(i)| - 7]) == 12 * (i + 1)
  {
    var digits := NatToString(12 + i * 12);
    assert SlopeLabel(i)[..|SlopeLabel(i)| - 7] == digits;
    ParseNatToString(12 + i * 12);
  }

  /** Different choices carry different labels. */
  lemma SlopeLabelsDistinct(i: nat, j: nat)
    requires i != j
    ensures SlopeLabel(i) != SlopeLabel(j)
  {
    SlopeLabelNamesSlope(i);
    SlopeLabelNamesSlope(j);
  }

  /** The four labels as the user reads them. */
  lemma SlopeLabelsSpelled()
    ensures SlopeLabel(0) == "12 dB/Oct" && SlopeLabel(1) == "24 dB/Oct"
    ensures SlopeLabel(2) == "36 dB/Oct" && SlopeLabel(3) == "48 dB/Oct"
  {
    assert NatToString(12) == "12" && NatToString(24) == "24";
    assert NatToString(36) == "36" && NatToString(48) == "48";
  }

  /** The label list built for both slope choices. */
  method SlopeChoices() returns (labels: seq<string>)
    ensures |labels| == SlopeCount
    ensures forall i :: 0 <= i < SlopeCount ==> labels[i] == SlopeLabel(i)
    ensures labels == ["12 dB/Oct", "24 dB/Oct", "36 dB/Oct", "48 dB/Oct"]
  {
    labels := [];
    var i := 0;
    while i < SlopeCount
      invariant 0 <= i <= SlopeCount && |labels| == i
      invariant forall j :: 0 <= j < i ==> labels[j] == SlopeLabel(j)
    {
      var str := NatToString(12 + i * 12);
      str := str + " dB/Oct";
      labels := labels + [str];
      i := i + 1;
    }
    SlopeLabelsSpelled();
  }

  // ---------------------------------------------------------------------------
  // The parameter layout

  function Ids(layout: seq<Parameter>): (ids: seq<string>)
    ensures |ids| == |layout|
    ensures forall k :: 0 <= k < |layout| ==> ids[k] == layout[k].id
  {
    if layout == [] then [] else [layout[0].id] + Ids(layout[1..])
  }

  /** The seven parameters, in declaration order. */
  method CreateParameterLayout() returns (layout: seq<Parameter>)
    ensures Ids(layout) == [LowCutFreq, HighCutFreq, PeakFreq, PeakGain, PeakQuality, LowCutSlope, HighCutSlope]
    ensures forall k :: 0 <= k < |layout| ==> WellFormed(layout[k])
    ensures layout[0] == FloatParameter(LowCutFreq, FrequencyRange, 20.0)
    ensures layout[1] == FloatParameter(HighCutFreq, FrequencyRange, 20000.0)
    ensures layout[2] == FloatParameter(PeakFreq, PeakFrequencyRange, 750.0)
    ensures layout[3] == FloatParameter(PeakGain, GainRange, 0.0)
    ensures layout[4] == FloatParameter(PeakQuality, QualityRange, 1.0)
    ensures layout[5].ChoiceParameter? && layout[6].ChoiceParameter?
    ensures forall k :: 5 <= k < 7 ==>
      |layout[k].choices| == SlopeCount && layout[k].defaultIndex == 0 &&
      forall i :: 0 <= i < SlopeCount ==> layout[k].choices[i] == SlopeLabel(i)
    ensures layout[0].defaultValue == DefaultSettings.lowCutFreq
    ensures layout[1].defaultValue == DefaultSettings.highCutFreq
    ensures layout[2].defaultValue == DefaultSettings.peakFreq
    ensures layout[3].defaultValue == DefaultSettings.peakGainDecibels
    ensures layout[4].defaultValue == DefaultSettings.peakQuality
    ensures layout[5].defaultIndex == DefaultSettings.lowCutSlope
    ensures layout[6].defaultIndex == DefaultSettings.highCutSlope
  {
    layout := [];
    layout := layout + [FloatParameter(LowCutFreq, FrequencyRange, 20.0)];
    layout := layout + [FloatParameter(HighCutFreq, FrequencyRange, 20000.0)];
    layout := layout + [FloatParameter(PeakFreq, PeakFrequencyRange, 750.0)];
    layout := layout + [FloatParameter(PeakGain, GainRange, 0.0)];
    layout := layout + [FloatParameter(PeakQuality, QualityRange, 1.0)];
    var stringArray := SlopeChoices();
    layout := layout + [ChoiceParameter(LowCutSlope, stringArray, 0)];
    layout := layout + [ChoiceParameter(HighCutSlope, stringArray, 0)];
  }

  // ---------------------------------------------------------------------------
  // The snapshot

  /** The raw parameter values, by parameter id. A choice parameter's raw
      value is its index. */
  type Store = map<string, real>

  predicate HasAllParameters(store: Store)
  {
    LowCutFreq in store && HighCutFreq in store && PeakFreq in store && PeakGain in store &&
    PeakQuality in store && LowCutSlope in store && HighCutSlope in store
  }

  /** The conversion of a floating-point value to an integer (and so to the
      slope enumeration): the fraction is cut off, toward zero. */
  function TruncateToInt(x: real): (r: int)
    ensures 0.0 <= x ==> r as real <= x < r as real + 1.0
    ensures x < 0.0 ==> r as real - 1.0 < x <= r as real
  {
    if x >= 0.0 then x.Floor else -((-x).Floor)
  }

  /** Reads one snapshot of all parameters. */
  function GetChainSettings(store: Store): (s: ChainSettings)
    requires HasAllParameters(store)
  {
    ChainSettings(
      store[LowCutFreq], store[HighCutFreq],
      store[PeakFreq], store[PeakGain], store[PeakQuality],
      TruncateToInt(store[LowCutSlope]), TruncateToInt(store[HighCutSlope]))
  }

  predicate Within(v: real, r: Range)
  {
    r.start <= v <= r.end
  }

  /** A raw choice value the parameter store can hold: a whole index of one of
      the four choices. */
  predicate IsChoiceIndex(v: real)
  {
    0.0 <= v < SlopeCount as real && v.Floor as real == v
  }

  /** Every raw value lies within what its parameter declares. */
  predicate StoreInRange(store: Store)
  {
    HasAllParameters(store) &&
    Within(store[LowCutFreq], FrequencyRange) && Within(store[HighCutFreq], FrequencyRange) &&
    Within(store[PeakFreq], PeakFrequencyRange) && Within(store[PeakGain], GainRange) &&
    Within(store[PeakQuality], QualityRange) &&
    IsChoiceIndex(store[LowCutSlope]) && IsChoiceIndex(store[HighCutSlope])
  }

  /** A snapshot whose every field lies inside its declared range. */
  predicate SettingsInRange(s: ChainSettings)
  {
    Within(s.lowCutFreq, FrequencyRange) && Within(s.highCutFreq, FrequencyRange) &&
    Within(s.peakFreq, PeakFrequencyRange) && Within(s.peakGainDecibels, GainRange) &&
    Within(s.peakQuality, QualityRange) &&
    0 <= s.lowCutSlope < SlopeCount && 0 <= s.highCutSlope < SlopeCount
  }

  lemma TruncateIndex(v: real)
    requires IsChoiceIndex(v)
    ensures TruncateToInt(v) as real == v && 0 <= TruncateToInt(v) < SlopeCount
  {
  }

  /** A snapshot of a store that respects the declared ranges respects them
      too, and its slopes are among the four known cases. */
  lemma SnapshotInRange(store: Store)
    requires StoreInRange(store)
    ensures SettingsInRange(GetChainSettings(store))
  {
    TruncateIndex(store[LowCutSlope]);
    TruncateIndex(store[HighCutSlope]);
  }

  /** The store that holds exactly the values of a snapshot. */
  function StoreOf(s: ChainSettings): (store: Store)
    ensures HasAllParameters(store)
  {
    map[LowCutFreq := s.lowCutFreq, HighCutFreq := s.highCutFreq, PeakFreq := s.peakFreq,
        PeakGain := s.peakGainDecibels, PeakQuality := s.peakQuality,
        LowCutSlope := s.lowCutSlope as real, HighCutSlope := s.highCutSlope as real]
  }

  /** Reading a snapshot back from the store that holds it gives it back. */
  lemma SnapshotRoundTrip(s: ChainSettings)
    ensures GetChainSettings(StoreOf(s)) == s
  {
    var store := StoreOf(s);
    assert store[LowCutSlope] == s.lowCutSlope as real;
    assert store[HighCutSlope] == s.highCutSlope as real;
    assert TruncateToInt(s.lowCutSlope as real) == s.lowCutSlope;
    assert TruncateToInt(s.highCutSlope as real) == s.highCutSlope;
  }

  /** The defaults of all parameters, as the store holds them before any edit. */
  const DefaultSettings := ChainSettings(20.0, 20000.0, 750.0, 0.0, 1.0, 0, 0)

  /** The default snapshot lies inside every declared range, and the store
      holding it reads back as it. */
  lemma DefaultsInRange()
    ensures StoreInRange(StoreOf(DefaultSettings))
    ensures GetChainSettings(StoreOf(DefaultSettings)) == DefaultSettings
  {
    SnapshotRoundTrip(DefaultSettings);
  }
}
