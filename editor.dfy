/** The editor side: the text and geometry of the rotary sliders, and the
    response-curve component, which keeps its own mono copy of the cascade,
    refreshes it at most once per timer tick after parameter changes, and
    samples its magnitude once per pixel column. */
module Editor {
  import opened Chain
  import opened Parameters

  // ---------------------------------------------------------------------------
  // Slider text

  /** The kind of parameter a slider is attached to. */
  datatype ParamKind = ChoiceKind(currentChoiceName: string) | FloatKind | OtherKind

  /** The number a float slider shows and whether it is shown in thousands:
      values above 999 are divided by 1000. */
  function Scaled(value: real): (r: (real, bool))
    ensures r.1 <==> value > 999.0
    ensures (if r.1 then r.0 * 1000.0 else r.0) == value
    ensures r.1 ==> r.0 > 0.999
  {
    if value > 999.0 then (value / 1000.0, true) else (value, false)
  }

  /** What follows the number: nothing for an empty suffix, otherwise a space,
      the "K" marker when shown in thousands, and the suffix. */
  function UnitText(suffix: string, addK: bool): (u: string)
    ensures |u| == if suffix == "" then 0 else 1 + (if addK then 1 else 0) + |suffix|
    ensures suffix != "" ==> u[0] == ' ' && u[|u| - |suffix|..] == suffix
    ensures suffix != "" ==> (addK <==> u[1] == 'K' && |u| == |suffix| + 2)
  {
    if suffix == "" then "" else " " + (if addK then "K" else "") + suffix
  }

  /** The text drawn in a slider's knob. A choice parameter shows its current
      choice name as it is. A float parameter shows its value through the
      library's number formatting, toText(value, decimal places), with two
      decimals when shown in thousands and the default format (requested as 0
      decimal places) otherwise. Any other parameter shows no number. */
  function DisplayString(kind: ParamKind, value: real, suffix: string, toText: (real, int) -> string): (r: string)
    ensures kind.ChoiceKind? ==> r == kind.currentChoiceName
    ensures kind.FloatKind? ==>
      r == toText(Scaled(value).0, if Scaled(value).1 then 2 else 0) + UnitText(suffix, Scaled(value).1)
    ensures kind.OtherKind? ==> r == UnitText(suffix, false)
  {
    match kind
    case ChoiceKind(name) => name
    case FloatKind =>
      var addK := value > 999.0;
      var str := toText(if addK then value / 1000.0 else value, if addK then 2 else 0);
      if suffix != "" then str + " " + (if addK then "K" else "") + suffix else str
    case OtherKind =>
      if suffix != "" then " " + suffix else ""
  }

  /** With an empty suffix a float slider shows the number alone; with a
      suffix, the "K" marker appears right after the space exactly when the
      value is above 999, and the text ends with the suffix. */
  lemma DisplayUnitMarker(value: real, suffix: string, toText: (real, int) -> string)
    ensures suffix == "" ==>
      DisplayString(FloatKind, value, suffix, toText) == toText(Scaled(value).0, if value > 999.0 then 2 else 0)
    ensures suffix != "" ==>
      var r := DisplayString(FloatKind, value, suffix, toText);
      var n := |toText(Scaled(value).0, if value > 999.0 then 2 else 0)|;
      |r| > n && r[n] == ' ' && r[|r| - |suffix|..] == suffix &&
      (value > 999.0 <==> r[n + 1..|r| - |suffix|] == "K") &&
      (value <= 999.0 <==> n + 1 == |r| - |suffix|)
  {
    if suffix != "" {
      var r := DisplayString(FloatKind, value, suffix, toText);
      var num := toText(Scaled(value).0, if value > 999.0 then 2 else 0);
      var k: string := if value > 999.0 then "K" else "";
      assert r == num + [' '] + k + suffix;
      assert r[|num| + 1..|r| - |suffix|] == k;
      assert r[|r| - |suffix|..] == suffix;
    }
  }

  /** The peak frequency knob at 1500 reads "1.50 KHz" (with the library's
      two-decimal text for 1.5); at 750 it reads the default text for 750
      followed by " Hz"; the quality knob, whose suffix is empty, shows the
      number alone. */
  lemma FrequencyKnobText(toText: (real, int) -> string)
    ensures DisplayString(FloatKind, 1500.0, "Hz", toText) == toText(1.5, 2) + " KHz"
    ensures DisplayString(FloatKind, 750.0, "Hz", toText) == toText(750.0, 0) + " Hz"
    ensures DisplayString(FloatKind, 2.0, "", toText) == toText(2.0, 0)
  {
  }

  // ---------------------------------------------------------------------------
  // Slider geometry

  datatype Rectangle = Rectangle(x: int, y: int, width: int, height: int)

  /** Integer halving as the source's int arithmetic does it: toward zero. */
  function Half(n: int): (h: int)
    ensures 0 <= n ==> 0 <= h && 2 * h <= n < 2 * h + 2
    ensures n < 0 ==> h <= 0 && 2 * h - 2 < n <= 2 * h
  {
    if n >= 0 then n / 2 else -((-n) / 2)
  }

  function Min(a: int, b: int): int
  {
    if a < b then a else b
  }

  function CentreX(r: Rectangle): int { r.x + Half(r.width) }
  function CentreY(r: Rectangle): int { r.y + Half(r.height) }

  /** The bounds of the knob inside a slider component of the given size: a
      square whose side is the smaller dimension less two text-box heights,
      centred on the component's centre. */
  function SliderBounds(width: nat, height: nat, textBoxHeight: int): (r: Rectangle)
    ensures r.width == r.height == Min(width, height) - 2 * textBoxHeight
    ensures CentreX(r) == CentreX(Rectangle(0, 0, width, height))
    ensures CentreY(r) == CentreY(Rectangle(0, 0, width, height))
  {
    var bounds := Rectangle(0, 0, width, height);
    var size := Min(bounds.width, bounds.height) - textBoxHeight * 2;
    var r := Rectangle(0, 0, 0, 0).(width := size, height := size);
    r.(x := CentreX(bounds) - Half(r.width), y := CentreY(bounds) - Half(r.height))
  }

  /** When the text boxes fit, the knob lies inside the component. */
  lemma SliderInsideComponent(width: nat, height: nat, textBoxHeight: int)
    requires 0 <= textBoxHeight && 2 * textBoxHeight <= Min(width, height)
    ensures var r := SliderBounds(width, height, textBoxHeight);
      0 <= r.x && r.x + r.width <= width && 0 <= r.y && r.y + r.height <= height
  {
    var size := Min(width, height) - 2 * textBoxHeight;
    assert Half(size) <= Half(width) && Half(size) <= Half(height);
    assert size - Half(size) <= width - Half(width);
    assert size - Half(size) <= height - Half(height);
  }

  // ---------------------------------------------------------------------------
  // Change coalescing

  datatype CurveEvent = Change | Tick

  /** The response curve's bookkeeping: whether a parameter changed since the
      last refresh, and how many refreshes (recomputation and repaint) ran. */
  datatype CurveState = CurveState(dirty: bool, recomputes: nat)

  /** A change sets the flag. A tick clears it and refreshes exactly when it
      was set. */
  function Step(st: CurveState, e: CurveEvent): (r: CurveState)
    ensures e == Change ==> r.dirty && r.recomputes == st.recomputes
    ensures e == Tick ==> !r.dirty && r.recomputes == st.recomputes + (if st.dirty then 1 else 0)
  {
    match e
    case Change => st.(dirty := true)
    case Tick => if st.dirty then CurveState(false, st.recomputes + 1) else st
  }

  function Run(st: CurveState, events: seq<CurveEvent>): CurveState
    decreases |events|
  {
    if events == [] then st else Run(Step(st, events[0]), events[1..])
  }

  lemma {:induction false} RunAppend(st: CurveState, a: seq<CurveEvent>, b: seq<CurveEvent>)
    ensures Run(st, a + b) == Run(Run(st, a), b)
    decreases |a|
  {
    if a != [] {
      assert (a + b)[0] == a[0] && (a + b)[1..] == a[1..] + b;
      RunAppend(Step(st, a[0]), a[1..], b);
    } else {
      assert a + b == b;
    }
  }

  function Repeat(e: CurveEvent, n: nat): (r: seq<CurveEvent>)
    ensures |r| == n && forall k :: 0 <= k < n ==> r[k] == e
  {
    seq(n, _ => e)
  }

  /** Any number of changes only mark the curve dirty. */
  lemma {:induction false} ChangesOnlyMarkDirty(st: CurveState, n: nat)
    ensures Run(st, Repeat(Change, n)) == if n == 0 then st else st.(dirty := true)
    decreases n
  {
    if n > 0 {
      assert Repeat(Change, n) == Repeat(Change, n - 1) + [Change];
      RunAppend(st, Repeat(Change, n - 1), [Change]);
      ChangesOnlyMarkDirty(st, n - 1);
    }
  }

  /** A burst of changes followed by one tick yields exactly one refresh and
      leaves the flag clear. */
  lemma BurstYieldsOneRecompute(st: CurveState, n: nat)
    requires n > 0
    ensures Run(st, Repeat(Change, n) + [Tick]) == CurveState(false, st.recomputes + 1)
  {
    RunAppend(st, Repeat(Change, n), [Tick]);
    ChangesOnlyMarkDirty(st, n);
  }

  /** Ticks with no change in between do nothing. */
  lemma {:induction false} IdleTicksDoNothing(st: CurveState, n: nat)
    requires !st.dirty
    ensures Run(st, Repeat(Tick, n)) == st
    decreases n
  {
    if n > 0 {
      assert Repeat(Tick, n) == [Tick] + Repeat(Tick, n - 1);
      IdleTicksDoNothing(st, n - 1);
    }
  }

  function CountTicks(events: seq<CurveEvent>): nat
  {
    if events == [] then 0 else (if events[0] == Tick then 1 else 0) + CountTicks(events[1..])
  }

  /** There are never more refreshes than ticks. */
  lemma {:induction false} RecomputesAtMostTicks(st: CurveState, events: seq<CurveEvent>)
    ensures Run(st, events).recomputes <= st.recomputes + CountTicks(events)
    decreases |events|
  {
    if events != [] {
      RecomputesAtMostTicks(Step(st, events[0]), events[1..]);
    }
  }

  /** The latest change is never dropped: it leaves a refresh pending, and the
      next tick performs it. */
  lemma LatestChangeNotLost(st: CurveState, events: seq<CurveEvent>)
    ensures Run(st, events + [Change]).dirty
    ensures Run(st, events + [Change, Tick]).recomputes == Run(st, events).recomputes + 1
  {
    RunAppend(st, events, [Change]);
    RunAppend(st, events, [Change, Tick]);
  }

  // ---------------------------------------------------------------------------
  // The response curve

  /** The routines the response curve calls that this model does not see: the
      filter builders for the peak and the two cut groups (snapshot and sample
      rate in, coefficients out), the helper that installs designed sections
      into a cut group for a slope (old slots, sections, slope in, new slots
      out), the per-stage magnitude (coefficients, frequency, sample rate), the
      logarithmic frequency axis (proportion, lowest, highest frequency) and
      the decibel conversion. */
  datatype CurveLibrary = CurveLibrary(
    makePeakFilter: (ChainSettings, real) -> Coeff,
    makeLowCutFilter: (ChainSettings, real) -> seq<Coeff>,
    makeHighCutFilter: (ChainSettings, real) -> seq<Coeff>,
    updateCutFilter: (seq<Slot>, seq<Coeff>, int) -> seq<Slot>,
    magnitudeForFrequency: (Coeff, real, real) -> real,
    mapToLog10: (real, real, real) -> real,
    gainToDecibels: real -> real)

  /** The section installer leaves a group of four slots a group of four. */
  ghost predicate KeepsFourSlots(lib: CurveLibrary)
  {
    forall slots: seq<Slot>, sections: seq<Coeff>, slope: int ::
      |slots| == CutSlots ==> |lib.updateCutFilter(slots, sections, slope)| == CutSlots
  }

  /** The section installer follows the processor's inline rule wherever that
      rule applies. */
  ghost predicate FollowsInlineRule(lib: CurveLibrary)
  {
    forall slots: seq<Slot>, sections: seq<Coeff>, slope: int ::
      |slots| == CutSlots && ActiveCount(slope) <= |sections| ==>
        lib.updateCutFilter(slots, sections, slope) == CutUpdate(slots, sections, slope)
  }

  /** Both cut designs yield a section for every slot their slope switches on. */
  predicate CutsDesignable(s: ChainSettings, sampleRate: real, lib: CurveLibrary)
  {
    ActiveCount(s.lowCutSlope) <= |lib.makeLowCutFilter(s, sampleRate)| &&
    ActiveCount(s.highCutSlope) <= |lib.makeHighCutFilter(s, sampleRate)|
  }

  /** The mono cascade after a refresh from one snapshot: peak, low-cut and
      high-cut are all derived from that same snapshot, and the peak keeps its
      bypass flag. */
  function Recomputed(c: ChainState, s: ChainSettings, sampleRate: real, lib: CurveLibrary): (r: ChainState)
    requires |c.lowCut| == CutSlots && |c.highCut| == CutSlots && KeepsFourSlots(lib)
    ensures |r.lowCut| == CutSlots && |r.highCut| == CutSlots
  {
    c.(peak := Slot(lib.makePeakFilter(s, sampleRate), c.peak.bypassed),
       lowCut := lib.updateCutFilter(c.lowCut, lib.makeLowCutFilter(s, sampleRate), s.lowCutSlope),
       highCut := lib.updateCutFilter(c.highCut, lib.makeHighCutFilter(s, sampleRate), s.highCutSlope))
  }

  /** If the section installer follows the processor's inline rule, a refresh
      shows the snapshot's two slopes: as many sections are on in each cut
      group as its slope asks for, and a second refresh from the same
      snapshot changes nothing. */
  lemma RecomputeFollowsSnapshot(c: ChainState, s: ChainSettings, sampleRate: real, lib: CurveLibrary)
    requires |c.lowCut| == CutSlots && |c.highCut| == CutSlots
    requires KeepsFourSlots(lib) && FollowsInlineRule(lib) && CutsDesignable(s, sampleRate, lib)
    ensures CountActive(Recomputed(c, s, sampleRate, lib).lowCut) == ActiveCount(s.lowCutSlope)
    ensures CountActive(Recomputed(c, s, sampleRate, lib).highCut) == ActiveCount(s.highCutSlope)
    ensures Recomputed(Recomputed(c, s, sampleRate, lib), s, sampleRate, lib) == Recomputed(c, s, sampleRate, lib)
  {
    var low := lib.makeLowCutFilter(s, sampleRate);
    var high := lib.makeHighCutFilter(s, sampleRate);
    assert lib.updateCutFilter(c.lowCut, low, s.lowCutSlope) == CutUpdate(c.lowCut, low, s.lowCutSlope);
    assert lib.updateCutFilter(c.highCut, high, s.highCutSlope) == CutUpdate(c.highCut, high, s.highCutSlope);
    ActiveSlotCount(c.lowCut, low, s.lowCutSlope);
    ActiveSlotCount(c.highCut, high, s.highCutSlope);
    CutUpdateIdempotent(c.lowCut, low, s.lowCutSlope);
    CutUpdateIdempotent(c.highCut, high, s.highCutSlope);
    var once := Recomputed(c, s, sampleRate, lib);
    assert lib.updateCutFilter(once.lowCut, low, s.lowCutSlope) == CutUpdate(once.lowCut, low, s.lowCutSlope);
    assert lib.updateCutFilter(once.highCut, high, s.highCutSlope) == CutUpdate(once.highCut, high, s.highCutSlope);
  }

  /** The probe of pixel column i of a curve w columns wide: its frequency is
      the proportion i / w placed on the logarithmic axis from 20 Hz to 20 kHz. */
  function ColumnProbe(i: int, w: int, sampleRate: real, lib: CurveLibrary): Probe
    requires 0 <= i < w
  {
    Probe(lib.magnitudeForFrequency, lib.mapToLog10(i as real / w as real, 20.0, 20000.0), sampleRate)
  }

  datatype Point = Point(x: real, y: real)

  /** The linear map of v from [srcMin, srcMax] onto [dstMin, dstMax]. */
  function JMap(v: real, srcMin: real, srcMax: real, dstMin: real, dstMax: real): real
    requires srcMin != srcMax
  {
    dstMin + (dstMax - dstMin) * (v - srcMin) / (srcMax - srcMin)
  }

  /** The height at which a level in decibels is drawn: -24 dB at the bottom
      of the area, +24 dB at its top. */
  function DecibelToY(db: real, area: Rectangle): real
  {
    JMap(db, -24.0, 24.0, (area.y + area.height) as real, area.y as real)
  }

  /** -24 dB is drawn on the bottom edge, +24 dB on the top edge, and in an
      area of positive height a louder level is drawn strictly higher. */
  lemma DecibelScale(area: Rectangle, a: real, b: real)
    ensures DecibelToY(-24.0, area) == (area.y + area.height) as real
    ensures DecibelToY(24.0, area) == area.y as real
    ensures area.height > 0 && a < b ==> DecibelToY(b, area) < DecibelToY(a, area)
  {
    var bottom := (area.y + area.height) as real;
    var h := area.height as real;
    assert area.y as real - bottom == -h;
    if area.height > 0 && a < b {
      var pa := (a + 24.0) / 48.0;
      var pb := (b + 24.0) / 48.0;
      DecibelToYLinear(a, area);
      DecibelToYLinear(b, area);
      assert pa < pb;
      MulStrict(h, pa, pb);
    }
  }

  /** The height of a level is the bottom edge raised by its share of the
      48 dB span. */
  lemma DecibelToYLinear(db: real, area: Rectangle)
    ensures DecibelToY(db, area) == (area.y + area.height) as real - area.height as real * ((db + 24.0) / 48.0)
  {
    var d := -(area.height as real);
    assert area.y as real - (area.y + area.height) as real == d;
    assert d * (db + 24.0) / 48.0 == d * ((db + 24.0) / 48.0);
  }

  lemma MulStrict(h: real, x: real, y: real)
    requires h > 0.0 && x < y
    ensures h * x < h * y
  {
    assert h * y - h * x == h * (y - x);
  }

  /** The curve through the sampled levels: one point per level, column i at
      x + i, its height given by the level. An empty list has no first point,
      so the source needs at least one level. */
  method ResponsePath(mags: seq<real>, area: Rectangle) returns (path: seq<Point>)
    requires |mags| > 0
    ensures |path| == |mags|
    ensures forall i :: 0 <= i < |mags| ==> path[i] == Point((area.x + i) as real, DecibelToY(mags[i], area))
  {
    path := [Point(area.x as real, DecibelToY(mags[0], area))];
    var i := 1;
    while i < |mags|
      invariant 1 <= i <= |mags| && |path| == i
      invariant forall j :: 0 <= j < i ==> path[j] == Point((area.x + j) as real, DecibelToY(mags[j], area))
    {
      path := path + [Point((area.x + i) as real, DecibelToY(mags[i], area))];
      i := i + 1;
    }
  }

  /** The component that draws the response curve. */
  class ResponseCurveComponent {
    var parametersChanged: bool
    var repaints: nat
    const monoChain: FilterChain

    ghost function Curve(): CurveState
      reads this
    {
      CurveState(parametersChanged, repaints)
    }

    /** A new component: nothing changed yet, nothing drawn, and a cascade
        whose stages hold the initial coefficients. */
    constructor (initial: Coeff)
      ensures monoChain.Valid() && fresh(monoChain.Repr())
      ensures Curve() == CurveState(false, 0)
    {
      monoChain := new FilterChain(initial);
      parametersChanged := false;
      repaints := 0;
    }

    /** The listener callback for any parameter: marks the curve dirty. */
    method ParameterValueChanged(parameterIndex: int, newValue: real)
      modifies this`parametersChanged
      ensures Curve() == Step(old(Curve()), Change)
    {
      parametersChanged := true;
    }

    /** The timer callback: atomically clears the flag if it was set and, only
        then, rebuilds the mono cascade from one snapshot and repaints. */
    method TimerCallback(store: Store, sampleRate: real, lib: CurveLibrary)
      requires monoChain.Valid() && HasAllParameters(store)
      requires KeepsFourSlots(lib)
      modifies this, monoChain, monoChain.lowCut.coeffs, monoChain.lowCut.bypassed
      modifies monoChain.highCut.coeffs, monoChain.highCut.bypassed
      ensures Curve() == Step(old(Curve()), Tick)
      ensures monoChain.State() ==
        if old(parametersChanged)
        then Recomputed(old(monoChain.State()), GetChainSettings(store), sampleRate, lib)
        else old(monoChain.State())
    {
      var swapped := parametersChanged;
      if swapped {
        parametersChanged := false;
      }
      if swapped {
        var chainSettings := GetChainSettings(store);
        var peakCoefficients := lib.makePeakFilter(chainSettings, sampleRate);
        monoChain.peak := peakCoefficients;
        var lowCutCoefficients := lib.makeLowCutFilter(chainSettings, sampleRate);
        var highCutCoefficients := lib.makeHighCutFilter(chainSettings, sampleRate);
        var lowCutSlots := lib.updateCutFilter(monoChain.lowCut.Slots(), lowCutCoefficients, chainSettings.lowCutSlope);
        monoChain.lowCut.Assign(lowCutSlots);
        var highCutSlots := lib.updateCutFilter(monoChain.highCut.Slots(), highCutCoefficients, chainSettings.highCutSlope);
        monoChain.highCut.Assign(highCutSlots);
        repaints := repaints + 1;
      }
    }

    /** One level per pixel column: the decibel value of the cascade's
        magnitude at that column's frequency. */
    method ResponseMagnitudes(w: nat, sampleRate: real, lib: CurveLibrary) returns (mags: seq<real>)
      requires monoChain.Valid()
      ensures |mags| == w
      ensures forall i :: 0 <= i < w ==>
        mags[i] == lib.gainToDecibels(ChainMagnitude(monoChain.State(), ColumnProbe(i, w, sampleRate, lib)))
    {
      var a := new real[w];
      var i := 0;
      while i < w
        invariant 0 <= i <= w
        invariant forall j :: 0 <= j < i ==>
          a[j] == lib.gainToDecibels(ChainMagnitude(monoChain.State(), ColumnProbe(j, w, sampleRate, lib)))
      {
        var freq := lib.mapToLog10(i as real / w as real, 20.0, 20000.0);
        var mag := monoChain.MagnitudeAt(Probe(lib.magnitudeForFrequency, freq, sampleRate));
        a[i] := lib.gainToDecibels(mag);
        i := i + 1;
      }
      mags := a[..];
    }

    /** The curve drawn in an area: one point per pixel column, each at the
        height of the cascade's level at that column's frequency. */
    method Paint(area: Rectangle, sampleRate: real, lib: CurveLibrary) returns (path: seq<Point>)
      requires monoChain.Valid() && area.width > 0
      ensures |path| == area.width
      ensures forall i :: 0 <= i < area.width ==>
        path[i] == Point((area.x + i) as real,
          DecibelToY(lib.gainToDecibels(ChainMagnitude(monoChain.State(), ColumnProbe(i, area.width, sampleRate, lib))), area))
    {
      var mags := ResponseMagnitudes(area.width, sampleRate, lib);
      path := ResponsePath(mags, area);
    }
  }
}
