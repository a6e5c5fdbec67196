/** The audio processor: its accepted bus layouts, and the coefficient update
    it runs on both channel cascades before playback starts and at the start
    of every audio block. */
module Processor {
  import opened Chain
  import opened Parameters

  // ---------------------------------------------------------------------------
  // Bus layouts

  /** A speaker position a channel can carry. */
  datatype ChannelType = Left | Right | Centre | LFE | LeftSurround | RightSurround | Discrete(index: nat)

  /** A set of channels, compared as a set. */
  datatype ChannelSet = ChannelSet(channels: set<ChannelType>)

  function Disabled(): ChannelSet { ChannelSet({}) }
  function Mono(): ChannelSet { ChannelSet({Centre}) }
  function Stereo(): ChannelSet { ChannelSet({Left, Right}) }

  datatype BusesLayout = BusesLayout(inputBuses: seq<ChannelSet>, outputBuses: seq<ChannelSet>)

  /** The main bus of a direction is the first one; with no bus it is disabled. */
  function MainInput(l: BusesLayout): ChannelSet
  {
    if |l.inputBuses| > 0 then l.inputBuses[0] else Disabled()
  }

  function MainOutput(l: BusesLayout): ChannelSet
  {
    if |l.outputBuses| > 0 then l.outputBuses[0] else Disabled()
  }

  /** The processor runs as an effect (neither a MIDI effect nor a synth): it
      accepts a layout only when the main output is mono or stereo and the
      main input is the same set as the main output. */
  function IsBusesLayoutSupported(layouts: BusesLayout): (ok: bool)
    ensures ok <==> (MainOutput(layouts) == Mono() || MainOutput(layouts) == Stereo())
                    && MainInput(layouts) == MainOutput(layouts)
  {
    if MainOutput(layouts) != Mono() && MainOutput(layouts) != Stereo() then false
    else if MainOutput(layouts) != MainInput(layouts) then false
    else true
  }

  /** An accepted layout processes one or two channels, as many in as out. */
  lemma SupportedLayoutChannelCount(layouts: BusesLayout)
    requires IsBusesLayoutSupported(layouts)
    ensures |MainInput(layouts).channels| == |MainOutput(layouts).channels|
    ensures 1 <= |MainOutput(layouts).channels| <= 2
  {
    if MainOutput(layouts) == Stereo() {
      assert {Left, Right} == {Left} + {Right};
    }
  }

  /** The layout the processor declares for itself (stereo in, stereo out) is
      accepted, and a processor without an output bus is not. */
  lemma DeclaredLayoutSupported(extra: seq<ChannelSet>)
    ensures IsBusesLayoutSupported(BusesLayout([Stereo()], [Stereo()]))
    ensures !IsBusesLayoutSupported(BusesLayout(extra, []))
  {
  }

  // ---------------------------------------------------------------------------
  // The coefficient update

  /** The DSP library routines the update calls: the peak filter design
      (sample rate, frequency, quality, linear gain), the decibel conversion and
      the high-order Butterworth high-pass design (frequency, sample rate,
      order), which returns one coefficient set per second-order section. */
  datatype Library = Library(
    makePeakFilter: (real, real, real, real) -> Coeff,
    decibelsToGain: real -> real,
    designHighpass: (real, real, int) -> seq<Coeff>)

  /** The Butterworth order requested for a slope: two per 12 dB/Oct. */
  function CutOrder(slope: int): (order: int)
    ensures 0 <= slope < CutSlots ==> order in {2, 4, 6, 8} && order / 2 == ActiveCount(slope)
    ensures order % 2 == 0
  {
    (slope + 1) * 2
  }

  function PeakCoefficient(s: ChainSettings, sampleRate: real, lib: Library): Coeff
  {
    lib.makePeakFilter(sampleRate, s.peakFreq, s.peakQuality, lib.decibelsToGain(s.peakGainDecibels))
  }

  function LowCutSections(s: ChainSettings, sampleRate: real, lib: Library): seq<Coeff>
  {
    lib.designHighpass(s.lowCutFreq, sampleRate, CutOrder(s.lowCutSlope))
  }

  /** The design yields a section for every slot the slope switches on. */
  predicate Designable(s: ChainSettings, sampleRate: real, lib: Library)
  {
    ActiveCount(s.lowCutSlope) <= |LowCutSections(s, sampleRate, lib)|
  }

  /** A channel cascade after one update from a snapshot: the peak stage holds
      the designed peak, the low-cut group the designed sections for the
      low-cut slope; the high-cut group is left as it was. */
  function Refreshed(c: ChainState, s: ChainSettings, sampleRate: real, lib: Library): (r: ChainState)
    requires |c.lowCut| == CutSlots && Designable(s, sampleRate, lib)
    ensures |r.lowCut| == CutSlots
  {
    c.(peak := Slot(PeakCoefficient(s, sampleRate, lib), c.peak.bypassed),
       lowCut := CutUpdate(c.lowCut, LowCutSections(s, sampleRate, lib), s.lowCutSlope))
  }

  /** Updating twice from the same snapshot gives the state of updating once. */
  lemma RefreshIdempotent(c: ChainState, s: ChainSettings, sampleRate: real, lib: Library)
    requires |c.lowCut| == CutSlots && Designable(s, sampleRate, lib)
    ensures Refreshed(Refreshed(c, s, sampleRate, lib), s, sampleRate, lib) == Refreshed(c, s, sampleRate, lib)
  {
    CutUpdateIdempotent(c.lowCut, LowCutSections(s, sampleRate, lib), s.lowCutSlope);
  }

  /** The update reads neither high-cut parameter and never writes the
      high-cut group: it depends on the snapshot only through the peak and
      low-cut fields. */
  lemma RefreshIgnoresHighCut(c: ChainState, s: ChainSettings, freq: real, slope: int, sampleRate: real, lib: Library)
    requires |c.lowCut| == CutSlots && Designable(s, sampleRate, lib)
    ensures Refreshed(c, s, sampleRate, lib).highCut == c.highCut
    ensures Refreshed(c, s.(highCutFreq := freq, highCutSlope := slope), sampleRate, lib) == Refreshed(c, s, sampleRate, lib)
  {
  }

  /** Left and right are updated from one snapshot: whatever either held
      before, they end with the same peak coefficients, the same low-cut bypass
      pattern and the same coefficients in every switched-on low-cut slot. */
  lemma StereoSlotsAgree(l: ChainState, r: ChainState, s: ChainSettings, sampleRate: real, lib: Library)
    requires |l.lowCut| == CutSlots && |r.lowCut| == CutSlots && Designable(s, sampleRate, lib)
    ensures Refreshed(l, s, sampleRate, lib).peak.coeff == Refreshed(r, s, sampleRate, lib).peak.coeff
    ensures forall i :: 0 <= i < CutSlots ==>
      Refreshed(l, s, sampleRate, lib).lowCut[i].bypassed == Refreshed(r, s, sampleRate, lib).lowCut[i].bypassed
    ensures forall i :: 0 <= i < CutSlots && !Refreshed(l, s, sampleRate, lib).lowCut[i].bypassed ==>
      Refreshed(l, s, sampleRate, lib).lowCut[i].coeff == Refreshed(r, s, sampleRate, lib).lowCut[i].coeff
  {
    var sections := LowCutSections(s, sampleRate, lib);
    forall i | 0 <= i < CutSlots
      ensures Refreshed(l, s, sampleRate, lib).lowCut[i].bypassed == Refreshed(r, s, sampleRate, lib).lowCut[i].bypassed
      ensures !Refreshed(l, s, sampleRate, lib).lowCut[i].bypassed ==>
        Refreshed(l, s, sampleRate, lib).lowCut[i].coeff == Refreshed(r, s, sampleRate, lib).lowCut[i].coeff
    {
      CutUpdateAt(l.lowCut, sections, s.lowCutSlope, i);
      CutUpdateAt(r.lowCut, sections, s.lowCutSlope, i);
    }
  }

  /** So two channels whose high-cut groups and peak bypass flags agree have,
      after one update, the same magnitude response at every frequency. */
  lemma StereoCoherent(l: ChainState, r: ChainState, s: ChainSettings, sampleRate: real, lib: Library, p: Probe)
    requires |l.lowCut| == CutSlots && |r.lowCut| == CutSlots && Designable(s, sampleRate, lib)
    requires l.highCut == r.highCut && l.peak.bypassed == r.peak.bypassed
    ensures Refreshed(l, s, sampleRate, lib).peak == Refreshed(r, s, sampleRate, lib).peak
    ensures ChainMagnitude(Refreshed(l, s, sampleRate, lib), p) == ChainMagnitude(Refreshed(r, s, sampleRate, lib), p)
  {
    var L := Refreshed(l, s, sampleRate, lib);
    var R := Refreshed(r, s, sampleRate, lib);
    StereoSlotsAgree(l, r, s, sampleRate, lib);
    SameActiveSlots(L.lowCut, R.lowCut);
    ActiveCoeffsAppend([L.peak], L.lowCut);
    ActiveCoeffsAppend([L.peak] + L.lowCut, L.highCut);
    ActiveCoeffsAppend([R.peak], R.lowCut);
    ActiveCoeffsAppend([R.peak] + R.lowCut, R.highCut);
    SameActiveStagesSameMagnitude(L, R, p);
  }

  /** The processor: one cascade per channel of the stereo pair. */
  class EqProcessor {
    const leftChain: FilterChain
    const rightChain: FilterChain
    var sampleRate: real
    var maximumBlockSize: int

    ghost predicate Valid()
    {
      leftChain.Valid() && rightChain.Valid() && leftChain.Repr() !! rightChain.Repr()
    }

    ghost function Repr(): set<object>
    {
      {this} + leftChain.Repr() + rightChain.Repr()
    }

    /** Both cascades start from the same initial coefficients, nothing
        bypassed, before any sample rate is known. */
    constructor (initial: Coeff)
      ensures Valid() && fresh(leftChain.Repr()) && fresh(rightChain.Repr())
      ensures leftChain.State() == rightChain.State()
    {
      leftChain := new FilterChain(initial);
      rightChain := new FilterChain(initial);
      sampleRate := 0.0;
      maximumBlockSize := 0;
      new;
      assert leftChain.State().lowCut == rightChain.State().lowCut;
      assert leftChain.State().highCut == rightChain.State().highCut;
    }

    /** Installs the coefficients derived from one snapshot into both
        channels: the peak coefficients on both, then the designed low-cut
        sections into the left low-cut group and into the right one. */
    method UpdateFromSettings(s: ChainSettings, lib: Library)
      requires Valid() && Designable(s, sampleRate, lib)
      modifies leftChain, leftChain.lowCut.coeffs, leftChain.lowCut.bypassed
      modifies rightChain, rightChain.lowCut.coeffs, rightChain.lowCut.bypassed
      ensures Valid()
      ensures leftChain.State() == Refreshed(old(leftChain.State()), s, sampleRate, lib)
      ensures rightChain.State() == Refreshed(old(rightChain.State()), s, sampleRate, lib)
      ensures leftChain.peak == rightChain.peak == PeakCoefficient(s, sampleRate, lib)
    {
      var peakCoefficient := PeakCoefficient(s, sampleRate, lib);
      leftChain.peak := peakCoefficient;
      rightChain.peak := peakCoefficient;
      var cutCoefficient := lib.designHighpass(s.lowCutFreq, sampleRate, CutOrder(s.lowCutSlope));
      leftChain.lowCut.Update(cutCoefficient, s.lowCutSlope);
      rightChain.lowCut.Update(cutCoefficient, s.lowCutSlope);
    }

    /** Before playback: records the sample rate and block size, then updates
        both cascades from the current snapshot. */
    method PrepareToPlay(newSampleRate: real, samplesPerBlock: int, store: Store, lib: Library)
      requires Valid() && HasAllParameters(store)
      requires Designable(GetChainSettings(store), newSampleRate, lib)
      modifies this, leftChain, leftChain.lowCut.coeffs, leftChain.lowCut.bypassed
      modifies rightChain, rightChain.lowCut.coeffs, rightChain.lowCut.bypassed
      ensures Valid() && sampleRate == newSampleRate && maximumBlockSize == samplesPerBlock
      ensures leftChain.State() == Refreshed(old(leftChain.State()), GetChainSettings(store), newSampleRate, lib)
      ensures rightChain.State() == Refreshed(old(rightChain.State()), GetChainSettings(store), newSampleRate, lib)
    {
      sampleRate := newSampleRate;
      maximumBlockSize := samplesPerBlock;
      var chainSettings := GetChainSettings(store);
      UpdateFromSettings(chainSettings, lib);
    }

    /** At the start of every audio block: updates both cascades from the
        current snapshot at the prepared sample rate (the samples themselves
        then run through the cascades, which is not modelled). */
    method ProcessBlock(store: Store, lib: Library)
      requires Valid() && HasAllParameters(store)
      requires Designable(GetChainSettings(store), sampleRate, lib)
      modifies leftChain, leftChain.lowCut.coeffs, leftChain.lowCut.bypassed
      modifies rightChain, rightChain.lowCut.coeffs, rightChain.lowCut.bypassed
      ensures Valid()
      ensures leftChain.State() == Refreshed(old(leftChain.State()), GetChainSettings(store), sampleRate, lib)
      ensures rightChain.State() == Refreshed(old(rightChain.State()), GetChainSettings(store), sampleRate, lib)
    {
      var chainSettings := GetChainSettings(store);
      UpdateFromSettings(chainSettings, lib);
    }
  }
}
