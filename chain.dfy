/** The filter cascade of one audio channel: a low-cut group of four biquad
    sections, one peak section and a high-cut group of four sections, each
    stage holding a coefficient set and a bypass flag. */
module Chain {

  /** One biquad's coefficient set, as the DSP library stores it (its array of
      numbers). The model copies these values around and never looks inside. */
  datatype Coeff = Coeff(coefficients: seq<real>)

  /** The abstract view of one stage: the coefficients it holds and whether it
      is bypassed. */
  datatype Slot = Slot(coeff: Coeff, bypassed: bool)

  /** Every cut group has room for the sections of an 8th-order design. */
  const CutSlots := 4

  /** How many sections of a cut group the slope switch turns on: one per
      12 dB/Oct for the four known slopes, none for any other value, because
      the switch over the slope has no default case. */
  function ActiveCount(slope: int): (n: nat)
    ensures n <= CutSlots
    ensures n > 0 <==> 0 <= slope < CutSlots
    ensures 0 <= slope < CutSlots ==> n == slope + 1
  {
    if 0 <= slope < CutSlots then slope + 1 else 0
  }

  // ---------------------------------------------------------------------------
  // Specification of the cut-group update

  /** The first half of the update: every slot is marked bypassed and keeps
      its coefficients. */
  function BypassAll(slots: seq<Slot>): (r: seq<Slot>)
    ensures |r| == |slots|
  {
    seq(|slots|, i requires 0 <= i < |slots| => Slot(slots[i].coeff, true))
  }

  /** The section writes of the slope switch, in the order the source performs
      them: for i = 0, 1, ..., n - 1, section i is copied into slot i and slot
      i is switched back on. */
  function Activate(slots: seq<Slot>, sections: seq<Coeff>, n: nat): (r: seq<Slot>)
    requires n <= |slots| && n <= |sections|
    ensures |r| == |slots|
    decreases n
  {
    if n == 0 then slots
    else Activate(slots, sections, n - 1)[n - 1 := Slot(sections[n - 1], false)]
  }

  /** A cut group after it has been given the designed sections for a slope. */
  function CutUpdate(slots: seq<Slot>, sections: seq<Coeff>, slope: int): (r: seq<Slot>)
    requires |slots| == CutSlots && ActiveCount(slope) <= |sections|
    ensures |r| == CutSlots
  {
    Activate(BypassAll(slots), sections, ActiveCount(slope))
  }

  lemma {:induction false} ActivateAt(slots: seq<Slot>, sections: seq<Coeff>, n: nat, i: int)
    requires n <= |slots| && n <= |sections| && 0 <= i < |slots|
    ensures Activate(slots, sections, n)[i] == if i < n then Slot(sections[i], false) else slots[i]
    decreases n
  {
    if n > 0 {
      ActivateAt(slots, sections, n - 1, i);
    }
  }

  /** Slot by slot: the first ActiveCount(slope) slots hold their designed
      section and are on; every other slot is bypassed with its old
      coefficients. */
  lemma CutUpdateAt(slots: seq<Slot>, sections: seq<Coeff>, slope: int, i: int)
    requires |slots| == CutSlots && ActiveCount(slope) <= |sections| && 0 <= i < CutSlots
    ensures CutUpdate(slots, sections, slope)[i] ==
      if i < ActiveCount(slope) then Slot(sections[i], false) else Slot(slots[i].coeff, true)
  {
    ActivateAt(BypassAll(slots), sections, ActiveCount(slope), i);
  }

  /** For a known slope k, exactly slots 0..k are on and slots k+1..3 bypassed. */
  lemma BypassPattern(slots: seq<Slot>, sections: seq<Coeff>, slope: int, i: int)
    requires |slots| == CutSlots && 0 <= slope < CutSlots && slope < |sections|
    requires 0 <= i < CutSlots
    ensures CutUpdate(slots, sections, slope)[i].bypassed <==> i > slope
  {
    CutUpdateAt(slots, sections, slope, i);
  }

  /** Every slot the update switches on holds exactly its designed section. */
  lemma ActiveSlotsHoldSections(slots: seq<Slot>, sections: seq<Coeff>, slope: int, i: int)
    requires |slots| == CutSlots && ActiveCount(slope) <= |sections|
    requires 0 <= i < CutSlots && !CutUpdate(slots, sections, slope)[i].bypassed
    ensures i <= slope && CutUpdate(slots, sections, slope)[i].coeff == sections[i]
  {
    CutUpdateAt(slots, sections, slope, i);
  }

  /** Bypassed slots are never written: they keep their previous coefficients. */
  lemma BypassedSlotsKeepCoefficients(slots: seq<Slot>, sections: seq<Coeff>, slope: int, i: int)
    requires |slots| == CutSlots && ActiveCount(slope) <= |sections|
    requires 0 <= i < CutSlots && CutUpdate(slots, sections, slope)[i].bypassed
    ensures CutUpdate(slots, sections, slope)[i].coeff == slots[i].coeff
  {
    CutUpdateAt(slots, sections, slope, i);
  }

  /** A slope that matches none of the four cases leaves every slot bypassed
      with its old coefficients. */
  lemma UnknownSlopeBypassesAll(slots: seq<Slot>, sections: seq<Coeff>, slope: int)
    requires |slots| == CutSlots && !(0 <= slope < CutSlots)
    ensures forall i :: 0 <= i < CutSlots ==>
      CutUpdate(slots, sections, slope)[i] == Slot(slots[i].coeff, true)
  {
    forall i | 0 <= i < CutSlots
      ensures CutUpdate(slots, sections, slope)[i] == Slot(slots[i].coeff, true)
    {
      CutUpdateAt(slots, sections, slope, i);
    }
  }

  /** Giving a group the same design twice leaves it as giving it once. */
  lemma CutUpdateIdempotent(slots: seq<Slot>, sections: seq<Coeff>, slope: int)
    requires |slots| == CutSlots && ActiveCount(slope) <= |sections|
    ensures CutUpdate(CutUpdate(slots, sections, slope), sections, slope) == CutUpdate(slots, sections, slope)
  {
    var once := CutUpdate(slots, sections, slope);
    forall i | 0 <= i < CutSlots
      ensures CutUpdate(once, sections, slope)[i] == once[i]
    {
      CutUpdateAt(slots, sections, slope, i);
      CutUpdateAt(once, sections, slope, i);
    }
  }

  /** The number of stages of a group that are not bypassed. */
  function CountActive(slots: seq<Slot>): (n: nat)
    ensures n <= |slots|
  {
    if slots == [] then 0 else (if slots[0].bypassed then 0 else 1) + CountActive(slots[1..])
  }

  lemma {:induction false} CountPrefixPattern(slots: seq<Slot>, n: nat)
    requires n <= |slots|
    requires forall i :: 0 <= i < |slots| ==> (slots[i].bypassed <==> i >= n)
    ensures CountActive(slots) == n
    decreases |slots|
  {
    if slots != [] {
      var rest := slots[1..];
      if n == 0 {
        assert slots[0].bypassed;
        CountPrefixPattern(rest, 0);
      } else {
        assert !slots[0].bypassed;
        forall i | 0 <= i < |rest| ensures rest[i].bypassed <==> i >= n - 1 {
          assert rest[i] == slots[i + 1];
        }
        CountPrefixPattern(rest, n - 1);
      }
    }
  }

  /** Exactly slope + 1 of the four sections are on after the update (and none
      for an unknown slope). */
  lemma ActiveSlotCount(slots: seq<Slot>, sections: seq<Coeff>, slope: int)
    requires |slots| == CutSlots && ActiveCount(slope) <= |sections|
    ensures CountActive(CutUpdate(slots, sections, slope)) == ActiveCount(slope)
  {
    var r := CutUpdate(slots, sections, slope);
    forall i | 0 <= i < |r| ensures r[i].bypassed <==> i >= ActiveCount(slope) {
      CutUpdateAt(slots, sections, slope, i);
    }
    CountPrefixPattern(r, ActiveCount(slope));
  }

  // ---------------------------------------------------------------------------
  // Specification of the magnitude response

  /** The state of a whole channel cascade. */
  datatype ChainState = ChainState(lowCut: seq<Slot>, peak: Slot, highCut: seq<Slot>)

  /** The stages in the order the response loop multiplies their magnitudes:
      peak first, then the low-cut sections, then the high-cut sections. (The
      audio itself runs through low-cut, then peak, then high-cut.) */
  function Stages(c: ChainState): seq<Slot>
  {
    [c.peak] + c.lowCut + c.highCut
  }

  /** The library's magnitude of one stage at one frequency and sample rate,
      with the frequency and sample rate being probed. */
  datatype Probe = Probe(stageMagnitude: (Coeff, real, real) -> real, freq: real, sampleRate: real)
  {
    function Of(c: Coeff): real
    {
      stageMagnitude(c, freq, sampleRate)
    }
  }

  /** One step of the response loop: a stage that is not bypassed multiplies
      the running magnitude by its own magnitude; a bypassed one leaves it. */
  function PassStage(mag: real, s: Slot, p: Probe): real
  {
    if s.bypassed then mag else mag * p.Of(s.coeff)
  }

  /** The running product of the response loop over a list of stages. */
  function Accumulate(mag: real, stages: seq<Slot>, p: Probe): real
    decreases |stages|
  {
    if stages == [] then mag else Accumulate(PassStage(mag, stages[0], p), stages[1..], p)
  }

  /** The magnitude of a cascade at the probed frequency. */
  function ChainMagnitude(c: ChainState, p: Probe): real
  {
    Accumulate(1.0, Stages(c), p)
  }

  /** The coefficient sets of the stages that are not bypassed, in order. */
  function ActiveCoeffs(stages: seq<Slot>): (r: seq<Coeff>)
    ensures |r| <= |stages|
  {
    if stages == [] then []
    else (if stages[0].bypassed then [] else [stages[0].coeff]) + ActiveCoeffs(stages[1..])
  }

  lemma {:induction false} ActiveCoeffsAppend(a: seq<Slot>, b: seq<Slot>)
    ensures ActiveCoeffs(a + b) == ActiveCoeffs(a) + ActiveCoeffs(b)
    decreases |a|
  {
    if a != [] {
      assert (a + b)[0] == a[0] && (a + b)[1..] == a[1..] + b;
      ActiveCoeffsAppend(a[1..], b);
    } else {
      assert a + b == b;
    }
  }

  /** Two groups with the same bypass flags whose switched-on slots hold the
      same coefficients contribute the same stages to the response. */
  lemma {:induction false} SameActiveSlots(a: seq<Slot>, b: seq<Slot>)
    requires |a| == |b|
    requires forall i :: 0 <= i < |a| ==> a[i].bypassed == b[i].bypassed
    requires forall i :: 0 <= i < |a| && !a[i].bypassed ==> a[i].coeff == b[i].coeff
    ensures ActiveCoeffs(a) == ActiveCoeffs(b)
    decreases |a|
  {
    if a != [] {
      SameActiveSlots(a[1..], b[1..]);
    }
  }

  /** The product of the stage magnitudes of a list of coefficient sets. */
  function ProductOver(cs: seq<Coeff>, p: Probe): real
  {
    if cs == [] then 1.0 else p.Of(cs[0]) * ProductOver(cs[1..], p)
  }

  lemma {:induction false} ProductOverAppend(a: seq<Coeff>, b: seq<Coeff>, p: Probe)
    ensures ProductOver(a + b, p) == ProductOver(a, p) * ProductOver(b, p)
    decreases |a|
  {
    if a != [] {
      assert (a + b)[1..] == a[1..] + b;
      ProductOverAppend(a[1..], b, p);
    } else {
      assert a + b == b;
    }
  }

  lemma {:induction false} AccumulateIsProduct(mag: real, stages: seq<Slot>, p: Probe)
    ensures Accumulate(mag, stages, p) == mag * ProductOver(ActiveCoeffs(stages), p)
    decreases |stages|
  {
    if stages != [] {
      var s := stages[0];
      var tail := ActiveCoeffs(stages[1..]);
      AccumulateIsProduct(PassStage(mag, s, p), stages[1..], p);
      if !s.bypassed {
        assert ActiveCoeffs(stages) == [s.coeff] + tail;
        assert ([s.coeff] + tail)[1..] == tail;
        calc {
          Accumulate(mag, stages, p);
          (mag * p.Of(s.coeff)) * ProductOver(tail, p);
          mag * (p.Of(s.coeff) * ProductOver(tail, p));
          mag * ProductOver(ActiveCoeffs(stages), p);
        }
      } else {
        assert PassStage(mag, s, p) == mag;
        assert ActiveCoeffs(stages) == tail;
      }
    }
  }

  lemma {:induction false} AccumulateAppend(mag: real, a: seq<Slot>, b: seq<Slot>, p: Probe)
    ensures Accumulate(mag, a + b, p) == Accumulate(Accumulate(mag, a, p), b, p)
    decreases |a|
  {
    if a != [] {
      assert (a + b)[0] == a[0] && (a + b)[1..] == a[1..] + b;
      AccumulateAppend(PassStage(mag, a[0], p), a[1..], b, p);
    } else {
      assert a + b == b;
    }
  }

  /** The magnitude of a cascade is the product of the magnitudes of exactly
      its non-bypassed stages. */
  lemma MagnitudeOfActiveStages(c: ChainState, p: Probe)
    ensures ChainMagnitude(c, p) == ProductOver(ActiveCoeffs(Stages(c)), p)
  {
    AccumulateIsProduct(1.0, Stages(c), p);
  }

  lemma {:induction false} NoActiveCoeffs(stages: seq<Slot>)
    requires forall i :: 0 <= i < |stages| ==> stages[i].bypassed
    ensures ActiveCoeffs(stages) == []
    decreases |stages|
  {
    if stages != [] {
      NoActiveCoeffs(stages[1..]);
    }
  }

  /** With every stage bypassed the cascade's magnitude is exactly 1. */
  lemma AllBypassedIsUnity(c: ChainState, p: Probe)
    requires forall i :: 0 <= i < |Stages(c)| ==> Stages(c)[i].bypassed
    ensures ChainMagnitude(c, p) == 1.0
  {
    NoActiveCoeffs(Stages(c));
    MagnitudeOfActiveStages(c, p);
  }

  /** Two cascades whose non-bypassed stages agree have the same response,
      whatever their bypassed stages hold. */
  lemma SameActiveStagesSameMagnitude(c: ChainState, d: ChainState, p: Probe)
    requires ActiveCoeffs(Stages(c)) == ActiveCoeffs(Stages(d))
    ensures ChainMagnitude(c, p) == ChainMagnitude(d, p)
  {
    MagnitudeOfActiveStages(c, p);
    MagnitudeOfActiveStages(d, p);
  }

  // ---------------------------------------------------------------------------
  // The mutable cascade

  /** A cut group: four coefficient slots and their bypass flags, updated in
      place. */
  class CutGroup {
    const coeffs: array<Coeff>
    const bypassed: array<bool>

    predicate Valid()
    {
      coeffs.Length == CutSlots && bypassed.Length == CutSlots
    }

    /** A freshly constructed group: every section holds the initial
        coefficients and none is bypassed. */
    constructor (initial: Coeff)
      ensures Valid() && fresh(coeffs) && fresh(bypassed)
      ensures forall i :: 0 <= i < CutSlots ==> Slots()[i] == Slot(initial, false)
    {
      coeffs := new Coeff[CutSlots](_ => initial);
      bypassed := new bool[CutSlots](_ => false);
    }

    function Slots(): (s: seq<Slot>)
      requires Valid()
      reads coeffs, bypassed
      ensures |s| == CutSlots
      ensures forall i :: 0 <= i < CutSlots ==> s[i] == Slot(coeffs[i], bypassed[i])
    {
      [Slot(coeffs[0], bypassed[0]), Slot(coeffs[1], bypassed[1]),
       Slot(coeffs[2], bypassed[2]), Slot(coeffs[3], bypassed[3])]
    }

    /** Installs the designed sections for a slope: all four slots are
        bypassed, then, for the slope's case, sections 0..slope are copied into
        slots 0..slope and those slots are switched back on. */
    method Update(sections: seq<Coeff>, slope: int)
      requires Valid() && ActiveCount(slope) <= |sections|
      modifies coeffs, bypassed
      ensures Slots() == CutUpdate(old(Slots()), sections, slope)
    {
      ghost var before := Slots();
      bypassed[0] := true;
      bypassed[1] := true;
      bypassed[2] := true;
      bypassed[3] := true;
      if slope == 0 {
        coeffs[0] := sections[0];
        bypassed[0] := false;
      } else if slope == 1 {
        coeffs[0] := sections[0];
        bypassed[0] := false;
        coeffs[1] := sections[1];
        bypassed[1] := false;
      } else if slope == 2 {
        coeffs[0] := sections[0];
        bypassed[0] := false;
        coeffs[1] := sections[1];
        bypassed[1] := false;
        coeffs[2] := sections[2];
        bypassed[2] := false;
      } else if slope == 3 {
        coeffs[0] := sections[0];
        bypassed[0] := false;
        coeffs[1] := sections[1];
        bypassed[1] := false;
        coeffs[2] := sections[2];
        bypassed[2] := false;
        coeffs[3] := sections[3];
        bypassed[3] := false;
      }
      forall i | 0 <= i < CutSlots
        ensures Slots()[i] == CutUpdate(before, sections, slope)[i]
      {
        CutUpdateAt(before, sections, slope, i);
      }
    }

    /** Overwrites the group with the given slots, slot by slot. */
    method Assign(slots: seq<Slot>)
      requires Valid() && |slots| == CutSlots
      modifies coeffs, bypassed
      ensures Slots() == slots
    {
      var i := 0;
      while i < CutSlots
        invariant 0 <= i <= CutSlots
        invariant forall j :: 0 <= j < i ==> coeffs[j] == slots[j].coeff && bypassed[j] == slots[j].bypassed
      {
        coeffs[i] := slots[i].coeff;
        bypassed[i] := slots[i].bypassed;
        i := i + 1;
      }
    }

    /** Multiplies mag by the magnitude of each section that is not bypassed,
        slot 0 first. */
    method Attenuate(mag: real, p: Probe) returns (r: real)
      requires Valid()
      ensures r == Accumulate(mag, Slots(), p)
    {
      ghost var s := Slots();
      r := mag;
      if !bypassed[0] { r := r * p.Of(coeffs[0]); }
      assert r == PassStage(mag, s[0], p);
      assert Accumulate(mag, s, p) == Accumulate(r, s[1..], p);
      ghost var r1 := r;
      if !bypassed[1] { r := r * p.Of(coeffs[1]); }
      assert r == PassStage(r1, s[1..][0], p);
      assert s[1..][1..] == s[2..];
      assert Accumulate(mag, s, p) == Accumulate(r, s[2..], p);
      ghost var r2 := r;
      if !bypassed[2] { r := r * p.Of(coeffs[2]); }
      assert r == PassStage(r2, s[2..][0], p);
      assert s[2..][1..] == s[3..];
      assert Accumulate(mag, s, p) == Accumulate(r, s[3..], p);
      ghost var r3 := r;
      if !bypassed[3] { r := r * p.Of(coeffs[3]); }
      assert r == PassStage(r3, s[3..][0], p);
      assert Accumulate(mag, s, p) == Accumulate(r, s[3..][1..], p);
      assert s[3..][1..] == [];
    }
  }

  /** One channel's cascade: low-cut group, peak section, high-cut group. */
  class FilterChain {
    const lowCut: CutGroup
    var peak: Coeff
    var peakBypassed: bool
    const highCut: CutGroup

    predicate Valid()
    {
      lowCut.Valid() && highCut.Valid() &&
      lowCut.coeffs != highCut.coeffs && lowCut.bypassed != highCut.bypassed
    }

    /** The objects the cascade's state lives in. */
    ghost function Repr(): set<object>
    {
      {this, lowCut.coeffs, lowCut.bypassed, highCut.coeffs, highCut.bypassed}
    }

    /** A freshly constructed cascade: every stage holds the initial
        coefficients and none is bypassed. */
    constructor (initial: Coeff)
      ensures Valid() && fresh(Repr())
      ensures State().peak == Slot(initial, false)
      ensures forall i :: 0 <= i < CutSlots ==>
        State().lowCut[i] == Slot(initial, false) && State().highCut[i] == Slot(initial, false)
    {
      lowCut := new CutGroup(initial);
      peak := initial;
      peakBypassed := false;
      highCut := new CutGroup(initial);
    }

    function State(): (s: ChainState)
      requires Valid()
      reads this, lowCut.coeffs, lowCut.bypassed, highCut.coeffs, highCut.bypassed
      ensures |s.lowCut| == CutSlots && |s.highCut| == CutSlots
    {
      ChainState(lowCut.Slots(), Slot(peak, peakBypassed), highCut.Slots())
    }

    /** The cascade's magnitude at the probed frequency, as the response loop
        computes it for one pixel column. */
    method MagnitudeAt(p: Probe) returns (mag: real)
      requires Valid()
      ensures mag == ChainMagnitude(State(), p)
    {
      mag := 1.0;
      if !peakBypassed {
        mag := mag * p.Of(peak);
      }
      assert mag == Accumulate(1.0, [State().peak], p);
      mag := lowCut.Attenuate(mag, p);
      mag := highCut.Attenuate(mag, p);
      AccumulateAppend(1.0, [State().peak], State().lowCut, p);
      AccumulateAppend(1.0, [State().peak] + State().lowCut, State().highCut, p);
    }
  }
}
