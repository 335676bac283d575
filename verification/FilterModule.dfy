/** The cut-filter control logic of the filter stage: the slope ordinals, the
    per-block settings record with its defaults, the Butterworth order requested
    for a slope, and the four-section bypass/coefficient update of a cut filter.
    The Butterworth synthesis itself is a parameter (`ButterworthDesigner`). */
module FilterModule {

  /** Ordinals of the `FilterSlope` enumeration (12, 24, 36 and 48 dB per octave). */
  const Slope_12: int := 0
  const Slope_24: int := 1
  const Slope_36: int := 2
  const Slope_48: int := 3

  /** Number of second-order sections chained in one cut filter. */
  const SectionCount: nat := 4

  /** One normalised biquad (a0 = 1). The model never looks inside. */
  datatype Coefficients = Coefficients(b0: real, b1: real, b2: real, a1: real, a2: real)

  /** The identity section, as a freshly constructed IIR filter holds it. */
  const IdentityCoefficients := Coefficients(1.0, 0.0, 0.0, 0.0, 0.0)

  datatype FilterChainSettings = FilterChainSettings(
    peakFreq: real, peakGainInDecibels: real, peakQuality: real,
    lowCutFreq: real, highCutFreq: real,
    lowCutSlope: int, highCutSlope: int,
    bypassed: bool, analyzerBypassed: bool)

  /** The member initialisers of the settings record. */
  const DefaultFilterChainSettings :=
    FilterChainSettings(0.0, 0.0, 1.0, 0.0, 0.0, Slope_12, Slope_12, false, false)

  /** A slot of the cut filter: the chain's bypass flag for it and the filter's coefficients. */
  datatype Section = Section(bypassed: bool, coefficients: Coefficients)

  /** How many sections a slope switches on: slope + 1 for an enumerator, none otherwise. */
  function ActiveSections(slope: int): (k: nat)
    ensures k <= SectionCount
    ensures Slope_12 <= slope <= Slope_48 ==> k == slope + 1
    ensures !(Slope_12 <= slope <= Slope_48) ==> k == 0
  {
    if Slope_12 <= slope <= Slope_48 then slope + 1 else 0
  }

  /** A designed cascade holds a section for every index the update copies. */
  predicate CoversSlope(cutCoefficients: seq<Coefficients>, slope: int) {
    ActiveSections(slope) <= |cutCoefficients|
  }

  /** Number of sections that are not bypassed. */
  function ActiveCount(sections: seq<Section>): (n: nat)
    ensures n <= |sections|
  {
    if sections == [] then 0
    else ActiveCount(sections[..|sections| - 1]) + (if sections[|sections| - 1].bypassed then 0 else 1)
  }

  /** When exactly the first `m` sections are active, `m` sections are active. */
  lemma {:induction false} ActiveCountOfPrefix(sections: seq<Section>, m: nat)
    requires m <= |sections|
    requires forall k :: 0 <= k < |sections| ==> (sections[k].bypassed <==> m <= k)
    ensures ActiveCount(sections) == m
  {
    if sections != [] {
      var init := sections[..|sections| - 1];
      if m == |sections| {
        ActiveCountOfPrefix(init, m - 1);
      } else {
        ActiveCountOfPrefix(init, m);
      }
    }
  }

  /** `after` holds the first `m` designed sections, active, and otherwise the
      sections of `bypassedAll` (all bypassed) as they were. */
  ghost predicate Installed(after: seq<Section>, bypassedAll: seq<Section>, cut: seq<Coefficients>, m: nat)
  {
    |after| == |bypassedAll| && m <= |after| && m <= |cut| &&
    forall k :: 0 <= k < |after| ==>
      after[k] == if k < m then Section(false, cut[k]) else bypassedAll[k]
  }

  /** The band-limiting Butterworth designs the filter stage calls: each takes a
      cut-off frequency, a sample rate and an order and returns the cascade. */
  datatype ButterworthDesigner = ButterworthDesigner(
    highpass: (real, real, int) -> seq<Coefficients>,
    lowpass: (real, real, int) -> seq<Coefficients>)
  {
    /** An even order `2m` is realised by `m` second-order sections. */
    ghost predicate Valid() {
      (forall freq, sampleRate, order :: 0 < order && order % 2 == 0 ==>
         |highpass(freq, sampleRate, order)| == order / 2) &&
      (forall freq, sampleRate, order :: 0 < order && order % 2 == 0 ==>
         |lowpass(freq, sampleRate, order)| == order / 2)
    }
  }

  /** The Butterworth order requested for a slope ordinal. */
  function CutOrder(slope: int): (order: int)
    ensures order % 2 == 0
    ensures Slope_12 <= slope <= Slope_48 ==> 2 <= order <= 8 && order / 2 == ActiveSections(slope)
  {
    2 * (slope + 1)
  }

  /** Low cut: the highpass design at `lowCutFreq`, of the order the low-cut slope asks for. */
  function MakeLowCutFilter(settings: FilterChainSettings, sampleRate: real, designer: ButterworthDesigner)
    : (cut: seq<Coefficients>)
    requires designer.Valid()
    ensures cut == designer.highpass(settings.lowCutFreq, sampleRate, CutOrder(settings.lowCutSlope))
    ensures Slope_12 <= settings.lowCutSlope <= Slope_48 ==> |cut| == settings.lowCutSlope + 1
    ensures CoversSlope(cut, settings.lowCutSlope)
  {
    designer.highpass(settings.lowCutFreq, sampleRate, 2 * (settings.lowCutSlope + 1))
  }

  /** High cut: the lowpass design at `highCutFreq`, of the order the high-cut slope asks for. */
  function MakeHighCutFilter(settings: FilterChainSettings, sampleRate: real, designer: ButterworthDesigner)
    : (cut: seq<Coefficients>)
    requires designer.Valid()
    ensures cut == designer.lowpass(settings.highCutFreq, sampleRate, CutOrder(settings.highCutSlope))
    ensures Slope_12 <= settings.highCutSlope <= Slope_48 ==> |cut| == settings.highCutSlope + 1
    ensures CoversSlope(cut, settings.highCutSlope)
  {
    designer.lowpass(settings.highCutFreq, sampleRate, 2 * (settings.highCutSlope + 1))
  }

  /** With the default settings each cut filter is designed as a single section,
      and that section is all the update needs. */
  lemma DefaultSettingsDesignOneSection(sampleRate: real, designer: ButterworthDesigner)
    requires designer.Valid()
    ensures ActiveSections(DefaultFilterChainSettings.lowCutSlope) == 1
    ensures ActiveSections(DefaultFilterChainSettings.highCutSlope) == 1
    ensures |MakeLowCutFilter(DefaultFilterChainSettings, sampleRate, designer)| == 1
    ensures |MakeHighCutFilter(DefaultFilterChainSettings, sampleRate, designer)| == 1
    ensures DefaultFilterChainSettings.peakQuality == 1.0
    ensures !DefaultFilterChainSettings.bypassed && !DefaultFilterChainSettings.analyzerBypassed
  {
  }

  /** A cascade of four IIR sections, each with its own bypass flag. */
  class CutFilter {
    var sections: array<Section>

    ghost predicate Valid()
      reads this
    {
      sections.Length == SectionCount
    }

    /** A new chain: no section bypassed, every section the identity. */
    constructor ()
      ensures Valid() && fresh(sections)
      ensures forall k :: 0 <= k < SectionCount ==> sections[k] == Section(false, IdentityCoefficients)
    {
      sections := new Section[SectionCount](_ => Section(false, IdentityCoefficients));
    }

    /** `setBypassed<k>(b)`: only the bypass flag of section `k` changes. */
    method SetBypassed(k: nat, b: bool)
      requires Valid() && k < SectionCount
      modifies sections
      ensures sections[k] == old(sections[k]).(bypassed := b)
      ensures forall j :: 0 <= j < SectionCount && j != k ==> sections[j] == old(sections[j])
    {
      sections[k] := sections[k].(bypassed := b);
    }

    /** `*get<k>().coefficients = c`: only the coefficients of section `k` change. */
    method SetCoefficients(k: nat, c: Coefficients)
      requires Valid() && k < SectionCount
      modifies sections
      ensures sections[k] == old(sections[k]).(coefficients := c)
      ensures forall j :: 0 <= j < SectionCount && j != k ==> sections[j] == old(sections[j])
    {
      sections[k] := sections[k].(coefficients := c);
    }

    /** Install `c` in section `k` and stop bypassing it. */
    method ActivateSection(k: nat, c: Coefficients)
      requires Valid() && k < SectionCount
      modifies sections
      ensures sections[k] == Section(false, c)
      ensures forall j :: 0 <= j < SectionCount && j != k ==> sections[j] == old(sections[j])
    {
      SetCoefficients(k, c);
      SetBypassed(k, false);
    }

    /** Bypass all four sections, then install the designed sections 0..slope and
        un-bypass exactly those. A slope outside the enumeration installs nothing. */
    method UpdateCutFilter(cutCoefficients: seq<Coefficients>, slope: int)
      requires Valid() && CoversSlope(cutCoefficients, slope)
      modifies sections
      ensures forall k :: 0 <= k < SectionCount ==>
        (sections[k].bypassed <==> ActiveSections(slope) <= k)
      ensures forall k :: 0 <= k < SectionCount ==>
        sections[k].coefficients ==
          if k < ActiveSections(slope) then cutCoefficients[k] else old(sections[k].coefficients)
      ensures ActiveCount(sections[..]) == ActiveSections(slope)
    {
      SetBypassed(0, true);
      SetBypassed(1, true);
      SetBypassed(2, true);
      SetBypassed(3, true);
      ghost var bypassedAll := sections[..];
      assert forall k :: 0 <= k < SectionCount ==> bypassedAll[k] == old(sections[k]).(bypassed := true);
      if slope == Slope_12 {
        ActivateSection(0, cutCoefficients[0]);
        assert Installed(sections[..], bypassedAll, cutCoefficients, 1);
      } else if slope == Slope_24 {
        ActivateSection(0, cutCoefficients[0]);
        ActivateSection(1, cutCoefficients[1]);
        assert Installed(sections[..], bypassedAll, cutCoefficients, 2);
      } else if slope == Slope_36 {
        ActivateSection(0, cutCoefficients[0]);
        ActivateSection(1, cutCoefficients[1]);
        ActivateSection(2, cutCoefficients[2]);
        assert Installed(sections[..], bypassedAll, cutCoefficients, 3);
      } else if slope == Slope_48 {
        ActivateSection(0, cutCoefficients[0]);
        ActivateSection(1, cutCoefficients[1]);
        ActivateSection(2, cutCoefficients[2]);
        ActivateSection(3, cutCoefficients[3]);
        assert Installed(sections[..], bypassedAll, cutCoefficients, 4);
      } else {
        assert Installed(sections[..], bypassedAll, cutCoefficients, 0);
      }
      assert Installed(sections[..], bypassedAll, cutCoefficients, ActiveSections(slope));
      ActiveCountOfPrefix(sections[..], ActiveSections(slope));
    }
  }
}
