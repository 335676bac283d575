/** The waveshaper stage's DSP: per-block refresh of the smoother targets from the
    parameter store, the defensive sizing of the wet scratch buffer, and the
    in-place block algorithm (drive, tanh + sine shaping, dry/wet mix, hard clip). */
module WaveshaperModule {
  import opened WaveshaperParameters
  import opened AudioBuffer

  /** The library maths the stage calls, left uninterpreted. */
  datatype Transcendentals = Transcendentals(tanh: real -> real, sin: real -> real, decibelsToGain: real -> real) {
    /** `tanh` and `sin` stay within [-1, 1], as the real functions do. */
    ghost predicate Bounded() {
      (forall y :: -1.0 <= tanh(y) <= 1.0) && (forall y :: -1.0 <= sin(y) <= 1.0)
    }
  }

  /** One value for each of the stage's seven smoothers. */
  datatype PerSmoother<T> = PerSmoother(drive: T, dry: T, wet: T, tanhAmp: T, tanhSlope: T, sineAmp: T, sineFreq: T)

  /** A smoothed parameter: the target it ramps to and how many values it has produced.
      The ramp itself is not modelled; the values a block draws are supplied. */
  datatype SmoothedValue = SmoothedValue(target: real, ticks: nat) {
    function SetTarget(t: real): SmoothedValue {
      this.(target := t)
    }
    function Advance(steps: nat): SmoothedValue {
      this.(ticks := ticks + steps)
    }
  }

  /** The smoother targets one settings snapshot asks for: drive as a gain, the
      percentages as fractions, slope and frequency as they are. */
  function TargetsOf(settings: WaveshaperSettings, decibelsToGain: real -> real): (t: PerSmoother<real>)
    ensures t.dry + t.wet == 1.0
    ensures t.wet * 100.0 == settings.mix
    ensures t.tanhAmp * 100.0 == settings.tanhAmp && t.sineAmp * 100.0 == settings.sinAmp
    ensures t.tanhSlope == settings.tanhSlope && t.sineFreq == settings.sinFreq
    ensures t.drive == decibelsToGain(settings.drive)
    ensures 0.0 <= settings.mix <= 100.0 ==> 0.0 <= t.dry <= 1.0 && 0.0 <= t.wet <= 1.0
    ensures 0.0 <= settings.tanhAmp <= 100.0 ==> 0.0 <= t.tanhAmp <= 1.0
    ensures 0.0 <= settings.sinAmp <= 100.0 ==> 0.0 <= t.sineAmp <= 1.0
  {
    var mix := settings.mix * 0.01;
    PerSmoother(
      decibelsToGain(settings.drive),
      1.0 - mix, mix,
      settings.tanhAmp * 0.01, settings.tanhSlope,
      settings.sinAmp * 0.01, settings.sinFreq)
  }

  /** The default settings ask for a dry gain of 0, a wet gain of 1, a pure tanh of
      unit slope and no sine. */
  lemma DefaultTargets(decibelsToGain: real -> real)
    ensures TargetsOf(DefaultWaveshaperSettings, decibelsToGain)
      == PerSmoother(decibelsToGain(0.0), 0.0, 1.0, 1.0, 1.0, 0.0, 1.0)
  {
  }

  /** `jlimit(lower, upper, x)`. */
  function Limit(lower: real, upper: real, x: real): (r: real)
    requires lower <= upper
    ensures lower <= r <= upper
    ensures lower <= x <= upper ==> r == x
    ensures x < lower ==> r == lower
    ensures upper < x ==> r == upper
  {
    if x < lower then lower else if upper < x then upper else x
  }

  /** A non-negative amplitude times a value in [-1, 1] stays within the amplitude. */
  lemma AmplitudeBound(amp: real, t: real)
    ensures 0.0 <= amp && -1.0 <= t <= 1.0 ==> -amp <= amp * t <= amp
  {
    if 0.0 <= amp && -1.0 <= t <= 1.0 {
      assert 0.0 <= amp * (1.0 - t) && 0.0 <= amp * (t + 1.0);
    }
  }

  /** The transfer function of one sample of the wet signal. */
  function Shaped(x: real, tanhAmp: real, tanhSlope: real, sineAmp: real, sineFreq: real, m: Transcendentals): (y: real)
    ensures m.Bounded() && 0.0 <= tanhAmp && 0.0 <= sineAmp ==> -(tanhAmp + sineAmp) <= y <= tanhAmp + sineAmp
    ensures tanhAmp == 0.0 && sineAmp == 0.0 ==> y == 0.0
  {
    AmplitudeBound(tanhAmp, m.tanh(x * tanhSlope));
    AmplitudeBound(sineAmp, m.sin(x * sineFreq));
    tanhAmp * m.tanh(x * tanhSlope) + sineAmp * m.sin(x * sineFreq)
  }

  /** The transfer function with the shaping parameters the smoothers gave at tick `k`. */
  function ShapedAt(x: real, gains: PerSmoother<seq<real>>, k: nat, m: Transcendentals): real
    requires k < |gains.tanhAmp| && k < |gains.tanhSlope| && k < |gains.sineAmp| && k < |gains.sineFreq|
  {
    Shaped(x, gains.tanhAmp[k], gains.tanhSlope[k], gains.sineAmp[k], gains.sineFreq[k], m)
  }

  /** The values the smoothers yield during a block of `n` samples: the drive, dry and
      wet gains one per sample, the four shaping smoothers one per sample and channel. */
  predicate GainsFit(gains: PerSmoother<seq<real>>, n: nat) {
    |gains.drive| == n && |gains.dry| == n && |gains.wet| == n &&
    |gains.tanhAmp| == 2 * n && |gains.tanhSlope| == 2 * n &&
    |gains.sineAmp| == 2 * n && |gains.sineFreq| == 2 * n
  }

  /** The shaping smoothers are read inside the channel loop: channel 0 takes their
      first `n` values, channel 1 the next `n`. */
  function ShapingTick(n: nat, channel: nat, i: nat): (k: nat)
    requires channel < 2 && i < n
    ensures k < 2 * n
    ensures channel == 0 ==> k == i
    ensures channel == 1 ==> k == n + i
  {
    if channel == 0 then i else n + i
  }

  /** The wet signal for input sample `x` at sample `i` of channel `channel` (0 or 1):
      driven, then shaped, before the wet gain. */
  function WetSample(x: real, gains: PerSmoother<seq<real>>, n: nat, channel: nat, i: nat, m: Transcendentals): (y: real)
    requires GainsFit(gains, n) && channel < 2 && i < n
    ensures var a, b := gains.tanhAmp[ShapingTick(n, channel, i)], gains.sineAmp[ShapingTick(n, channel, i)];
      m.Bounded() && 0.0 <= a && 0.0 <= b ==> -(a + b) <= y <= a + b
  {
    ShapedAt(Scaled(x, gains.drive[i]), gains, ShapingTick(n, channel, i), m)
  }

  /** What a non-bypassed block leaves in sample `i` of channel `channel` (0 or 1)
      when that sample was `x`. */
  function OutputSample(x: real, gains: PerSmoother<seq<real>>, n: nat, channel: nat, i: nat, m: Transcendentals): (y: real)
    requires GainsFit(gains, n) && channel < 2 && i < n
    ensures -1.0 <= y <= 1.0
    ensures gains.wet[i] == 0.0 ==> y == Limit(-1.0, 1.0, Scaled(x, gains.dry[i]))
  {
    Limit(-1.0, 1.0, Scaled(x, gains.dry[i]) + Scaled(WetSample(x, gains, n, channel, i, m), gains.wet[i]))
  }

  /** With the default targets reached (0 dB drive, 100 % mix, 100 % tanh of slope 1,
      no sine) a sample comes out as its clipped tanh. */
  lemma SettledDefaultsGiveTanh(x: real, gains: PerSmoother<seq<real>>, n: nat, channel: nat, i: nat, m: Transcendentals)
    requires GainsFit(gains, n) && channel < 2 && i < n
    requires gains.drive[i] == 1.0 && gains.dry[i] == 0.0 && gains.wet[i] == 1.0
    requires var k := ShapingTick(n, channel, i);
      gains.tanhAmp[k] == 1.0 && gains.tanhSlope[k] == 1.0 && gains.sineAmp[k] == 0.0
    ensures OutputSample(x, gains, n, channel, i, m) == Limit(-1.0, 1.0, m.tanh(x))
  {
  }

  /** A mono signal on both channels stays mono only while the shaping smoothers
      give channel 1 the same values at tick `n + i` as channel 0 at tick `i`, that is
      while they are not ramping. */
  lemma ChannelsAgreeWhenShapingSettled(x: real, gains: PerSmoother<seq<real>>, n: nat, i: nat, m: Transcendentals)
    requires GainsFit(gains, n) && i < n
    requires gains.tanhAmp[i] == gains.tanhAmp[n + i] && gains.tanhSlope[i] == gains.tanhSlope[n + i]
    requires gains.sineAmp[i] == gains.sineAmp[n + i] && gains.sineFreq[i] == gains.sineFreq[n + i]
    ensures OutputSample(x, gains, n, 0, i, m) == OutputSample(x, gains, n, 1, i, m)
  {
  }

  /** Wet buffer feeding: channels 0 and 1 of the input are copied into the wet buffer. */
  method FeedWetBuffer(wet: array2<real>, buffer: array2<real>, n: nat)
    requires wet != buffer
    requires wet.Length0 == 2 && 2 <= buffer.Length0
    requires wet.Length1 == n && buffer.Length1 == n
    modifies wet
    ensures forall c, i :: 0 <= c < 2 && 0 <= i < n ==> wet[c, i] == buffer[c, i]
  {
    for channel := 0 to 2
      invariant forall c, i :: 0 <= c < channel && 0 <= i < n ==> wet[c, i] == buffer[c, i]
    {
      CopyFrom(wet, channel, buffer, channel, n);
    }
  }

  /** The shaping loop: every sample of channels 0 and 1 is replaced by its shaped
      value, drawing the next value of each shaping smoother per sample and channel.
      Returns how many values each of those smoothers gave: two per sample. */
  method Waveshape(wet: array2<real>, n: nat, gains: PerSmoother<seq<real>>, m: Transcendentals) returns (steps: nat)
    requires wet.Length0 == 2 && wet.Length1 == n && GainsFit(gains, n)
    modifies wet
    ensures steps == 2 * n
    ensures forall c, i :: 0 <= c < 2 && 0 <= i < n ==>
      wet[c, i] == ShapedAt(old(wet[c, i]), gains, ShapingTick(n, c, i), m)
  {
    steps := 0;
    for channel := 0 to 2
      invariant steps == if channel == 0 then 0 else if channel == 1 then n else 2 * n
      invariant forall c, i :: 0 <= c < channel && 0 <= i < n ==>
        wet[c, i] == ShapedAt(old(wet[c, i]), gains, ShapingTick(n, c, i), m)
      invariant forall c, i :: channel <= c < 2 && 0 <= i < n ==> wet[c, i] == old(wet[c, i])
    {
      for i := 0 to n
        invariant steps == if channel == 0 then i else n + i
        invariant forall c, j :: 0 <= c < channel && 0 <= j < n ==>
          wet[c, j] == ShapedAt(old(wet[c, j]), gains, ShapingTick(n, c, j), m)
        invariant forall j :: 0 <= j < i ==>
          wet[channel, j] == ShapedAt(old(wet[channel, j]), gains, ShapingTick(n, channel, j), m)
        invariant forall c, j :: 0 <= c < 2 && 0 <= j < n && (channel < c || (c == channel && i <= j)) ==>
          wet[c, j] == old(wet[c, j])
      {
        wet[channel, i] := ShapedAt(wet[channel, i], gains, steps, m);
        steps := steps + 1;
      }
    }
  }

  /** Mixing: the (scaled) wet channels 0 and 1 are added onto the (scaled) input. */
  method SumWet(buffer: array2<real>, wet: array2<real>, n: nat)
    requires wet != buffer
    requires wet.Length0 == 2 && 2 <= buffer.Length0
    requires wet.Length1 == n && buffer.Length1 == n
    modifies buffer
    ensures forall c, i :: 0 <= c < 2 && 0 <= i < n ==> buffer[c, i] == old(buffer[c, i]) + wet[c, i]
    ensures forall c, i :: 2 <= c < buffer.Length0 && 0 <= i < n ==> buffer[c, i] == old(buffer[c, i])
  {
    for channel := 0 to 2
      invariant forall c, i :: 0 <= c < channel && 0 <= i < n ==> buffer[c, i] == old(buffer[c, i]) + wet[c, i]
      invariant forall c, i :: channel <= c < buffer.Length0 && 0 <= i < n ==> buffer[c, i] == old(buffer[c, i])
    {
      AddFrom(buffer, channel, wet, channel, n);
    }
  }

  /** The hard clipper: every sample of channels 0 and 1 is limited to [-1, 1]. */
  method HardClip(buffer: array2<real>, n: nat)
    requires 2 <= buffer.Length0 && buffer.Length1 == n
    modifies buffer
    ensures forall c, i :: 0 <= c < 2 && 0 <= i < n ==> buffer[c, i] == Limit(-1.0, 1.0, old(buffer[c, i]))
    ensures forall c, i :: 2 <= c < buffer.Length0 && 0 <= i < n ==> buffer[c, i] == old(buffer[c, i])
  {
    for channel := 0 to 2
      invariant forall c, i :: 0 <= c < channel && 0 <= i < n ==> buffer[c, i] == Limit(-1.0, 1.0, old(buffer[c, i]))
      invariant forall c, i :: channel <= c < buffer.Length0 && 0 <= i < n ==> buffer[c, i] == old(buffer[c, i])
    {
      for i := 0 to n
        invariant forall c, j :: 0 <= c < channel && 0 <= j < n ==> buffer[c, j] == Limit(-1.0, 1.0, old(buffer[c, j]))
        invariant forall j :: 0 <= j < i ==> buffer[channel, j] == Limit(-1.0, 1.0, old(buffer[channel, j]))
        invariant forall c, j :: channel <= c < buffer.Length0 && 0 <= j < n && !(c == channel && j < i) ==>
          buffer[c, j] == old(buffer[c, j])
      {
        buffer[channel, i] := Limit(-1.0, 1.0, buffer[channel, i]);
      }
    }
  }

  /** The wet path: channels 0 and 1 of the input are copied into the wet buffer,
      driven and shaped. Returns how many values each shaping smoother gave. */
  method DriveAndShape(wet: array2<real>, buffer: array2<real>, n: nat, gains: PerSmoother<seq<real>>, m: Transcendentals)
    returns (steps: nat)
    requires wet != buffer
    requires wet.Length0 == 2 && 2 <= buffer.Length0
    requires wet.Length1 == n && buffer.Length1 == n && GainsFit(gains, n)
    modifies wet
    ensures steps == 2 * n
    ensures forall c, i :: 0 <= c < 2 && 0 <= i < n ==> wet[c, i] == WetSample(buffer[c, i], gains, n, c, i, m)
  {
    FeedWetBuffer(wet, buffer, n);
    ApplyGain(wet, gains.drive, n);
    assert forall c, i :: 0 <= c < 2 && 0 <= i < n ==> wet[c, i] == Scaled(buffer[c, i], gains.drive[i]);
    label driven:
    steps := Waveshape(wet, n, gains, m);
    forall c, i | 0 <= c < 2 && 0 <= i < n
      ensures wet[c, i] == WetSample(buffer[c, i], gains, n, c, i, m)
    {
      assert old@driven(wet[c, i]) == Scaled(buffer[c, i], gains.drive[i]);
    }
  }

  /** The mix: the input is scaled by the dry gain (every channel), the wet signal by
      the wet gain, the wet channels 0 and 1 are added on and the result clipped. */
  method MixAndClip(buffer: array2<real>, wet: array2<real>, n: nat, gains: PerSmoother<seq<real>>)
    requires wet != buffer
    requires wet.Length0 == 2 && 2 <= buffer.Length0
    requires wet.Length1 == n && buffer.Length1 == n && GainsFit(gains, n)
    modifies buffer, wet
    ensures forall c, i :: 0 <= c < 2 && 0 <= i < n ==>
      buffer[c, i] == Limit(-1.0, 1.0, Scaled(old(buffer[c, i]), gains.dry[i]) + Scaled(old(wet[c, i]), gains.wet[i]))
    ensures forall c, i :: 2 <= c < buffer.Length0 && 0 <= i < n ==> buffer[c, i] == Scaled(old(buffer[c, i]), gains.dry[i])
  {
    ApplyGain(buffer, gains.dry, n);
    ApplyGain(wet, gains.wet, n);
    SumWet(buffer, wet, n);
    HardClip(buffer, n);
  }

  /** A non-bypassed block on buffers of matching length: every output sample of
      channels 0 and 1 is `OutputSample` of its input, every further channel only
      goes through the dry gain. Returns how many values each shaping smoother gave. */
  method RenderBlock(buffer: array2<real>, wet: array2<real>, gains: PerSmoother<seq<real>>, m: Transcendentals)
    returns (steps: nat)
    requires wet != buffer
    requires wet.Length0 == 2 && 2 <= buffer.Length0
    requires wet.Length1 == buffer.Length1 && GainsFit(gains, buffer.Length1)
    modifies buffer, wet
    ensures steps == 2 * buffer.Length1
    ensures forall c, i :: 0 <= c < 2 && 0 <= i < buffer.Length1 ==>
      buffer[c, i] == OutputSample(old(buffer[c, i]), gains, buffer.Length1, c, i, m)
    ensures forall c, i :: 2 <= c < buffer.Length0 && 0 <= i < buffer.Length1 ==>
      buffer[c, i] == Scaled(old(buffer[c, i]), gains.dry[i])
  {
    var n := buffer.Length1;
    steps := DriveAndShape(wet, buffer, n, gains, m);
    MixAndClip(buffer, wet, n, gains);
  }

  class WaveshaperModuleDSP {
    var chainPosition: nat
    var bypassed: bool
    var wetBuffer: array2<real>
    var driveGain: SmoothedValue
    var dryGain: SmoothedValue
    var wetGain: SmoothedValue
    var tanhAmp: SmoothedValue
    var tanhSlope: SmoothedValue
    var sineAmp: SmoothedValue
    var sineFreq: SmoothedValue

    ghost predicate Valid()
      reads this
    {
      wetBuffer.Length0 == 2
    }

    /** The seven smoother targets. */
    function Targets(): PerSmoother<real>
      reads this
    {
      PerSmoother(driveGain.target, dryGain.target, wetGain.target, tanhAmp.target, tanhSlope.target,
                  sineAmp.target, sineFreq.target)
    }

    /** How many values each smoother has produced. */
    function Ticks(): PerSmoother<nat>
      reads this
    {
      PerSmoother(driveGain.ticks, dryGain.ticks, wetGain.ticks, tanhAmp.ticks, tanhSlope.ticks,
                  sineAmp.ticks, sineFreq.ticks)
    }

    /** A stage at `chainPosition`, not bypassed, with an empty two-channel wet buffer
        and smoothers at rest on zero. */
    constructor (chainPosition: nat)
      ensures Valid() && fresh(wetBuffer) && wetBuffer.Length1 == 0
      ensures this.chainPosition == chainPosition && !bypassed
      ensures Targets() == PerSmoother(0.0, 0.0, 0.0, 0.0, 0.0, 0.0, 0.0)
      ensures Ticks() == PerSmoother(0, 0, 0, 0, 0, 0, 0)
    {
      this.chainPosition := chainPosition;
      bypassed := false;
      wetBuffer := new real[2, 0];
      var idle := SmoothedValue(0.0, 0);
      driveGain, dryGain, wetGain := idle, idle, idle;
      tanhAmp, tanhSlope, sineAmp, sineFreq := idle, idle, idle, idle;
    }

    /** `updateDSPState`: take a settings snapshot, latch the bypass flag and retarget
        every smoother; no smoother advances. */
    method UpdateDSPState(store: ParameterStore, m: Transcendentals)
      requires HasWaveshaperKeys(store, chainPosition)
      modifies this
      ensures chainPosition == old(chainPosition) && wetBuffer == old(wetBuffer)
      ensures bypassed == GetSettings(store, chainPosition).bypassed
      ensures Targets() == TargetsOf(GetSettings(store, chainPosition), m.decibelsToGain)
      ensures Ticks() == old(Ticks())
    {
      var settings := GetSettings(store, chainPosition);
      bypassed := settings.bypassed;
      driveGain := driveGain.SetTarget(m.decibelsToGain(settings.drive));
      tanhAmp := tanhAmp.SetTarget(settings.tanhAmp * 0.01);
      tanhSlope := tanhSlope.SetTarget(settings.tanhSlope);
      sineAmp := sineAmp.SetTarget(settings.sinAmp * 0.01);
      sineFreq := sineFreq.SetTarget(settings.sinFreq);
      var mix := settings.mix * 0.01;
      dryGain := dryGain.SetTarget(1.0 - mix);
      wetGain := wetGain.SetTarget(mix);
    }

    /** `prepareToPlay`: a two-channel wet buffer of `samplesPerBlock` samples, then a
        settings refresh. A buffer of that size already is kept with its contents; any
        other is replaced by a cleared one. */
    method PrepareToPlay(store: ParameterStore, samplesPerBlock: nat, m: Transcendentals)
      requires HasWaveshaperKeys(store, chainPosition)
      modifies this
      ensures Valid() && wetBuffer.Length1 == samplesPerBlock
      ensures old(wetBuffer.Length0) == 2 && old(wetBuffer.Length1) == samplesPerBlock ==>
        wetBuffer == old(wetBuffer) && unchanged(wetBuffer)
      ensures !(old(wetBuffer.Length0) == 2 && old(wetBuffer.Length1) == samplesPerBlock) ==>
        fresh(wetBuffer) && forall c, i :: 0 <= c < 2 && 0 <= i < samplesPerBlock ==> wetBuffer[c, i] == 0.0
      ensures chainPosition == old(chainPosition)
      ensures bypassed == GetSettings(store, chainPosition).bypassed
      ensures Targets() == TargetsOf(GetSettings(store, chainPosition), m.decibelsToGain)
      ensures Ticks() == old(Ticks())
    {
      wetBuffer := SetSize(wetBuffer, 2, samplesPerBlock);
      UpdateDSPState(store, m);
    }

    /** The smoothers' progress over a block: the drive, dry and wet gains gave
        `perSample` values each, the shaping smoothers `perShapingStep` each. */
    method AdvanceSmoothers(perSample: nat, perShapingStep: nat)
      modifies this
      ensures chainPosition == old(chainPosition) && bypassed == old(bypassed) && wetBuffer == old(wetBuffer)
      ensures Targets() == old(Targets())
      ensures Ticks() == PerSmoother(old(driveGain.ticks) + perSample, old(dryGain.ticks) + perSample,
                                     old(wetGain.ticks) + perSample,
                                     old(tanhAmp.ticks) + perShapingStep, old(tanhSlope.ticks) + perShapingStep,
                                     old(sineAmp.ticks) + perShapingStep, old(sineFreq.ticks) + perShapingStep)
    {
      driveGain, dryGain, wetGain :=
        driveGain.Advance(perSample), dryGain.Advance(perSample), wetGain.Advance(perSample);
      tanhAmp, tanhSlope := tanhAmp.Advance(perShapingStep), tanhSlope.Advance(perShapingStep);
      sineAmp, sineFreq := sineAmp.Advance(perShapingStep), sineFreq.Advance(perShapingStep);
    }

    /** `processBlock`: refresh the settings; unless bypassed, size the wet buffer to
        the block, copy the input into it, drive it, shape it, mix it with the input
        by the dry and wet gains and clip the result to [-1, 1]. */
    method ProcessBlock(buffer: array2<real>, store: ParameterStore, gains: PerSmoother<seq<real>>, m: Transcendentals)
      requires Valid() && HasWaveshaperKeys(store, chainPosition)
      requires buffer != wetBuffer && 2 <= buffer.Length0
      requires GainsFit(gains, buffer.Length1)
      modifies this, buffer, wetBuffer
      ensures Valid() && chainPosition == old(chainPosition)
      ensures bypassed == GetSettings(store, chainPosition).bypassed
      ensures Targets() == TargetsOf(GetSettings(store, chainPosition), m.decibelsToGain)
      // bypassed: the audio, the wet buffer and the smoothers' progress are untouched
      ensures bypassed ==> unchanged(buffer) && wetBuffer == old(wetBuffer) && unchanged(wetBuffer)
      ensures bypassed ==> Ticks() == old(Ticks())
      // the wet buffer matches the block, and is reallocated only when it did not
      ensures !bypassed ==> wetBuffer.Length1 == buffer.Length1
      ensures !bypassed && old(wetBuffer.Length1) == buffer.Length1 ==> wetBuffer == old(wetBuffer)
      ensures !bypassed && old(wetBuffer.Length1) != buffer.Length1 ==> fresh(wetBuffer)
      // the drive, dry and wet smoothers advance once per sample, the shaping ones twice
      ensures !bypassed ==> var n := buffer.Length1;
        Ticks() == PerSmoother(old(driveGain.ticks) + n, old(dryGain.ticks) + n, old(wetGain.ticks) + n,
                               old(tanhAmp.ticks) + 2 * n, old(tanhSlope.ticks) + 2 * n,
                               old(sineAmp.ticks) + 2 * n, old(sineFreq.ticks) + 2 * n)
      // channels 0 and 1: dry input plus shaped wet signal, clipped
      ensures !bypassed ==> forall c, i :: 0 <= c < 2 && 0 <= i < buffer.Length1 ==>
        buffer[c, i] == OutputSample(old(buffer[c, i]), gains, buffer.Length1, c, i, m)
      ensures !bypassed ==> forall c, i :: 0 <= c < 2 && 0 <= i < buffer.Length1 ==>
        -1.0 <= buffer[c, i] <= 1.0
      // any further channel only goes through the dry gain, which scales the whole buffer
      ensures !bypassed ==> forall c, i :: 2 <= c < buffer.Length0 && 0 <= i < buffer.Length1 ==>
        buffer[c, i] == Scaled(old(buffer[c, i]), gains.dry[i])
    {
      UpdateDSPState(store, m);
      if !bypassed {
        var numSamples := buffer.Length1;
        if wetBuffer.Length1 != numSamples {
          wetBuffer := SetSize(wetBuffer, 2, numSamples);
        }
        var steps := RenderBlock(buffer, wetBuffer, gains, m);
        AdvanceSmoothers(numSamples, steps);
      }
    }
  }
}
