# Biztortion core: cut-filter configuration and the waveshaper stage

This project models in Dafny the per-block control logic of two processing stages of the
Biztortion distortion plug-in, and proves properties about that model.

**Cut filter (filter stage).** A cut filter is a chain of four IIR sections, and each
section has its own bypass flag.
- The `FilterSlope` enumeration maps 12/24/36/48 dB per octave to the ordinals 0..3.
- `makeLowCutFilter` asks the Butterworth highpass designer for order `2 * (slope + 1)`.
  `makeHighCutFilter` asks the lowpass designer for the same order.
- `updateCutFilter` first bypasses all four sections. It then installs the designed
  sections `0..slope` and un-bypasses exactly those.
- The model is `FilterModule.CutFilter`, a class over an `array<Section>` of four slots.
  The designer is a value holding two functions. Its validity predicate says an even
  order `2m` yields `m` sections.

**Waveshaper stage.**
- `addParameters` registers seven parameters for each chain position 1..8. Each ID has
  the form `"Waveshaper <Control> <position>"`.
- `getSettings` reads a settings snapshot from the parameter store, here a map from ID to
  raw value. The bypass flag is the raw value `> 0.5`.
- `updateDSPState` turns that snapshot into the targets of seven smoothers: drive as a
  gain; dry `1 - mix/100` and wet `mix/100`; the amplitudes as fractions; slope and
  frequency as they are.
- `prepareToPlay` sizes the two-channel scratch buffer.
- `processBlock` runs the in-place block algorithm:
  - refresh the settings;
  - stop here if bypassed;
  - resize the wet buffer if the host changed the block size;
  - copy channels 0/1 into the wet buffer, drive it, and shape each sample with
    `tanhAmp * tanh(x * tanhSlope) + sineAmp * sin(x * sineFreq)`;
  - scale the input by the dry gain and the wet buffer by the wet gain, add the wet
    channels on, and hard-clip channels 0/1 to [-1, 1].
- The model is the class `WaveshaperModule.WaveshaperModuleDSP`, with
  `array2<real>` buffers indexed (channel, sample).
- Two library parts are parameters:
  - `tanh`, `sin` and `decibelsToGain` are the function fields of a `Transcendentals` value;
  - the values the smoothers yield during a block are sequences the caller supplies.
- The shaping smoothers are read inside the channel loop. So each of them yields `2n`
  values in a block of `n` samples, and channel 1 sees values `n..2n-1`. The model keeps
  this: see `ShapingTick`, `Waveshape` and the tick counts in `ProcessBlock`.

Files:
- `Decimal.dfy`: the decimal spelling of a position.
- `FilterModule.dfy`: the cut-filter logic.
- `AudioBuffer.dfy`: the effect of the buffer and smoother operations the stage calls.
- `WaveshaperParameters.dfy`: keys, layout, store and settings.
- `WaveshaperModule.dfy`: targets, transfer function, block algorithm and the DSP class.

## Model

| member | source | states |
|---|---|---|
| Decimal.NatToString | Source/Module/WaveshaperModule.cpp:138-144 | the position suffix of a key is a non-empty string of decimal digits, a single digit exactly for positions below 10, and it starts with `0` only for 0 (no leading zero, as `std::to_string`) |
| Decimal.NatToStringRoundTrip | Source/Module/WaveshaperModule.cpp:138-144 | the suffix spells the position: its digits, read most significant first, denote exactly `n` |
| Decimal.DecimalValueSpelling | Source/Module/WaveshaperModule.cpp:138-144 | conversely, every digit string without a leading zero is the suffix of the number it denotes, so the spelling is the unique canonical one |
| Decimal.NatToStringInjective | Source/Module/WaveshaperModule.cpp:138-144 | distinct positions have distinct decimal suffixes (from the round trip) |
| FilterModule.ActiveSections | Source/Module/FilterModule.h:89-118 | a slope ordinal 0..3 selects `slope + 1` sections; any other value matches no case and selects none; never more than four |
| FilterModule.CutOrder | Source/Module/FilterModule.h:126-135 | the requested Butterworth order is even; for an enumerated slope it is 2, 4, 6 or 8, and half of it is the number of sections the update installs |
| FilterModule.MakeLowCutFilter | Source/Module/FilterModule.h:126-130 | the low cut is the highpass design at `lowCutFreq` of order `2 * (lowCutSlope + 1)`; it has `slope + 1` sections, so every index the update reads exists |
| FilterModule.MakeHighCutFilter | Source/Module/FilterModule.h:131-135 | the high cut is the lowpass design at `highCutFreq` of order `2 * (highCutSlope + 1)`; it has `slope + 1` sections, so every index the update reads exists |
| FilterModule.DefaultSettingsDesignOneSection | Source/Module/FilterModule.h:63-68 | the default settings have both slopes at 12 dB/oct (one section per cut filter, one designed section), peak quality 1 and both bypass flags off |
| FilterModule.ActiveCountOfPrefix | Source/Module/FilterModule.h:85-118 | when exactly the first `m` sections are un-bypassed, exactly `m` sections are active |
| FilterModule.CutFilter.constructor | Source/Module/FilterModule.h:70-71 | a new cut filter has four sections, none bypassed, each the identity filter |
| FilterModule.CutFilter.SetBypassed | Source/Module/FilterModule.h:85-88 | `setBypassed<k>` changes only the bypass flag of section `k` |
| FilterModule.CutFilter.SetCoefficients | Source/Module/FilterModule.h:91 | assigning `*get<k>().coefficients` changes only the coefficients of section `k` |
| FilterModule.CutFilter.ActivateSection | Source/Module/FilterModule.h:91-92 | after installing `c` in section `k` and un-bypassing it, section `k` is active with `c`, and every other section is unchanged |
| FilterModule.CutFilter.UpdateCutFilter | Source/Module/FilterModule.h:84-119 | section `k` is bypassed iff `k >= slope + 1` (all four for a slope outside the enumeration); active sections hold `cutCoefficients[k]`; bypassed sections keep their old coefficients; exactly `slope + 1` sections are active |
| WaveshaperParameters.ControlIndex | Source/Module/WaveshaperModule.cpp:123-130 | each control has one place in the registration order of a position |
| WaveshaperParameters.KeyParts | Source/Module/WaveshaperModule.cpp:138-144 | `Key` builds the ID `"Waveshaper " + <control> + " " + to_string(position)` used at registration and lookup: the key starts with `"Waveshaper "` and ends with a space and the decimal position |
| WaveshaperParameters.KeyInjective | Source/Module/WaveshaperModule.cpp:123-130 | two keys `"Waveshaper <Control> <position>"` are equal only for the same control and position |
| WaveshaperParameters.Parameter | Source/Module/WaveshaperModule.cpp:123-130 | the parameter of a control has that control's key as its ID; it is a bool exactly for the bypass control, and the bool's default is off; a float has a non-empty range with a positive step that contains its default |
| WaveshaperParameters.ParametersFor | Source/Module/WaveshaperModule.cpp:122-131 | the parameters registered by the loop over positions `lo..hi-1`, seven per position in registration order: `7 * (hi - lo)` entries (none for an empty range) |
| WaveshaperParameters.WaveshaperLayout | Source/Module/WaveshaperModule.cpp:122-131 | the layout the loop `for i in 1..8` registers: 56 parameters, seven for each of the eight positions |
| WaveshaperParameters.ParametersForAt | Source/Module/WaveshaperModule.cpp:122-131 | the layout of a range of positions has seven entries per position, and entry `7 * (p - lo) + j` is control `j` of position `p` |
| WaveshaperParameters.ParametersForEntry | Source/Module/WaveshaperModule.cpp:122-131 | every entry of the layout is some control of some position inside the range |
| WaveshaperParameters.AddParameters | Source/Module/WaveshaperModule.cpp:118-132 | the loop over positions 1..8 appends exactly the waveshaper layout to the given layout |
| WaveshaperParameters.LayoutRegistersEveryControl | Source/Module/WaveshaperModule.cpp:122-131 | every control of every position 1..8 is registered, with its range and default |
| WaveshaperParameters.LayoutOnlyPositionsOneToEight | Source/Module/WaveshaperModule.cpp:122 | no key of a position outside 1..8 is registered |
| WaveshaperParameters.LayoutIdsDistinct | Source/Module/WaveshaperModule.cpp:122-131 | no two registered parameters share an ID |
| WaveshaperParameters.DefaultStore | Source/Module/WaveshaperModule.cpp:122-131 | once the layout is registered, every registered ID has a value in the store |
| WaveshaperParameters.DefaultStoreAt | Source/Module/WaveshaperModule.cpp:122-131 | with distinct IDs, each registered parameter starts at its default, a bool as 0 or 1 |
| WaveshaperParameters.SettingsFollowOwnKeys | Source/Module/WaveshaperModule.cpp:134-147 | writing the key of a control at a position changes only that field of that position's snapshot (the bypass flag through the `> 0.5` threshold); other positions' snapshots do not change |
| WaveshaperParameters.GetSettings | Source/Module/WaveshaperModule.cpp:134-147 | `getSettings`: each float control of the snapshot is the raw value stored under that control's own key at the position, and `bypassed` holds iff the raw bypass value is `> 0.5` (how a write moves the snapshot: `SettingsFollowOwnKeys`) |
| WaveshaperParameters.DefaultSettingsAtEveryPosition | Source/Module/WaveshaperModule.cpp:122-147 | right after registration, every position 1..8 reads drive 0, mix 100, tanh amp 100, tanh slope 1, sine amp 0, sine freq 1, not bypassed |
| WaveshaperModule.TargetsOf | Source/Module/WaveshaperModule.cpp:155-164 | dry + wet = 1 and wet = mix/100; the amplitudes are their percentages/100; slope and frequency pass through; drive is the dB-to-gain of the drive; in-range percentages give gains in [0, 1] |
| WaveshaperModule.DefaultTargets | Source/Module/WaveshaperModule.cpp:155-164 | the default settings target dry 0, wet 1, tanh amp 1, tanh slope 1, sine amp 0, sine freq 1, and the 0 dB gain |
| WaveshaperModule.Limit | Source/Module/WaveshaperModule.cpp:113 | `jlimit` returns a value in range: the input when it lies inside, else the bound it crossed |
| WaveshaperModule.Shaped | Source/Module/WaveshaperModule.cpp:84-85 | the per-sample transfer function `tanhAmp * tanh(x * tanhSlope) + sineAmp * sin(x * sineFreq)`: with non-negative amplitudes its value lies within plus or minus their sum (for bounded `tanh` and `sin`), and it is 0 when both amplitudes are 0 |
| WaveshaperModule.WetSample | Source/Module/WaveshaperModule.cpp:76-86 | the wet signal of one input sample, driven and then shaped with the values of its tick: bounded by the sum of the two amplitudes at that tick |
| WaveshaperModule.OutputSample | Source/Module/WaveshaperModule.cpp:101-113 | the output of one sample of channel 0/1: `jlimit(-1, 1, dry * x + wet * WetSample)`; it lies in [-1, 1], and with a zero wet gain it is the clipped dry signal |
| WaveshaperModule.ShapingTick | Source/Module/WaveshaperModule.cpp:79-86 | channel 0 draws shaping values `0..n-1`, channel 1 draws `n..2n-1` |
| WaveshaperModule.SettledDefaultsGiveTanh | Source/Module/WaveshaperModule.cpp:76-113 | with the default targets reached, an output sample is the clipped `tanh` of its input |
| WaveshaperModule.ChannelsAgreeWhenShapingSettled | Source/Module/WaveshaperModule.cpp:79-86 | the same input on both channels gives the same output when the shaping values at ticks `i` and `n + i` agree |
| AudioBuffer.SetSize | Source/Module/WaveshaperModule.cpp:42 | `setSize(2, n, false, true, true)` gives a buffer of the new size; a buffer that already has that size is kept with its contents, at any other size it is resized and every sample is cleared |
| AudioBuffer.CopyFrom | Source/Module/WaveshaperModule.cpp:64 | the first `n` samples of the destination channel become the source channel's; nothing else changes |
| AudioBuffer.AddFrom | Source/Module/WaveshaperModule.cpp:105 | the source channel's first `n` samples are added onto the destination channel; nothing else changes |
| AudioBuffer.ApplyGain | Source/Module/WaveshaperModule.cpp:101-102 | sample `i` of every channel is scaled by the smoother's `i`-th value; later samples are unchanged |
| WaveshaperModule.FeedWetBuffer | Source/Module/WaveshaperModule.cpp:63-64 | wet channels 0 and 1 become copies of input channels 0 and 1 |
| WaveshaperModule.Waveshape | Source/Module/WaveshaperModule.cpp:79-86 | every sample of wet channels 0/1 is replaced by the transfer function with the shaping values of its tick; `2n` values are drawn from each shaping smoother |
| WaveshaperModule.SumWet | Source/Module/WaveshaperModule.cpp:104-105 | the wet channels are added onto input channels 0 and 1; further channels are untouched |
| WaveshaperModule.HardClip | Source/Module/WaveshaperModule.cpp:107-114 | every sample of channels 0 and 1 is limited to [-1, 1]; further channels are untouched |
| WaveshaperModule.DriveAndShape | Source/Module/WaveshaperModule.cpp:62-86 | each wet sample is the input sample, scaled by the drive gain and then shaped |
| WaveshaperModule.MixAndClip | Source/Module/WaveshaperModule.cpp:100-114 | channels 0/1 become the clipped sum of the dry-scaled input and the wet-scaled wet signal; further channels are only dry-scaled |
| WaveshaperModule.RenderBlock | Source/Module/WaveshaperModule.cpp:62-114 | each output sample of channels 0/1 is the clipped `dry * x + wet * shaped(drive * x)` of its input `x`; further channels are only dry-scaled |
| WaveshaperModule.WaveshaperModuleDSP.constructor | Source/Module/WaveshaperModule.cpp:30-33 | a new stage keeps its chain position, is not bypassed and has an empty two-channel wet buffer |
| WaveshaperModule.WaveshaperModuleDSP.UpdateDSPState | Source/Module/WaveshaperModule.cpp:149-165 | the bypass flag and all seven targets come from the snapshot at the stage's own position; no smoother advances; the buffers stay |
| WaveshaperModule.WaveshaperModuleDSP.PrepareToPlay | Source/Module/WaveshaperModule.cpp:40-46 | the wet buffer is 2 x `samplesPerBlock`: kept as it was (contents included) when it already had that size, otherwise resized and cleared; the settings are refreshed |
| WaveshaperModule.WaveshaperModuleDSP.AdvanceSmoothers | Source/Module/WaveshaperModule.cpp:76-102 | drive, dry and wet advance by `perSample` ticks and the four shaping smoothers by `perShapingStep`; targets stay (`ProcessBlock` passes `n` and `2n`) |
| WaveshaperModule.WaveshaperModuleDSP.ProcessBlock | Source/Module/WaveshaperModule.cpp:48-116 | settings are always refreshed. When bypassed, the audio, the wet buffer and the smoothers' progress do not change. Otherwise: the wet buffer matches the block and is resized and cleared only on a size mismatch; the smoothers advance `n` and `2n` ticks; channels 0/1 become the clipped mix and lie in [-1, 1]; further channels are dry-scaled |

## Left out

- `AudioBuffer.SetSize`: JUCE's `setSize` with `avoidReallocating` keeps the same buffer object and reuses its memory when the new size fits. Dafny cannot change an `array2`'s dimensions, so on a size change the model returns a new array (`fresh` in its contract). That stands for the resize, not a claim that memory is allocated; the sizes and cleared contents are what the model promises.
- GUI modules, the editor, and the oscilloscope and meter stages: they are layout and forwarding to libraries, not logic of these stages.
- `makePeakFilter`, `updatePeakFilter`, `updateLowCutFilter`, `updateHighCutFilter`, `FilterModuleDSP::getSettings`, `addParameters` and `processBlock`: only their declarations are in `FilterModule.h`, and their bodies are not part of this model.
- Butterworth synthesis, `IIR::Filter` sample processing, `tanh`, `sin` and `Decibels::decibelsToGain`: library code, modelled as function parameters (`ButterworthDesigner`, `Transcendentals`).
- Floating point: samples, gains and settings are `real`. `0.01f` rounding, NaN (which `jlimit` would pass through) and overflow are not modelled.
- The atomic `getRawParameterValue(...)->load()` is a plain map lookup. `GetSettings` requires every key of the position to be present. The source would dereference a null pointer for a missing key.
- `WaveshaperModule.WaveshaperModuleDSP.ProcessBlock`: does not model the smoothers' ramp. The per-sample values each smoother yields are supplied sequences, not derived from the targets. Only how many values each smoother draws is tracked.
- `FilterModule.CutFilter.constructor`: the initial state of a chain (no section bypassed, identity coefficients) is the library default. It is not shown in the source.
- `WaveshaperModule.WaveshaperModuleDSP.constructor`: the members' initial values are declared in a header that is not part of this model. An empty two-channel wet buffer, a cleared bypass flag and smoothers at rest on target 0 are assumed. The source constructor takes only the parameter store; the chain position is set afterwards through the base class's `setChainPosition` (MeterModule.cpp:22 calls it). The model takes the position as a constructor argument instead and never changes it.
- The `sampleRate` argument of `prepareToPlay`, `processBlock` and `updateDSPState`, and the MIDI buffer: none of them is used in these bodies.
- The commented-out oversampling code.
- `WaveshaperModule.WaveshaperModuleDSP.ProcessBlock`: "only channels 0 and 1 are touched" would be a natural reading of the loops, but the code does not do that, and the model follows the code. `dryGain.applyGain(buffer, numSamples)` receives the whole host buffer, so any channel beyond 1 is scaled by the dry gain. It is not clipped, so the [-1, 1] bound holds for channels 0 and 1 only.
- The host buffer must have at least two channels, because the loops read channels 0 and 1 unconditionally.
