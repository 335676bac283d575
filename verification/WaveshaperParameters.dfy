/** The waveshaper's parameters: the key scheme "Waveshaper <Control> <position>",
    the layout registered for chain positions 1..8 with ranges and defaults, the
    parameter store (a plain map from key to raw value) and the per-block settings
    snapshot read from it. */
module WaveshaperParameters {
  import opened Decimal

  datatype Control = Drive | Mix | TanhAmp | TanhSlope | SineAmp | SineFreq | Bypassed

  /** The controls in the order each position registers them: seven per position. */
  const Controls: seq<Control> := [Drive, Mix, TanhAmp, TanhSlope, SineAmp, SineFreq, Bypassed]

  /** Where a control stands in `Controls`. */
  function ControlIndex(c: Control): (j: nat)
    ensures j < |Controls| && Controls[j] == c
  {
    match c
    case Drive => 0
    case Mix => 1
    case TanhAmp => 2
    case TanhSlope => 3
    case SineAmp => 4
    case SineFreq => 5
    case Bypassed => 6
  }

  /** The control part of a parameter ID. */
  function ControlId(c: Control): string {
    match c
    case Drive => "Drive"
    case Mix => "Mix"
    case TanhAmp => "Tanh Amp"
    case TanhSlope => "Tanh Slope"
    case SineAmp => "Sine Amp"
    case SineFreq => "Sine Freq"
    case Bypassed => "Bypassed"
  }

  /** The control part of a parameter's display name; the two sine controls are
      shown as "Sin" although their IDs say "Sine". */
  function ControlName(c: Control): string {
    match c
    case SineAmp => "Sin Amp"
    case SineFreq => "Sin Freq"
    case _ => ControlId(c)
  }

  /** The ID under which the control of the stage at `position` is stored. */
  function Key(c: Control, position: nat): string {
    "Waveshaper " + ControlId(c) + " " + NatToString(position)
  }

  /** A key is the stage prefix, a space, and the decimal position at its end. */
  lemma KeyParts(c: Control, position: nat)
    ensures var k, suffix := Key(c, position), NatToString(position);
      |k| > 11 + |suffix| && k[..11] == "Waveshaper " &&
      k[|k| - |suffix| - 1] == ' ' && k[|k| - |suffix|..] == suffix
  {
  }

  lemma ControlIdInjective(c1: Control, c2: Control)
    requires ControlId(c1) == ControlId(c2)
    ensures c1 == c2
  {
  }

  /** A string `a + " " + d` in which `d` has no space splits only one way. */
  lemma SplitAtLastSpace(a1: string, d1: string, a2: string, d2: string)
    requires a1 + " " + d1 == a2 + " " + d2
    requires forall k :: 0 <= k < |d1| ==> d1[k] != ' '
    requires forall k :: 0 <= k < |d2| ==> d2[k] != ' '
    ensures a1 == a2 && d1 == d2
  {
    var s := a1 + " " + d1;
    assert s[|a1|] == ' ' && s[|a2|] == ' ';
    assert |a1| == |a2|;
    assert a1 == s[..|a1|] == a2;
    assert d1 == s[|a1| + 1..] == d2;
  }

  /** Different controls, or different positions, never share a key. */
  lemma KeyInjective(c1: Control, p1: nat, c2: Control, p2: nat)
    requires Key(c1, p1) == Key(c2, p2)
    ensures c1 == c2 && p1 == p2
  {
    var prefix1, prefix2 := "Waveshaper " + ControlId(c1), "Waveshaper " + ControlId(c2);
    SplitAtLastSpace(prefix1, NatToString(p1), prefix2, NatToString(p2));
    assert ControlId(c1) == prefix1[11..] == prefix2[11..] == ControlId(c2);
    ControlIdInjective(c1, c2);
    NatToStringInjective(p1, p2);
  }

  /** A registered parameter: a float with its normalisable range and default, or a
      bool with its default. */
  datatype ParameterSpec =
    | FloatParameter(id: string, name: string, start: real, end: real, interval: real, defaultValue: real, unitLabel: string)
    | BoolParameter(id: string, name: string, defaultFlag: bool, unitLabel: string)

  /** The parameter registered for control `c` of the stage at `position`. */
  function Parameter(c: Control, position: nat): (spec: ParameterSpec)
    ensures spec.id == Key(c, position)
    ensures spec.BoolParameter? <==> c == Bypassed
    ensures spec.FloatParameter? ==> spec.start < spec.end && 0.0 < spec.interval
    ensures spec.FloatParameter? ==> spec.start <= spec.defaultValue <= spec.end
    ensures spec.BoolParameter? ==> !spec.defaultFlag
  {
    var id := Key(c, position);
    var name := "Waveshaper " + ControlName(c) + " " + NatToString(position);
    var unitLabel := "Waveshaper " + NatToString(position);
    match c
    case Drive => FloatParameter(id, name, 0.0, 40.0, 0.01, 0.0, unitLabel)
    case Mix => FloatParameter(id, name, 0.0, 100.0, 0.01, 100.0, unitLabel)
    case TanhAmp => FloatParameter(id, name, 0.0, 100.0, 0.01, 100.0, unitLabel)
    case TanhSlope => FloatParameter(id, name, 1.0, 15.0, 0.01, 1.0, unitLabel)
    case SineAmp => FloatParameter(id, name, 0.0, 100.0, 0.01, 0.0, unitLabel)
    case SineFreq => FloatParameter(id, name, 0.5, 100.0, 0.01, 1.0, unitLabel)
    case Bypassed => BoolParameter(id, name, false, unitLabel)
  }

  /** The seven parameters one chain position registers, in registration order. */
  function PositionParameters(position: nat): (specs: seq<ParameterSpec>)
    ensures |specs| == |Controls|
  {
    seq(|Controls|, j requires 0 <= j < |Controls| => Parameter(Controls[j], position))
  }

  /** The parameters of positions `lo` up to (not including) `hi`, in registration order. */
  function ParametersFor(lo: nat, hi: nat): (specs: seq<ParameterSpec>)
    ensures |specs| == if lo <= hi then 7 * (hi - lo) else 0
    decreases hi
  {
    if hi <= lo then [] else ParametersFor(lo, hi - 1) + PositionParameters(hi - 1)
  }

  /** Entry `7 * (p - lo) + j` of the layout is control `j` of position `p`. */
  lemma {:induction false} ParametersForAt(lo: nat, hi: nat, p: nat, j: nat)
    requires lo <= p < hi && j < 7
    ensures |ParametersFor(lo, hi)| == 7 * (hi - lo)
    ensures ParametersFor(lo, hi)[7 * (p - lo) + j] == Parameter(Controls[j], p)
  {
    var prefix := ParametersFor(lo, hi - 1);
    assert ParametersFor(lo, hi) == prefix + PositionParameters(hi - 1);
    if p < hi - 1 {
      ParametersForAt(lo, hi - 1, p, j);
    } else {
      assert 7 * (p - lo) == |prefix|;
    }
  }

  /** Every entry of the layout of positions `lo..hi-1` is some control of some position there. */
  lemma {:induction false} ParametersForEntry(lo: nat, hi: nat, k: nat)
    requires k < |ParametersFor(lo, hi)|
    ensures lo < hi && |ParametersFor(lo, hi)| == 7 * (hi - lo)
    ensures lo <= lo + k / 7 < hi
    ensures ParametersFor(lo, hi)[k] == Parameter(Controls[k % 7], lo + k / 7)
  {
    if hi <= lo {
      assert false;
    }
    ParametersForAt(lo, hi, lo + k / 7, k % 7);
  }

  /** The layout the waveshaper adds: positions 1 to 8. */
  function WaveshaperLayout(): (specs: seq<ParameterSpec>)
    ensures |specs| == 56
  {
    ParametersFor(1, 9)
  }

  /** `addParameters`: for positions 1..8, register the seven parameters of each. */
  method AddParameters(layout: seq<ParameterSpec>) returns (result: seq<ParameterSpec>)
    ensures result == layout + WaveshaperLayout()
  {
    result := layout;
    var i := 1;
    while i < 9
      invariant 1 <= i <= 9
      invariant result == layout + ParametersFor(1, i)
    {
      result := result + PositionParameters(i);
      i := i + 1;
    }
  }

  /** Every control of every position 1..8 is registered, with the range and default of `Parameter`. */
  lemma LayoutRegistersEveryControl(c: Control, position: nat)
    requires 1 <= position <= 8
    ensures 7 * (position - 1) + ControlIndex(c) < |WaveshaperLayout()|
    ensures WaveshaperLayout()[7 * (position - 1) + ControlIndex(c)] == Parameter(c, position)
  {
    ParametersForAt(1, 9, position, ControlIndex(c));
  }

  /** No position outside 1..8 has any parameter registered. */
  lemma LayoutOnlyPositionsOneToEight(c: Control, position: nat)
    requires position < 1 || 8 < position
    ensures forall k :: 0 <= k < |WaveshaperLayout()| ==> WaveshaperLayout()[k].id != Key(c, position)
  {
    forall k | 0 <= k < |WaveshaperLayout()|
      ensures WaveshaperLayout()[k].id != Key(c, position)
    {
      ParametersForIdAt(1, 9, k);
      if WaveshaperLayout()[k].id == Key(c, position) {
        KeyInjective(Controls[k % 7], 1 + k / 7, c, position);
      }
    }
  }

  predicate DistinctIds(layout: seq<ParameterSpec>) {
    forall a, b :: 0 <= a < b < |layout| ==> layout[a].id != layout[b].id
  }

  /** The ID of entry `k` of the layout of positions `lo..hi-1`. */
  lemma ParametersForIdAt(lo: nat, hi: nat, k: nat)
    requires k < |ParametersFor(lo, hi)|
    ensures lo <= lo + k / 7 < hi
    ensures ParametersFor(lo, hi)[k].id == Key(Controls[k % 7], lo + k / 7)
  {
    ParametersForEntry(lo, hi, k);
  }

  /** Each control appears once in `Controls`. */
  lemma ControlsInjective(j1: nat, j2: nat)
    requires j1 < 7 && j2 < 7 && Controls[j1] == Controls[j2]
    ensures j1 == j2
  {
  }

  /** Control `j1` of position `p1` and control `j2` of position `p2` have different
      keys unless they are the same entry. */
  lemma EntryKeysDiffer(p1: nat, j1: nat, p2: nat, j2: nat)
    requires j1 < 7 && j2 < 7 && (p1 != p2 || j1 != j2)
    ensures Key(Controls[j1], p1) != Key(Controls[j2], p2)
  {
    if Key(Controls[j1], p1) == Key(Controls[j2], p2) {
      KeyInjective(Controls[j1], p1, Controls[j2], p2);
      ControlsInjective(j1, j2);
    }
  }

  /** A layout whose entry `k` carries the key of control `k % 7` of position
      `lo + k / 7` registers no ID twice. */
  lemma KeyedLayoutDistinct(layout: seq<ParameterSpec>, lo: nat)
    requires forall k :: 0 <= k < |layout| ==> layout[k].id == Key(Controls[k % 7], lo + k / 7)
    ensures DistinctIds(layout)
  {
    forall a, b | 0 <= a < b < |layout|
      ensures layout[a].id != layout[b].id
    {
      EntryKeysDiffer(lo + a / 7, a % 7, lo + b / 7, b % 7);
    }
  }

  /** The layout of any range of positions registers no ID twice. */
  lemma ParametersForIdsDistinct(lo: nat, hi: nat)
    ensures DistinctIds(ParametersFor(lo, hi))
  {
    forall k | 0 <= k < |ParametersFor(lo, hi)|
      ensures ParametersFor(lo, hi)[k].id == Key(Controls[k % 7], lo + k / 7)
    {
      ParametersForIdAt(lo, hi, k);
    }
    KeyedLayoutDistinct(ParametersFor(lo, hi), lo);
  }

  /** No two registered parameters share an ID. */
  lemma LayoutIdsDistinct()
    ensures DistinctIds(WaveshaperLayout())
  {
    ParametersForIdsDistinct(1, 9);
  }

  /** The store of raw parameter values, by ID. */
  type ParameterStore = map<string, real>

  /** The raw value a parameter starts with: its default, a bool as 0 or 1. */
  function RawDefault(spec: ParameterSpec): real {
    match spec
    case FloatParameter(_, _, _, _, _, v, _) => v
    case BoolParameter(_, _, b, _) => if b then 1.0 else 0.0
  }

  /** The store as it stands right after the layout is registered. */
  function DefaultStore(layout: seq<ParameterSpec>): (store: ParameterStore)
    ensures forall k :: 0 <= k < |layout| ==> layout[k].id in store
  {
    if layout == [] then map[]
    else DefaultStore(layout[..|layout| - 1])[layout[|layout| - 1].id := RawDefault(layout[|layout| - 1])]
  }

  /** With distinct IDs, every registered parameter starts at its default. */
  lemma {:induction false} DefaultStoreAt(layout: seq<ParameterSpec>, k: nat)
    requires DistinctIds(layout) && k < |layout|
    ensures DefaultStore(layout)[layout[k].id] == RawDefault(layout[k])
  {
    var init := layout[..|layout| - 1];
    if k < |layout| - 1 {
      assert DistinctIds(init);
      assert init[k] == layout[k];
      DefaultStoreAt(init, k);
    }
  }

  datatype WaveshaperSettings = WaveshaperSettings(
    drive: real, mix: real, tanhAmp: real, tanhSlope: real, sinAmp: real, sinFreq: real, bypassed: bool)

  /** The settings every position starts with. */
  const DefaultWaveshaperSettings := WaveshaperSettings(0.0, 100.0, 100.0, 1.0, 0.0, 1.0, false)

  /** The store holds every key of the stage at `position`. */
  predicate HasWaveshaperKeys(store: ParameterStore, position: nat) {
    forall c :: Key(c, position) in store
  }

  /** The field of a snapshot that holds a (non-bypass) control. */
  function Reading(s: WaveshaperSettings, c: Control): real
    requires c != Bypassed
  {
    match c
    case Drive => s.drive
    case Mix => s.mix
    case TanhAmp => s.tanhAmp
    case TanhSlope => s.tanhSlope
    case SineAmp => s.sinAmp
    case SineFreq => s.sinFreq
  }

  /** `getSettings`: read each control under its key; bypassed when the raw flag exceeds 0.5. */
  function GetSettings(store: ParameterStore, position: nat): (s: WaveshaperSettings)
    requires HasWaveshaperKeys(store, position)
    ensures forall c {:trigger Reading(s, c)} :: c != Bypassed ==> Reading(s, c) == store[Key(c, position)]
    ensures s.bypassed <==> store[Key(Bypassed, position)] > 0.5
  {
    WaveshaperSettings(
      store[Key(Drive, position)],
      store[Key(Mix, position)],
      store[Key(TanhAmp, position)],
      store[Key(TanhSlope, position)],
      store[Key(SineAmp, position)],
      store[Key(SineFreq, position)],
      store[Key(Bypassed, position)] > 0.5)
  }

  /** Writing a control of one position changes that field of its own snapshot (the
      bypass flag through the 0.5 threshold) and leaves every other position's snapshot alone. */
  lemma SettingsFollowOwnKeys(store: ParameterStore, position: nat, c: Control, writtenAt: nat, v: real)
    requires HasWaveshaperKeys(store, position)
    ensures HasWaveshaperKeys(store[Key(c, writtenAt) := v], position)
    ensures writtenAt != position ==>
      GetSettings(store[Key(c, writtenAt) := v], position) == GetSettings(store, position)
    ensures writtenAt == position ==>
      var s, t := GetSettings(store[Key(c, writtenAt) := v], position), GetSettings(store, position);
      s == match c
           case Drive => t.(drive := v)
           case Mix => t.(mix := v)
           case TanhAmp => t.(tanhAmp := v)
           case TanhSlope => t.(tanhSlope := v)
           case SineAmp => t.(sinAmp := v)
           case SineFreq => t.(sinFreq := v)
           case Bypassed => t.(bypassed := v > 0.5)
  {
    var store' := store[Key(c, writtenAt) := v];
    forall d: Control
      ensures store'[Key(d, position)] == if c == d && writtenAt == position then v else store[Key(d, position)]
    {
      if Key(d, position) == Key(c, writtenAt) {
        KeyInjective(d, position, c, writtenAt);
      }
    }
  }

  /** Right after registration, every position 1..8 reads the default settings. */
  lemma DefaultSettingsAtEveryPosition(position: nat)
    requires 1 <= position <= 8
    ensures HasWaveshaperKeys(DefaultStore(WaveshaperLayout()), position)
    ensures GetSettings(DefaultStore(WaveshaperLayout()), position) == DefaultWaveshaperSettings
  {
    var layout := WaveshaperLayout();
    var store := DefaultStore(layout);
    LayoutIdsDistinct();
    forall c: Control
      ensures Key(c, position) in store && store[Key(c, position)] == RawDefault(Parameter(c, position))
    {
      LayoutRegistersEveryControl(c, position);
      DefaultStoreAt(layout, 7 * (position - 1) + ControlIndex(c));
    }
  }
}
