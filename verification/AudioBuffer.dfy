/** The effect of the audio-buffer operations the waveshaper stage calls. A
    buffer is a two-dimensional array indexed by (channel, sample). */
module AudioBuffer {

  /** A sample scaled by a gain. */
  function Scaled(x: real, gain: real): real {
    x * gain
  }

  /** `setSize(channels, samples, false, true, true)` on buffer `b`: a buffer that
      already has that size is kept as it is, contents included; otherwise the result
      has the new size and every sample cleared to zero. */
  method SetSize(b: array2<real>, channels: nat, samples: nat) returns (r: array2<real>)
    ensures r.Length0 == channels && r.Length1 == samples
    ensures b.Length0 == channels && b.Length1 == samples ==> r == b
    ensures !(b.Length0 == channels && b.Length1 == samples) ==>
      fresh(r) && forall c, i :: 0 <= c < channels && 0 <= i < samples ==> r[c, i] == 0.0
  {
    if b.Length0 == channels && b.Length1 == samples {
      r := b;
    } else {
      r := new real[channels, samples]((c, i) => 0.0);
    }
  }

  /** `dest.copyFrom(destChannel, 0, source, sourceChannel, 0, n)`: the first `n`
      samples of one channel are overwritten with those of a source channel. */
  method CopyFrom(dest: array2<real>, destChannel: nat, source: array2<real>, sourceChannel: nat, n: nat)
    requires dest != source
    requires destChannel < dest.Length0 && sourceChannel < source.Length0
    requires n <= dest.Length1 && n <= source.Length1
    modifies dest
    ensures forall i :: 0 <= i < n ==> dest[destChannel, i] == source[sourceChannel, i]
    ensures forall c, i :: 0 <= c < dest.Length0 && 0 <= i < dest.Length1 && !(c == destChannel && i < n) ==>
      dest[c, i] == old(dest[c, i])
  {
    for i := 0 to n
      invariant forall j :: 0 <= j < i ==> dest[destChannel, j] == source[sourceChannel, j]
      invariant forall c, j :: 0 <= c < dest.Length0 && 0 <= j < dest.Length1 && !(c == destChannel && j < i) ==>
        dest[c, j] == old(dest[c, j])
    {
      dest[destChannel, i] := source[sourceChannel, i];
    }
  }

  /** `dest.addFrom(destChannel, 0, source, sourceChannel, 0, n)`: the first `n`
      samples of a source channel are added onto one channel. */
  method AddFrom(dest: array2<real>, destChannel: nat, source: array2<real>, sourceChannel: nat, n: nat)
    requires dest != source
    requires destChannel < dest.Length0 && sourceChannel < source.Length0
    requires n <= dest.Length1 && n <= source.Length1
    modifies dest
    ensures forall i :: 0 <= i < n ==> dest[destChannel, i] == old(dest[destChannel, i]) + source[sourceChannel, i]
    ensures forall c, i :: 0 <= c < dest.Length0 && 0 <= i < dest.Length1 && !(c == destChannel && i < n) ==>
      dest[c, i] == old(dest[c, i])
  {
    for i := 0 to n
      invariant forall j :: 0 <= j < i ==> dest[destChannel, j] == old(dest[destChannel, j]) + source[sourceChannel, j]
      invariant forall c, j :: 0 <= c < dest.Length0 && 0 <= j < dest.Length1 && !(c == destChannel && j < i) ==>
        dest[c, j] == old(dest[c, j])
    {
      dest[destChannel, i] := dest[destChannel, i] + source[sourceChannel, i];
    }
  }

  /** A smoother's `applyGain(buffer, n)`: sample `i` of EVERY channel is scaled by
      the smoother's `i`-th value, `gains[i]`; later samples are left alone. */
  method ApplyGain(buffer: array2<real>, gains: seq<real>, n: nat)
    requires n <= buffer.Length1 && n <= |gains|
    modifies buffer
    ensures forall c, i :: 0 <= c < buffer.Length0 && 0 <= i < n ==> buffer[c, i] == Scaled(old(buffer[c, i]), gains[i])
    ensures forall c, i :: 0 <= c < buffer.Length0 && n <= i < buffer.Length1 ==> buffer[c, i] == old(buffer[c, i])
  {
    for i := 0 to n
      invariant forall c, j :: 0 <= c < buffer.Length0 && 0 <= j < i ==> buffer[c, j] == Scaled(old(buffer[c, j]), gains[j])
      invariant forall c, j :: 0 <= c < buffer.Length0 && i <= j < buffer.Length1 ==> buffer[c, j] == old(buffer[c, j])
    {
      var gain := gains[i];
      for channel := 0 to buffer.Length0
        invariant forall c, j :: 0 <= c < buffer.Length0 && 0 <= j < i ==> buffer[c, j] == Scaled(old(buffer[c, j]), gains[j])
        invariant forall c :: 0 <= c < channel ==> buffer[c, i] == Scaled(old(buffer[c, i]), gain)
        invariant forall c, j :: 0 <= c < buffer.Length0 && i <= j < buffer.Length1 && !(j == i && c < channel) ==>
          buffer[c, j] == old(buffer[c, j])
      {
        buffer[channel, i] := Scaled(buffer[channel, i], gain);
      }
    }
  }
}
