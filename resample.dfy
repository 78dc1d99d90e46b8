/** The two nearest-neighbour index maps of src/audio_engine.py: apply_downsample
    (a post-process that keeps the buffer's length) and the stretch step of
    chord_player (a chord rendered at a reduced rate, spread back over the
    full-rate duration). Samples are opaque values of type T. */
module Resample {
  import opened Wrappers

  /** PLAYBACK_RATE, the rate everything is played back at. */
  const PlaybackRate: nat := 44100

  function Min(a: int, b: int): int {
    if a <= b then a else b
  }

  /** np.clip(x, 0, hi) */
  function Clip(x: int, hi: int): int {
    if x > hi then hi else if x < 0 then 0 else x
  }

  // ---------------------------------------------------------------------------
  // Integer arithmetic
  // ---------------------------------------------------------------------------

  lemma DivBounds(a: int, b: int)
    requires b > 0
    ensures (a / b) * b <= a < (a / b) * b + b
  {
  }

  lemma MulLeftMonotone(x: int, y: int, t: int)
    requires x <= y && t >= 0
    ensures x * t <= y * t
  {
    assert y * t - x * t == (y - x) * t;
  }

  lemma MulSucc(x: int, t: int)
    ensures x * t + t == (x + 1) * t
  {
  }

  lemma MulCancel(x: int, y: int, t: int)
    requires x * t <= y * t && t > 0
    ensures x <= y
  {
    if x > y {
      assert (y + 1) * t == y * t + t;
      MulLeftMonotone(y + 1, x, t);
    }
  }

  lemma MulStrictCancel(x: int, y: int, t: int)
    requires x * t < y * t && t > 0
    ensures x < y
  {
    if x >= y {
      MulLeftMonotone(y, x, t);
    }
  }

  lemma DivMonotone(a: int, b: int, c: int)
    requires a <= b && c > 0
    ensures a / c <= b / c
  {
    DivBounds(a, c);
    DivBounds(b, c);
    MulStrictCancel(a / c, b / c + 1, c);
  }

  // ---------------------------------------------------------------------------
  // apply_downsample
  // ---------------------------------------------------------------------------

  /** `not target_sample_rate or target_sample_rate >= original_rate` is false:
      None and 0 are falsy. */
  function Reduces(target: Option<nat>, originalRate: nat): (r: bool)
    ensures r ==> target.Some? && 0 < target.value < originalRate
    ensures !r ==> target.None? || target.value == 0 || target.value >= originalRate
  {
    target.Some? && target.value != 0 && target.value < originalRate
  }

  /** floor(floor(i / step) * step) with step = originalRate / target, in exact
      rationals: the first sample of the step block i falls in. */
  function DownsampleIndex(i: nat, target: nat, originalRate: nat): (j: nat)
    requires 0 < target < originalRate
    ensures j <= i
    ensures (i - j) * target < originalRate + target
  {
    DownsampleIndexBounds(i, target, originalRate);
    ((i * target) / originalRate) * originalRate / target
  }

  lemma DownsampleIndexBounds(i: nat, target: nat, originalRate: nat)
    requires 0 < target < originalRate
    ensures var j := ((i * target) / originalRate) * originalRate / target;
            0 <= j <= i && (i - j) * target < originalRate + target
  {
    var scaled := i * target;
    var block := scaled / originalRate;
    var held := block * originalRate;
    var j := held / target;
    DivBounds(scaled, originalRate);
    assert held >= 0 by { MulLeftMonotone(0, block, originalRate); }
    DivBounds(held, target);
    var jt := j * target;
    // jt <= held <= scaled < held + originalRate < jt + target + originalRate
    assert jt <= scaled && scaled - jt < originalRate + target;
    MulCancel(j, i, target);
    MulDistributes(i, j, target);
  }

  lemma MulDistributes(x: int, y: int, t: int)
    ensures (x - y) * t == x * t - y * t
  {
  }

  /** apply_downsample(buffer, target_sample_rate, original_rate). */
  function ApplyDownsample<T>(buffer: seq<T>, target: Option<nat>, originalRate: nat): (r: seq<T>)
    ensures |r| == |buffer|
    ensures !Reduces(target, originalRate) ==> r == buffer
  {
    if !Reduces(target, originalRate) then buffer
    else
      seq(|buffer|, i requires 0 <= i < |buffer| =>
        buffer[Clip(DownsampleIndex(i, target.value, originalRate), |buffer| - 1)])
  }

  /** Every output sample holds an input sample taken less than step + 1 samples earlier
      (the clip never binds). */
  lemma DownsampleHolds<T>(buffer: seq<T>, target: Option<nat>, originalRate: nat, i: nat)
    requires Reduces(target, originalRate) && i < |buffer|
    ensures var j := DownsampleIndex(i, target.value, originalRate);
            && j <= i
            && (i - j) * target.value < originalRate + target.value
            && ApplyDownsample(buffer, target, originalRate)[i] == buffer[j]
  {
  }

  /** Later outputs never hold earlier samples. */
  lemma DownsampleIndexMonotone(i: nat, k: nat, target: nat, originalRate: nat)
    requires i <= k && 0 < target < originalRate
    ensures DownsampleIndex(i, target, originalRate) <= DownsampleIndex(k, target, originalRate)
  {
    MulLeftMonotone(i, k, target);
    DivMonotone(i * target, k * target, originalRate);
    MulLeftMonotone((i * target) / originalRate, (k * target) / originalRate, originalRate);
    DivMonotone(((i * target) / originalRate) * originalRate, ((k * target) / originalRate) * originalRate, target);
  }

  /** Rate 8 down to 4 keeps every other sample twice. */
  lemma DownsampleExample()
    ensures ApplyDownsample([1, 2, 3, 4, 5, 6, 7, 8], Some(4), 8) == [1, 1, 3, 3, 5, 5, 7, 7]
  {
    var r := ApplyDownsample([1, 2, 3, 4, 5, 6, 7, 8], Some(4), 8);
    assert r[1] == 1 && r[3] == 3 && r[5] == 5 && r[7] == 7;
  }

  // ---------------------------------------------------------------------------
  // The stretch step of chord_player
  // ---------------------------------------------------------------------------

  /** int(clip(i / step, 0, chordLength - 1)) with step = PLAYBACK_RATE / reducedRate:
      the last chord sample generated at or before the time of output sample i. */
  function StretchIndex(i: nat, reducedRate: nat, chordLength: nat): (j: nat)
    requires chordLength > 0
    ensures j < chordLength
    ensures j * PlaybackRate <= i * reducedRate
    ensures j == chordLength - 1 || i * reducedRate < (j + 1) * PlaybackRate
  {
    DivBounds(i * reducedRate, PlaybackRate);
    var j := Min((i * reducedRate) / PlaybackRate, chordLength - 1);
    MulLeftMonotone(j, (i * reducedRate) / PlaybackRate, PlaybackRate);
    j
  }

  /** chord[indexes.astype(int)]: targetLength samples, each a chord sample. */
  function Stretch<T>(chord: seq<T>, targetLength: nat, reducedRate: nat): (r: seq<T>)
    requires |chord| > 0 || targetLength == 0
    ensures |r| == targetLength
  {
    seq(targetLength, i requires 0 <= i < targetLength => chord[StretchIndex(i, reducedRate, |chord|)])
  }

  /** The index sequence of the stretch is non-decreasing. */
  lemma StretchIndexMonotone(i: nat, k: nat, reducedRate: nat, chordLength: nat)
    requires i <= k && chordLength > 0
    ensures StretchIndex(i, reducedRate, chordLength) <= StretchIndex(k, reducedRate, chordLength)
  {
    MulLeftMonotone(i, k, reducedRate);
    DivMonotone(i * reducedRate, k * reducedRate, PlaybackRate);
  }

  /** Rendering at the full rate and stretching to the same length changes nothing. */
  lemma StretchAtFullRate<T>(chord: seq<T>)
    ensures Stretch(chord, |chord|, PlaybackRate) == chord
  {
    var r := Stretch(chord, |chord|, PlaybackRate);
    forall i | 0 <= i < |chord| ensures r[i] == chord[i] {
      var j := StretchIndex(i, PlaybackRate, |chord|);
      MulCancel(j, i, PlaybackRate);
      if j < i {
        MulStrictCancel(i, j + 1, PlaybackRate);
      }
    }
  }
}
