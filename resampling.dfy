/**
 * The interpolation the playback callback performs (core/audio_engine.py,
 * `_callback`), stated as pure functions on a decoded buffer, with the
 * properties the callback relies on.
 */
module Resampling {
  import opened Effects

  /** Decoded PCM: frames of per-channel samples, and the channel count. */
  datatype Buffer = Buffer(frames: seq<seq<real>>, channels: nat)

  /** A decoded buffer has at least one channel and every frame holds one sample per channel. */
  type SampleBuffer = b: Buffer | b.channels >= 1 && forall i :: 0 <= i < |b.frames| ==> |b.frames[i]| == b.channels
    witness Buffer([], 1)

  /** The largest source index that still has a frame after it to interpolate towards. */
  function MaxIndex(b: Buffer): int {
    |b.frames| - 2
  }

  /** The fractional source index of output frame `i` of a block. */
  function SourceIndex(position: real, speed: real, i: nat): real {
    position + (i as real) * speed
  }

  /** A silent frame. */
  function Silence(width: nat): (r: seq<real>)
    ensures |r| == width && forall c :: 0 <= c < width ==> r[c] == 0.0
  {
    seq(width, _ => 0.0)
  }

  /** `r` lies between `x` and `y`, in whichever order they come. */
  predicate Between(r: real, x: real, y: real) {
    (x <= r <= y) || (y <= r <= x)
  }

  /** Channel-wise linear interpolation from `x` (weight 1 - a) towards `y` (weight a). */
  function Lerp(x: seq<real>, y: seq<real>, a: real): (r: seq<real>)
    requires |x| == |y|
    ensures |r| == |x|
    ensures 0.0 <= a <= 1.0 ==> forall c :: 0 <= c < |r| ==> Between(r[c], x[c], y[c])
  {
    var r := seq(|x|, c requires 0 <= c < |x| => x[c] * (1.0 - a) + y[c] * a);
    assert 0.0 <= a <= 1.0 ==> forall c :: 0 <= c < |r| ==> Between(r[c], x[c], y[c]) by {
      if 0.0 <= a <= 1.0 {
        forall c | 0 <= c < |r| ensures Between(r[c], x[c], y[c]) {
          BetweenLemma(x[c], y[c], a);
        }
      }
    }
    r
  }

  lemma BetweenLemma(x: real, y: real, a: real)
    requires 0.0 <= a <= 1.0
    ensures Between(x * (1.0 - a) + y * a, x, y)
  {
    assert x * (1.0 - a) + y * a == x + a * (y - x);
    if x <= y {
      MulNonNegative(a, y - x);
      MulNonNegative(1.0 - a, y - x);
    } else {
      MulNonNegative(a, x - y);
      MulNonNegative(1.0 - a, x - y);
    }
  }

  lemma MulNonNegative(a: real, d: real)
    requires a >= 0.0 && d >= 0.0
    ensures a * d >= 0.0
  {
  }

  /**
   * The frame heard at fractional source index `idx`: frames `floor(idx)` and
   * `floor(idx) + 1` mixed by the fractional part.
   */
  function Interpolate(b: SampleBuffer, idx: real): (r: seq<real>)
    requires 0.0 <= idx <= MaxIndex(b) as real
    ensures 0 <= idx.Floor && idx.Floor + 1 <= |b.frames| - 1
    ensures |r| == b.channels
    ensures forall c :: 0 <= c < b.channels ==> Between(r[c], b.frames[idx.Floor][c], b.frames[idx.Floor + 1][c])
  {
    var f := idx.Floor;
    Lerp(b.frames[f], b.frames[f + 1], idx - f as real)
  }

  /** Output frame `i` of a block: interpolated while the source index is at most MaxIndex, silent after. */
  function FrameAt(b: SampleBuffer, position: real, speed: real, i: nat): seq<real>
    requires position >= 0.0 && speed >= 0.0
  {
    var idx := SourceIndex(position, speed, i);
    if idx <= MaxIndex(b) as real then Interpolate(b, idx) else Silence(b.channels)
  }

  /** The block of `frames` frames the callback resamples from `position` at `speed`, before any effect. */
  function Resample(b: SampleBuffer, position: real, speed: real, frames: nat): (r: Block)
    requires position >= 0.0 && speed >= 0.0
    ensures |r| == frames && forall i :: 0 <= i < frames ==> |r[i]| == b.channels
  {
    seq(frames, i requires 0 <= i < frames => FrameAt(b, position, speed, i))
  }

  /** How many of the first `frames` source indices are at most MaxIndex: the valid frames of the block. */
  function ValidCount(b: Buffer, position: real, speed: real, frames: nat): (n: nat)
    ensures n <= frames
  {
    if frames == 0 then 0
    else ValidCount(b, position, speed, frames - 1) + (if SourceIndex(position, speed, frames - 1) <= MaxIndex(b) as real then 1 else 0)
  }

  /** Source indices never decrease along a block when the speed is not negative. */
  lemma SourceIndexMonotone(position: real, speed: real, i: nat, j: nat)
    requires speed >= 0.0 && i <= j
    ensures SourceIndex(position, speed, i) <= SourceIndex(position, speed, j)
  {
    assert (j as real) * speed - (i as real) * speed == (j - i) as real * speed;
  }

  /**
   * The valid frames form a prefix of the block: output frame `i` is valid
   * exactly when `i` is below the number of valid frames.
   */
  lemma {:induction false} ValidPrefix(b: Buffer, position: real, speed: real, frames: nat, i: nat)
    requires speed >= 0.0 && i < frames
    ensures SourceIndex(position, speed, i) <= MaxIndex(b) as real <==> i < ValidCount(b, position, speed, frames)
  {
    var m := MaxIndex(b) as real;
    var n := ValidCount(b, position, speed, frames - 1);
    if i < frames - 1 {
      ValidPrefix(b, position, speed, frames - 1, i);
      if SourceIndex(position, speed, frames - 1) <= m {
        SourceIndexMonotone(position, speed, i, frames - 1);
        AllValid(b, position, speed, frames - 1);
      }
    } else {
      if SourceIndex(position, speed, i) <= m {
        AllValid(b, position, speed, frames - 1);
      }
    }
  }

  /**
   * A scan that stops at the first source index past MaxIndex, or at the end
   * of the block, has counted the valid frames.
   */
  lemma ScanCountsValid(b: Buffer, position: real, speed: real, frames: nat, n: nat)
    requires speed >= 0.0 && n <= frames
    requires forall i :: 0 <= i < n ==> SourceIndex(position, speed, i) <= MaxIndex(b) as real
    requires n < frames ==> SourceIndex(position, speed, n) > MaxIndex(b) as real
    ensures n == ValidCount(b, position, speed, frames)
  {
    if n < frames {
      ValidPrefix(b, position, speed, frames, n);
    } else {
      AllValid(b, position, speed, frames);
    }
    if n > 0 {
      ValidPrefix(b, position, speed, frames, n - 1);
    }
  }

  /** When the last frame of a block is valid, every frame is. */
  lemma {:induction false} AllValid(b: Buffer, position: real, speed: real, frames: nat)
    requires speed >= 0.0
    requires frames > 0 ==> SourceIndex(position, speed, frames - 1) <= MaxIndex(b) as real
    ensures ValidCount(b, position, speed, frames) == frames
  {
    if frames > 0 {
      if frames > 1 {
        SourceIndexMonotone(position, speed, frames - 2, frames - 1);
      }
      AllValid(b, position, speed, frames - 1);
    }
  }

  /**
   * The resampled block is the interpolated valid prefix followed by silence,
   * and it is padded exactly when its last source index is past MaxIndex.
   */
  lemma PrefixThenSilence(b: SampleBuffer, position: real, speed: real, frames: nat)
    requires position >= 0.0 && speed >= 0.0
    ensures forall i :: 0 <= i < frames ==>
      (i < ValidCount(b, position, speed, frames) <==> SourceIndex(position, speed, i) <= MaxIndex(b) as real)
    ensures forall i :: 0 <= i < ValidCount(b, position, speed, frames) ==>
      Resample(b, position, speed, frames)[i] == Interpolate(b, SourceIndex(position, speed, i))
    ensures forall i :: ValidCount(b, position, speed, frames) <= i < frames ==>
      Resample(b, position, speed, frames)[i] == Silence(b.channels)
    ensures frames > 0 ==>
      (ValidCount(b, position, speed, frames) < frames <==> SourceIndex(position, speed, frames - 1) > MaxIndex(b) as real)
  {
    forall i | 0 <= i < frames
      ensures SourceIndex(position, speed, i) <= MaxIndex(b) as real <==> i < ValidCount(b, position, speed, frames)
    {
      ValidPrefix(b, position, speed, frames, i);
    }
  }

  /** A block that starts past MaxIndex has no valid frame and is all silence. */
  lemma StartPastEnd(b: SampleBuffer, position: real, speed: real, frames: nat)
    requires position >= 0.0 && speed >= 0.0
    requires position > MaxIndex(b) as real
    ensures ValidCount(b, position, speed, frames) == 0
    ensures forall i :: 0 <= i < frames ==> Resample(b, position, speed, frames)[i] == Silence(b.channels)
  {
    PrefixThenSilence(b, position, speed, frames);
    if frames > 0 {
      ValidPrefix(b, position, speed, frames, 0);
    }
  }

  /** At speed 1 from a whole-frame position, the valid frames are the buffer's own frames. */
  lemma UnitSpeedIsIdentity(b: SampleBuffer, start: nat, frames: nat, i: nat)
    requires i < frames && start + i <= MaxIndex(b)
    ensures Resample(b, start as real, 1.0, frames)[i] == b.frames[start + i]
  {
    var idx := SourceIndex(start as real, 1.0, i);
    assert idx == (start + i) as real;
    assert idx.Floor == start + i;
    var x, y := b.frames[start + i], b.frames[start + i + 1];
    var r := Lerp(x, y, 0.0);
    forall c | 0 <= c < |x| ensures r[c] == x[c] { }
    assert r == x;
  }

  /**
   * A mono buffer of ten frames read at speed 2 from position 0 in a block of
   * six frames: source indices 0, 2, 4, 6, 8 are valid and give frames 0, 2,
   * 4, 6, 8; index 10 is past the end and gives silence.
   */
  lemma PaddingExample(b: SampleBuffer)
    requires |b.frames| == 10 && b.channels == 1
    ensures ValidCount(b, 0.0, 2.0, 6) == 5
    ensures forall i :: 0 <= i < 5 ==> Resample(b, 0.0, 2.0, 6)[i] == b.frames[2 * i]
    ensures Resample(b, 0.0, 2.0, 6)[5] == [0.0]
  {
    ValidPrefix(b, 0.0, 2.0, 6, 4);
    ValidPrefix(b, 0.0, 2.0, 6, 5);
    forall i | 0 <= i < 5 ensures Resample(b, 0.0, 2.0, 6)[i] == b.frames[2 * i] {
      var idx := SourceIndex(0.0, 2.0, i);
      assert idx == (2 * i) as real;
      assert idx.Floor == 2 * i;
      var x, y := b.frames[2 * i], b.frames[2 * i + 1];
      var r := Lerp(x, y, 0.0);
      forall c | 0 <= c < |x| ensures r[c] == x[c] { }
      assert r == x;
    }
  }
}
