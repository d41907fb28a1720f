/**
 * The playback engine (core/audio_engine.py): the control state machine and
 * the block producer the output driver calls for every block.
 *
 * The output stream is kept as the parameters it was opened with, or None
 * when closed; the decoder and the file-system existence test are parameters.
 */
module Engine {
  import opened Wrappers
  import opened Effects
  import opened Resampling

  /** An open output stream: the sample rate, channel count and block size it was opened with. */
  datatype Stream = Stream(samplerate: int, channels: nat, blocksize: nat)

  /** The block size the engine asks the output driver for. */
  const BlockSize: nat := 2048

  /** What the decoder is asked to read: raw bytes in memory or a file path. */
  datatype Source = FromBytes(bytes: seq<bv8>) | FromPath(path: string)

  /** The decoder's outcome: a buffer and its sample rate, or a raised error. */
  datatype Decoded = Decoded(buffer: SampleBuffer, fs: int) | DecodeError

  /** The decoder run for a load request: bytes are preferred, then an existing path; anything else fails. */
  function DecodeRequest(filePath: Option<string>, fileData: Option<seq<bv8>>,
                         pathExists: string -> bool, decode: Source -> Decoded): Decoded
  {
    if fileData.Some? && |fileData.value| > 0 then decode(FromBytes(fileData.value))
    else if filePath.Some? && |filePath.value| > 0 then
      (if pathExists(filePath.value) then decode(FromPath(filePath.value)) else DecodeError)
    else DecodeError
  }

  /** `lo` if `x` is below it, `hi` if above, `x` itself otherwise. */
  function Clamp(x: real, lo: real, hi: real): (r: real)
    requires lo <= hi
    ensures lo <= r <= hi
    ensures lo <= x <= hi ==> r == x
    ensures x < lo ==> r == lo
    ensures x > hi ==> r == hi
  {
    var m := if x < hi then x else hi;
    if lo > m then lo else m
  }

  /** A frame scaled by the volume. */
  function ScaleFrame(v: real, f: seq<real>): (r: seq<real>)
    ensures |r| == |f| && forall c :: 0 <= c < |f| ==> r[c] == v * f[c]
  {
    seq(|f|, c requires 0 <= c < |f| => v * f[c])
  }

  /** A block scaled by the volume, frame by frame. */
  function ScaleBlock(v: real, b: Block): (r: Block)
    ensures |r| == |b| && forall i :: 0 <= i < |b| ==> r[i] == ScaleFrame(v, b[i])
  {
    seq(|b|, i requires 0 <= i < |b| => ScaleFrame(v, b[i]))
  }

  /** A block of silent frames of the given widths, as `fill(0)` leaves it. */
  function Cleared(b: Block): (r: Block)
    ensures |r| == |b| && forall i :: 0 <= i < |b| ==> r[i] == Silence(|b[i]|)
  {
    seq(|b|, i requires 0 <= i < |b| => Silence(|b[i]|))
  }

  class AudioEngine {
    var stream: Option<Stream>
    var data: Option<SampleBuffer>
    var samplerate: int
    var position: real
    var playing: bool
    var volume: real
    var speed: real
    const eq: Equalizer
    const limiter: MultiBandLimiter

    /**
     * The engine's invariant: volume within [0, 1], speed and position not
     * negative, playing only with a buffer and an open stream, and an open
     * stream matches the loaded buffer.
     */
    ghost predicate Valid()
      reads this, eq, limiter
    {
      eq.Valid() && limiter.Valid() &&
      0.0 <= volume <= 1.0 && speed >= 0.0 && position >= 0.0 &&
      (playing ==> data.Some? && stream.Some?) &&
      (stream.Some? ==> data.Some? && stream.value.channels == data.value.channels &&
                        stream.value.samplerate == samplerate && stream.value.blocksize == BlockSize)
    }

    constructor (eqChain: Processor<seq<Filter>>, limiterChain: Processor<Compressor>)
      requires ShapePreserving(eqChain) && ShapePreserving(limiterChain)
      ensures Valid() && fresh(eq) && fresh(limiter)
      ensures stream == None && data == None && samplerate == 44100
      ensures position == 0.0 && !playing && volume == 1.0 && speed == 1.0
      ensures eq.sampleRate == 44100 && eq.gains == seq(10, _ => 0.0) && limiter.sampleRate == 44100
      ensures eq.chain == eqChain && limiter.chain == limiterChain
      ensures limiter.compressor == Compressor(-12.0, 1.5, 10.0, 1000.0)
    {
      stream := None;
      data := None;
      samplerate := 44100;
      position := 0.0;
      playing := false;
      volume := 1.0;
      eq := new Equalizer(44100, eqChain);
      limiter := new MultiBandLimiter(44100, limiterChain);
      speed := 1.0;
    }

    /**
     * Stops playback and decodes a new track. On success the buffer and sample
     * rate are replaced and the effects are told the new rate; on failure they
     * are left as they were. Either way the engine is stopped.
     */
    method LoadTrack(filePath: Option<string>, fileData: Option<seq<bv8>>,
                     pathExists: string -> bool, decode: Source -> Decoded) returns (ok: bool)
      requires Valid()
      modifies this, eq`sampleRate, limiter`sampleRate
      ensures Valid()
      ensures !playing && position == 0.0 && stream == None
      ensures volume == old(volume) && speed == old(speed)
      ensures ok <==> DecodeRequest(filePath, fileData, pathExists, decode).Decoded?
      ensures ok ==> var d := DecodeRequest(filePath, fileData, pathExists, decode);
        data == Some(d.buffer) && samplerate == d.fs && eq.sampleRate == d.fs && limiter.sampleRate == d.fs
      ensures !ok ==>
        (data == old(data) && samplerate == old(samplerate) &&
         eq.sampleRate == old(eq.sampleRate) && limiter.sampleRate == old(limiter.sampleRate))
    {
      Stop();
      var decoded: Decoded;
      if fileData.Some? && |fileData.value| > 0 {
        decoded := decode(FromBytes(fileData.value));
      } else if filePath.Some? && |filePath.value| > 0 {
        if !pathExists(filePath.value) {
          return false;
        }
        decoded := decode(FromPath(filePath.value));
      } else {
        return false;
      }
      if decoded.DecodeError? {
        return false;
      }
      data := Some(decoded.buffer);
      samplerate := decoded.fs;
      position := 0.0;
      eq.sampleRate := decoded.fs;
      limiter.sampleRate := decoded.fs;
      return true;
    }

    /** Opens a stream for the loaded buffer if none is open and starts playing; without a buffer, nothing. */
    method Play()
      requires Valid()
      modifies this`stream, this`playing
      ensures Valid()
      ensures old(data) == None ==> stream == old(stream) && playing == old(playing)
      ensures old(data) != None ==>
        (playing &&
         stream == (if old(stream) == None then Some(Stream(samplerate, data.value.channels, BlockSize)) else old(stream)))
    {
      if data == None {
        return;
      }
      if stream == None {
        stream := Some(Stream(samplerate, data.value.channels, BlockSize));
      }
      playing := true;
    }

    /** Stops playing, keeping the position and the stream. */
    method Pause()
      requires Valid()
      modifies this`playing
      ensures Valid() && !playing
    {
      playing := false;
    }

    /** Stops playing, rewinds to the start and closes the stream. */
    method Stop()
      requires Valid()
      modifies this`playing, this`position, this`stream
      ensures Valid()
      ensures !playing && position == 0.0 && stream == None
    {
      playing := false;
      position := 0.0;
      if stream != None {
        stream := None;
      }
    }

    /** Moves to `seconds` into the track, clamped to the buffer; without a buffer, nothing. */
    method Seek(seconds: real)
      requires Valid()
      modifies this`position
      ensures Valid()
      ensures old(data) == None ==> position == old(position)
      ensures old(data) != None ==>
        position == Clamp(seconds * samplerate as real, 0.0, |data.value.frames| as real)
    {
      if data != None {
        var samplePos := seconds * samplerate as real;
        position := Clamp(samplePos, 0.0, |data.value.frames| as real);
      }
    }

    /** Stores the volume clamped to [0, 1]. */
    method SetVolume(v: real)
      requires Valid()
      modifies this`volume
      ensures Valid() && volume == Clamp(v, 0.0, 1.0)
    {
      volume := Clamp(v, 0.0, 1.0);
    }

    /** Stores a speed that is not negative; a negative speed is ignored. */
    method SetSpeed(s: real)
      requires Valid()
      modifies this`speed
      ensures Valid()
      ensures speed == if s >= 0.0 then s else old(speed)
    {
      if s >= 0.0 {
        speed := s;
      }
    }

    /**
     * Fills one output block. Paused or without a buffer, the block is
     * silent. Past the end of the track, the block is silent and playing
     * stops. Otherwise the block is resampled from the buffer (interpolated
     * valid frames, then silence, and playing stops if any frame was past the
     * end), the position advances by a whole block, and the block goes
     * through the equalizer, the limiter and the volume, in that order.
     */
    method Callback(outdata: array<seq<real>>)
      requires Valid()
      requires playing && data.Some? ==>
        (outdata.Length > 0 && forall k :: 0 <= k < outdata.Length ==> |outdata[k]| == data.value.channels)
      modifies this`position, this`playing, outdata
      ensures Valid()
      ensures !old(playing) || data == None ==>
        position == old(position) && playing == old(playing) && outdata[..] == Cleared(old(outdata[..]))
      ensures old(playing) && data != None && old(position) > MaxIndex(data.value) as real ==>
        position == old(position) && !playing && outdata[..] == Cleared(old(outdata[..]))
      ensures old(playing) && data != None && old(position) <= MaxIndex(data.value) as real ==>
        position == old(position) + outdata.Length as real * speed &&
        playing == (ValidCount(data.value, old(position), speed, outdata.Length) == outdata.Length) &&
        outdata[..] == ScaleBlock(volume, limiter.Process(eq.Process(Resample(data.value, old(position), speed, outdata.Length))))
    {
      if !playing || data == None {
        Clear(outdata);
        return;
      }
      var frames := outdata.Length;
      var maxIdx := |data.value.frames| - 2;
      if position > maxIdx as real {
        Clear(outdata);
        playing := false;
        return;
      }
      var outLen := Render(data.value, position, speed, outdata);
      if outLen < frames {
        playing := false;
      }
      position := position + frames as real * speed;
      Overwrite(outdata, eq.Process(outdata[..]));
      Overwrite(outdata, limiter.Process(outdata[..]));
      Scale(outdata, volume);
    }
  }

  /** Silences every frame of an output block in place, keeping its width. */
  method Clear(outdata: array<seq<real>>)
    modifies outdata
    ensures outdata[..] == Cleared(old(outdata[..]))
  {
    forall k | 0 <= k < outdata.Length {
      outdata[k] := Silence(|outdata[k]|);
    }
  }

  /** Replaces the contents of an output block with a block of the same length. */
  method Overwrite(outdata: array<seq<real>>, b: Block)
    requires |b| == outdata.Length
    modifies outdata
    ensures outdata[..] == b
  {
    forall k | 0 <= k < outdata.Length {
      outdata[k] := b[k];
    }
  }

  /** Multiplies an output block by the volume in place. */
  method Scale(outdata: array<seq<real>>, v: real)
    modifies outdata
    ensures outdata[..] == ScaleBlock(v, old(outdata[..]))
  {
    forall k | 0 <= k < outdata.Length {
      outdata[k] := ScaleFrame(v, outdata[k]);
    }
  }

  /**
   * Writes the resampled block into `outdata`: the interpolated valid frames
   * first, then silence, and returns how many frames were valid.
   */
  method Render(buf: SampleBuffer, position: real, speed: real, outdata: array<seq<real>>) returns (outLen: nat)
    requires position >= 0.0 && speed >= 0.0
    modifies outdata
    ensures outLen == ValidCount(buf, position, speed, outdata.Length)
    ensures outdata[..] == Resample(buf, position, speed, outdata.Length)
  {
    var frames := outdata.Length;
    ghost var block := Resample(buf, position, speed, frames);
    PrefixThenSilence(buf, position, speed, frames);
    outLen := CountValid(buf, position, speed, frames);
    // Interpolate the valid frames.
    var i := 0;
    while i < outLen
      invariant 0 <= i <= outLen
      invariant forall k :: 0 <= k < i ==> outdata[k] == block[k]
    {
      var idx := SourceIndex(position, speed, i);
      var f := idx.Floor;
      var alpha := idx - f as real;
      outdata[i] := Lerp(buf.frames[f], buf.frames[f + 1], alpha);
      i := i + 1;
    }
    // Pad the rest of the block with silence.
    while i < frames
      invariant outLen <= i <= frames
      invariant forall k :: 0 <= k < i ==> outdata[k] == block[k]
    {
      outdata[i] := Silence(buf.channels);
      i := i + 1;
    }
    assert outdata[..] == block;
  }

  /** Counts the leading frames of a block whose source index is at most MaxIndex, as the valid mask does. */
  method CountValid(buf: SampleBuffer, position: real, speed: real, frames: nat) returns (n: nat)
    requires speed >= 0.0
    ensures n == ValidCount(buf, position, speed, frames)
  {
    var maxIdx := |buf.frames| - 2;
    n := 0;
    while n < frames && SourceIndex(position, speed, n) <= maxIdx as real
      invariant 0 <= n <= frames
      invariant forall i :: 0 <= i < n ==> SourceIndex(position, speed, i) <= maxIdx as real
    {
      n := n + 1;
    }
    ScanCountsValid(buf, position, speed, frames, n);
  }

  /**
   * End of track is signalled once: after the callback that finds the
   * position past the end, a further callback is silent and changes nothing.
   */
  method EndOfTrackIsFinal(e: AudioEngine, first: array<seq<real>>, second: array<seq<real>>)
    requires e.Valid() && e.playing && e.data.Some? && e.position > MaxIndex(e.data.value) as real
    requires first.Length > 0 && forall k :: 0 <= k < first.Length ==> |first[k]| == e.data.value.channels
    modifies e`position, e`playing, first, second
    ensures e.Valid() && !e.playing && e.position == old(e.position)
    ensures first[..] == Cleared(old(first[..]))
    ensures second[..] == Cleared(old(second[..]))
  {
    ghost var before := second[..];
    e.Callback(first);
    ghost var between := second[..];
    assert second != first ==> between == before;
    assert second == first ==> Cleared(between) == Cleared(before);
    e.Callback(second);
  }
}
