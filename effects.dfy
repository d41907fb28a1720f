/**
 * The equalizer and limiter of the effects chain (core/effects.py).
 *
 * The filters themselves are computed by a foreign DSP library; the model keeps
 * the parameter tables the source maintains and treats the processing as an
 * opaque, shape-preserving function of those parameters and the input block.
 */
module Effects {

  /** A block of audio: a sequence of frames, each holding one sample per channel. */
  type Block = seq<seq<real>>

  /** `out` has as many frames as `b`, and each frame as many channels. */
  predicate SameShape(out: Block, b: Block) {
    |out| == |b| && forall i :: 0 <= i < |b| ==> |out[i]| == |b[i]|
  }

  /**
   * A foreign processor: from the sample rate, its parameters and an input
   * block, the output block.
   */
  type Processor<-P> = (int, P, Block) -> Block

  /** Runs a processor on one block. */
  function Run<P>(f: Processor<P>, sampleRate: int, params: P, b: Block): Block {
    f(sampleRate, params, b)
  }

  /** The processor returns a block of the shape it is given. */
  ghost predicate ShapePreserving<P(!new)>(f: Processor<P>) {
    forall sampleRate, params, b :: SameShape(Run(f, sampleRate, params, b), b)
  }

  datatype FilterKind = LowShelf | HighShelf | Peak

  /** One filter of the equalizer's board. */
  datatype Filter = Filter(kind: FilterKind, cutoffHz: int, gainDb: real, q: real)

  /** The ten centre frequencies of the equalizer, in Hz. */
  const Bands: seq<int> := [32, 64, 125, 250, 500, 1000, 2000, 4000, 8000, 16000]

  /**
   * The flat filter the equalizer creates for band `i` of `n` at `freq`:
   * a low shelf first, a high shelf last, peak filters between.
   */
  function BandFilter(i: nat, n: nat, freq: int): Filter {
    if i == 0 then Filter(LowShelf, freq, 0.0, 0.707)
    else if i == n - 1 then Filter(HighShelf, freq, 0.0, 0.707)
    else Filter(Peak, freq, 0.0, 1.0)
  }

  class Equalizer {
    var sampleRate: int
    const bands: seq<int>
    var gains: seq<real>
    /** The filter board handed to the DSP library, one filter per band. */
    var board: seq<Filter>
    const chain: Processor<seq<Filter>>

    /** The gain table and the board agree band for band; the bands never change. */
    ghost predicate Valid()
      reads this
    {
      bands == Bands && |gains| == |bands| && |board| == |bands| &&
      ShapePreserving(chain) &&
      forall i :: 0 <= i < |board| ==> board[i] == BandFilter(i, |bands|, bands[i]).(gainDb := gains[i])
    }

    constructor (sampleRate: int, chain: Processor<seq<Filter>>)
      requires ShapePreserving(chain)
      ensures Valid()
      ensures this.sampleRate == sampleRate && this.chain == chain
      ensures bands == [32, 64, 125, 250, 500, 1000, 2000, 4000, 8000, 16000]
      ensures gains == [0.0, 0.0, 0.0, 0.0, 0.0, 0.0, 0.0, 0.0, 0.0, 0.0]
      ensures board[0].kind == LowShelf && board[9].kind == HighShelf
      ensures forall i :: 1 <= i < 9 ==> board[i].kind == Peak && board[i].q == 1.0
      ensures board[0].q == 0.707 && board[9].q == 0.707
      ensures forall i :: 0 <= i < 10 ==> board[i].cutoffHz == Bands[i] && board[i].gainDb == 0.0
    {
      this.sampleRate := sampleRate;
      bands := Bands;
      gains := seq(|Bands|, _ => 0.0);
      var filters: seq<Filter> := [];
      for i := 0 to |Bands|
        invariant |filters| == i
        invariant forall k :: 0 <= k < i ==> filters[k] == BandFilter(k, |Bands|, Bands[k])
      {
        filters := filters + [BandFilter(i, |Bands|, Bands[i])];
      }
      board := filters;
      this.chain := chain;
    }

    /** Sets one band's gain in the table and on its filter; an index out of range is ignored. */
    method SetGain(bandIndex: int, gainDb: real)
      requires Valid()
      modifies this`gains, this`board
      ensures Valid()
      ensures 0 <= bandIndex < |bands| ==>
        gains == old(gains)[bandIndex := gainDb] &&
        board == old(board)[bandIndex := old(board[bandIndex]).(gainDb := gainDb)]
      ensures !(0 <= bandIndex < |bands|) ==> gains == old(gains) && board == old(board)
    {
      if 0 <= bandIndex < |gains| {
        gains := gains[bandIndex := gainDb];
        board := board[bandIndex := board[bandIndex].(gainDb := gainDb)];
      }
    }

    /** The equalized block, as the DSP library computes it from the current board. */
    function Process(data: Block): (r: Block)
      reads this
      requires Valid()
      ensures SameShape(r, data)
    {
      Run(chain, sampleRate, board, data)
    }
  }

  /** The settings of the limiter's single compressor. */
  datatype Compressor = Compressor(thresholdDb: real, ratio: real, attackMs: real, releaseMs: real)

  class MultiBandLimiter {
    var sampleRate: int
    const compressor: Compressor
    const chain: Processor<Compressor>

    ghost predicate Valid()
      reads this
    {
      ShapePreserving(chain)
    }

    constructor (sampleRate: int, chain: Processor<Compressor>)
      requires ShapePreserving(chain)
      ensures Valid()
      ensures this.sampleRate == sampleRate && this.chain == chain
      ensures compressor == Compressor(-12.0, 1.5, 10.0, 1000.0)
    {
      this.sampleRate := sampleRate;
      compressor := Compressor(-12.0, 1.5, 10.0, 1000.0);
      this.chain := chain;
    }

    /** Accepts new limiter parameters and ignores them: nothing changes. */
    method SetParams(thresholdDb: real, kneeWidthDb: real, ratio: real, attackTime: real, releaseTime: real)
      ensures unchanged(this)
    {
    }

    /** The limited block, as the DSP library computes it from the compressor settings. */
    function Process(data: Block): (r: Block)
      reads this
      requires Valid()
      ensures SameShape(r, data)
    {
      Run(chain, sampleRate, compressor, data)
    }
  }
}
