/**
  test_encode: generate the 60 s sweep, then encode and decode it frame by
  frame in a do-while over `samp_count`, stopping at the first failed call.
 */
module RoundTrip {
  import opened Codec
  import opened Sampling
  import opened SineSweep

  /** SINE_SWEEP_DURATION_S. */
  const SweepSeconds: nat := 60

  /** test_encode always asks for a 16-bit sweep (float when float_encode). */
  const SweepBitDepth: int := 16

  /** TestCustomParams, with the two void* handles as pointers. */
  datatype TestCustomParams = TestCustomParams(
    encoder: Ptr,
    decoder: Ptr,
    sampleRate: int,
    numChannels: int,
    frameSize: int,
    floatEncode: bool,
    floatDecode: bool,
    customEncode: bool,
    customDecode: bool)

  /** The encode entry point the flags select. */
  function EncoderApi(p: TestCustomParams): (api: Api)
    ensures api.profile == Custom <==> p.customEncode
  {
    Api(ProfileOf(p.customEncode), p.floatEncode)
  }

  /** The decode entry point the flags select. */
  function DecoderApi(p: TestCustomParams): (api: Api)
    ensures api.profile == Custom <==> p.customDecode
  {
    Api(ProfileOf(p.customDecode), p.floatDecode)
  }

  /** The casts in test_encode are sound: `encoder` and `decoder` hold objects
      made by the constructors that the custom flags name. */
  predicate HandlesMatch(p: TestCustomParams)
  {
    && p.encoder.Ptr? && p.encoder.handle.kind == Encoder
    && p.encoder.handle.profile == ProfileOf(p.customEncode)
    && p.decoder.Ptr? && p.decoder.handle.kind == Decoder
    && p.decoder.handle.profile == ProfileOf(p.customDecode)
  }

  /** The frames of the sweep tile it exactly, so the do-while stays inside
      both buffers (see DoWhileStaysInBuffer). */
  predicate Runnable(p: TestCustomParams)
  {
    && p.sampleRate > 0
    && p.frameSize > 0
    && (p.numChannels == 1 || p.numChannels == 2)
    && NumSamples(SweepSeconds, p.sampleRate) % p.frameSize == 0
  }

  function NumFrames(p: TestCustomParams): nat
    requires Runnable(p)
  {
    NumSamples(SweepSeconds, p.sampleRate) / p.frameSize
  }

  function SweepFormat(p: TestCustomParams): Format
  {
    FormatOf(SweepBitDepth, p.floatEncode)
  }

  /** The contents of test_encode's input buffer. */
  function SweepInput(p: TestCustomParams, io: RunIo): seq<int>
    requires Runnable(p)
  {
    Interleave(io.sweep, SweepFormat(p), p.numChannels, NumSamples(SweepSeconds, p.sampleRate))
  }

  /** Frame `k` of a runnable configuration lies inside a buffer of
      `NumSamples * numChannels` slots. */
  lemma FrameBounds(p: TestCustomParams, k: nat)
    requires Runnable(p) && k < NumFrames(p)
    ensures (k + 1) * p.frameSize <= NumSamples(SweepSeconds, p.sampleRate)
    ensures (k * p.frameSize + p.frameSize) * p.numChannels <= NumSamples(SweepSeconds, p.sampleRate) * p.numChannels
  {
    var total := NumSamples(SweepSeconds, p.sampleRate);
    var n := NumFrames(p);
    assert total == n * p.frameSize;
    assert (k + 1) * p.frameSize <= n * p.frameSize by {
      MulLeq(k + 1, n, p.frameSize);
    }
    MulLeq((k + 1) * p.frameSize, total, p.numChannels);
  }

  lemma MulLeq(a: nat, b: nat, c: nat)
    requires a <= b
    ensures a * c <= b * c
  {
  }

  /** The packet length the encoder returns for frame `k`: the encode call
      reads the frame_size * num_channels slots from samp_count * num_channels. */
  function EncodeLen(p: TestCustomParams, io: RunIo, k: nat): int
    requires Runnable(p) && HandlesMatch(p) && k < NumFrames(p)
  {
    var offset := k * p.frameSize;
    var lo := offset * p.numChannels;
    FrameBounds(p, k);
    io.encode(p.encoder.handle, EncoderApi(p), offset, SweepInput(p, io)[lo .. lo + p.frameSize * p.numChannels])
  }

  /** Frame `k` passes: its encode returns a positive length and its decode
      returns exactly frame_size samples. */
  predicate FrameOk(p: TestCustomParams, io: RunIo, k: nat)
    ensures FrameOk(p, io, k) ==> Runnable(p) && HandlesMatch(p) && k < NumFrames(p) && EncodeLen(p, io, k) > 0
  {
    && Runnable(p)
    && HandlesMatch(p)
    && k < NumFrames(p)
    && EncodeLen(p, io, k) > 0
    && io.decode(p.decoder.handle, DecoderApi(p), k * p.frameSize, EncodeLen(p, io, k)) == p.frameSize
  }

  /** `out` with frame `k` of width `w` (slots k*w up to k*w + w) holding
      `pcm(k, 0)`, ..., `pcm(k, w - 1)`; every other slot keeps its value. */
  function Frame(out: seq<int>, k: nat, w: nat, pcm: (nat, nat) -> int): (r: seq<int>)
    ensures |r| == |out|
  {
    seq(|out|, j requires 0 <= j < |out| => if k * w <= j < k * w + w then pcm(k, j - k * w) else out[j])
  }

  /** `out` after frames 0 to m-1 of width `w` were attempted, each frame
      with `written(k)` having been overwritten by `pcm`. */
  function Frames(out: seq<int>, w: nat, m: nat, written: nat -> bool, pcm: (nat, nat) -> int): (r: seq<int>)
    ensures |r| == |out|
  {
    if m == 0 then out
    else if written(m - 1) then Frame(Frames(out, w, m - 1, written, pcm), m - 1, w, pcm)
    else Frames(out, w, m - 1, written, pcm)
  }

  /** After frames 0 to m-1, slot j of every earlier written frame holds its
      PCM value. */
  lemma {:induction false} FramesHold(out: seq<int>, w: nat, m: nat, written: nat -> bool, pcm: (nat, nat) -> int, k: nat, j: nat)
    requires m * w <= |out| && k < m && written(k) && j < w
    ensures k * w + j < |out|
    ensures Frames(out, w, m, written, pcm)[k * w + j] == pcm(k, j)
  {
    MulLeq(k + 1, m, w);
    if k < m - 1 {
      MulLeq(k + 1, m - 1, w);
      FramesHold(out, w, m - 1, written, pcm, k, j);
    }
  }

  /** After frames 0 to m-1, every slot from m*w on keeps its value. */
  lemma {:induction false} FramesLeave(out: seq<int>, w: nat, m: nat, written: nat -> bool, pcm: (nat, nat) -> int, i: nat)
    requires m * w <= i < |out|
    ensures Frames(out, w, m, written, pcm)[i] == out[i]
  {
    if m > 0 {
      MulLeq(m - 1, m, w);
      FramesLeave(out, w, m - 1, written, pcm, i);
    }
  }

  /** The decoder's output for frame `k`, slot `j` of the frame. */
  function Pcm(p: TestCustomParams, io: RunIo): (nat, nat) -> int
    requires Runnable(p)
  {
    (k: nat, j: nat) => io.pcm(DecoderApi(p), k * p.frameSize, j)
  }

  /** Frame `k` was handed to the decoder: its encode returned a packet. */
  function Encoded(p: TestCustomParams, io: RunIo): nat -> bool
    requires Runnable(p) && HandlesMatch(p)
  {
    (k: nat) => k < NumFrames(p) && EncodeLen(p, io, k) > 0
  }

  /** The output buffer after frames 0 to m-1 of the do-while: the decoder
      wrote the frame_size * num_channels slots from samp_count * num_channels
      of each frame whose encode succeeded. */
  function OutAfter(p: TestCustomParams, io: RunIo, out: seq<int>, m: nat): seq<int>
    requires Runnable(p) && HandlesMatch(p)
  {
    Frames(out, p.frameSize * p.numChannels, m, Encoded(p, io), Pcm(p, io))
  }

  /** Slots per frame in the interleaved buffers: frame_size * num_channels. */
  function FrameWidth(p: TestCustomParams): nat
    requires Runnable(p)
  {
    p.frameSize * p.numChannels
  }

  /** After the frames before `m`, slot `j` of every earlier frame whose
      encode succeeded holds that frame's decoded PCM. */
  lemma OutAfterHoldsDecoded(p: TestCustomParams, io: RunIo, out: seq<int>, m: nat, k: nat, j: nat)
    requires Runnable(p) && HandlesMatch(p) && m <= NumFrames(p)
    requires |out| == NumSamples(SweepSeconds, p.sampleRate) * p.numChannels
    requires k < m && EncodeLen(p, io, k) > 0 && j < FrameWidth(p)
    ensures k * FrameWidth(p) + j < |out|
    ensures OutAfter(p, io, out, m)[k * FrameWidth(p) + j] == Pcm(p, io)(k, j)
  {
    OutAfterFits(p, m);
    assert Encoded(p, io)(k);
    FramesHold(out, FrameWidth(p), m, Encoded(p, io), Pcm(p, io), k, j);
  }

  /** After the frames before `m`, the slots from frame m on are untouched. */
  lemma OutAfterLeavesRest(p: TestCustomParams, io: RunIo, out: seq<int>, m: nat, i: nat)
    requires Runnable(p) && HandlesMatch(p)
    requires m * FrameWidth(p) <= i < |out|
    ensures OutAfter(p, io, out, m)[i] == out[i]
  {
    FramesLeave(out, FrameWidth(p), m, Encoded(p, io), Pcm(p, io), i);
  }

  /** The first m frames fit in a buffer of NumSamples * numChannels slots. */
  lemma OutAfterFits(p: TestCustomParams, m: nat)
    requires Runnable(p) && m <= NumFrames(p)
    ensures m * FrameWidth(p) <= NumSamples(SweepSeconds, p.sampleRate) * p.numChannels
  {
    NumFramesTiles(p);
    MulLeq(m, NumFrames(p), p.frameSize);
    MulLeq(m * p.frameSize, NumFrames(p) * p.frameSize, p.numChannels);
  }

  /** The least `k` in [from, n) with `!ok(k)`, or `n` when there is none. */
  function FirstFailure(ok: nat -> bool, from: nat, n: nat): (k: nat)
    requires from <= n
    ensures from <= k <= n
    ensures forall j | from <= j < k :: ok(j)
    ensures k < n ==> !ok(k)
    decreases n - from
  {
    if from == n then n
    else if !ok(from) then from
    else FirstFailure(ok, from + 1, n)
  }

  /** The contract of FirstFailure determines it. */
  lemma {:induction false} FirstFailureUnique(ok: nat -> bool, from: nat, n: nat, k: nat)
    requires from <= k <= n
    requires forall j | from <= j < k :: ok(j)
    requires k < n ==> !ok(k)
    ensures FirstFailure(ok, from, n) == k
    decreases n - from
  {
    if from < k {
      FirstFailureUnique(ok, from + 1, n, k);
    }
  }

  /** Number of frames test_encode attempts once both buffers exist: up to and
      including the first failing frame, or all of them. */
  function FramesTried(p: TestCustomParams, io: RunIo): nat
    requires Runnable(p)
  {
    var first := FirstFailure((k: nat) => FrameOk(p, io, k), 0, NumFrames(p));
    if first < NumFrames(p) then first + 1 else NumFrames(p)
  }

  /** What test_encode returns: 0 when both buffers exist and every frame
      passes, -1 otherwise. */
  function EncodeOutcome(p: TestCustomParams, io: RunIo): int
    requires Runnable(p)
  {
    if io.sweepAllocOk && io.outAllocOk && forall k | 0 <= k < NumFrames(p) :: FrameOk(p, io, k) then 0 else -1
  }

  /**
    One pass of test_encode's do-while body before the advance: encode the
    frame at `sampCount` from `inbuf`, then (if that succeeded) decode it into
    the same slots of `outbuf`. `ok` is false where the source sets ret = -1
    and breaks.
   */
  method EncodeDecodeFrame(params: TestCustomParams, io: RunIo, inbuf: array<int>, outbuf: array<int>,
                           sampCount: nat, ghost k: nat)
    returns (ok: bool)
    requires Runnable(params) && HandlesMatch(params)
    requires k < NumFrames(params) && sampCount == k * params.frameSize
    requires inbuf[..] == SweepInput(params, io)
    requires outbuf.Length == inbuf.Length && outbuf != inbuf
    modifies outbuf
    ensures ok == FrameOk(params, io, k)
    ensures inbuf[..] == old(inbuf[..])
    ensures outbuf[..] == if EncodeLen(params, io, k) > 0
                          then Frame(old(outbuf[..]), k, params.frameSize * params.numChannels, Pcm(params, io))
                          else old(outbuf[..])
  {
    FrameBounds(params, k);
    var lo := sampCount * params.numChannels;
    var width := params.frameSize * params.numChannels;
    var hi := lo + width;
    assert inbuf[lo..hi] == SweepInput(params, io)[lo..hi];
    var len := io.encode(params.encoder.handle, EncoderApi(params), sampCount, inbuf[lo..hi]);
    if len <= 0 {
      return false;
    }
    var decoded := io.decode(params.decoder.handle, DecoderApi(params), sampCount, len);
    WriteFrame(outbuf, lo, width, (j: nat) => io.pcm(DecoderApi(params), sampCount, j), k, Pcm(params, io));
    ok := decoded == params.frameSize;
  }

  /** The decoder writing frame `k`, `w` samples from slot `lo` = k * w, into
      `out`: slot j of the frame receives `samples(j)`, which is `pcm(k, j)`. */
  method WriteFrame(out: array<int>, lo: nat, w: nat, samples: nat -> int, ghost k: nat, ghost pcm: (nat, nat) -> int)
    requires lo == k * w && lo + w <= out.Length
    requires forall j: nat :: samples(j) == pcm(k, j)
    modifies out
    ensures out[..] == Frame(old(out[..]), k, w, pcm)
  {
    forall j | lo <= j < lo + w {
      out[j] := samples(j - lo);
    }
  }

  /**
    test_encode. `ret` is -1 exactly when a buffer could not be allocated or
    some frame's encode or decode failed; otherwise 0. The loop stops at the
    first failing frame and, once the buffers exist, always runs at least one.
    `frames` counts the frames attempted.
   */
  method TestEncode(params: TestCustomParams, io: RunIo) returns (ret: int, ghost frames: nat)
    requires Runnable(params) && HandlesMatch(params)
    ensures ret == 0 || ret == -1
    ensures ret == 0 <==> io.sweepAllocOk && io.outAllocOk
                          && forall k | 0 <= k < NumFrames(params) :: FrameOk(params, io, k)
    ensures frames == if io.sweepAllocOk && io.outAllocOk then FramesTried(params, io) else 0
    ensures io.sweepAllocOk && io.outAllocOk ==> 1 <= frames <= NumFrames(params)
  {
    var numChannels := params.numChannels;
    var frameSize := params.frameSize;
    var inbuf, inputSamples, inputBytes := GenerateSineSweep(SweepBitDepth, params.sampleRate, numChannels,
                                                 params.floatEncode, SweepSeconds, io.sweepAllocOk, io.sweep);
    var outbuf: array?<int> := null;
    if io.outAllocOk {
      outbuf := new int[inputSamples * numChannels];
    }
    if inbuf == null || outbuf == null {
      return -1, 0;
    }

    ret, frames := EncodeDecodeFrames(params, io, inbuf, outbuf, inputSamples);
    LoopExit(params, io, frames, ret != 0);
  }

  /** A runnable configuration's sweep is a whole, positive number of frames. */
  lemma NumFramesTiles(p: TestCustomParams)
    requires Runnable(p)
    ensures NumFrames(p) >= 1 && NumSamples(SweepSeconds, p.sampleRate) == NumFrames(p) * p.frameSize
  {
  }

  /**
    The do-while of test_encode over the `inputSamples` samples of `inbuf`:
    frames are encoded and decoded in order until one fails or `samp_count`
    reaches the end; the frames before the last one attempted all passed.
   */
  method EncodeDecodeFrames(params: TestCustomParams, io: RunIo, inbuf: array<int>, outbuf: array<int>,
                            inputSamples: nat)
    returns (ret: int, ghost frames: nat)
    requires Runnable(params) && HandlesMatch(params)
    requires inputSamples == NumSamples(SweepSeconds, params.sampleRate)
    requires inbuf[..] == SweepInput(params, io)
    requires outbuf.Length == inbuf.Length && outbuf != inbuf
    modifies outbuf
    ensures ret == 0 || ret == -1
    ensures 1 <= frames <= NumFrames(params)
    ensures forall k | 0 <= k < frames - 1 :: FrameOk(params, io, k)
    ensures if ret != 0 then !FrameOk(params, io, frames - 1)
            else frames == NumFrames(params) && FrameOk(params, io, frames - 1)
    ensures ret == 0 ==> frames == DoWhileFrames(inputSamples, params.frameSize)
    ensures outbuf[..] == OutAfter(params, io, old(outbuf[..]), frames)
  {
    var frameSize := params.frameSize;
    ghost var n := NumFrames(params);
    NumFramesTiles(params);
    SweepDoWhileFrames(params);
    var sampCount := 0;
    ret := 0;
    frames := 0;
    while true
      invariant frames < n && sampCount == frames * frameSize
      invariant inbuf[..] == SweepInput(params, io)
      invariant forall k | 0 <= k < frames :: FrameOk(params, io, k)
      invariant outbuf[..] == OutAfter(params, io, old(outbuf[..]), frames)
      decreases n - frames
    {
      var ok := EncodeDecodeFrame(params, io, inbuf, outbuf, sampCount, frames);
      FrameAdvance(frames, n, frameSize);
      assert outbuf[..] == OutAfter(params, io, old(outbuf[..]), frames + 1);
      frames := frames + 1;
      if !ok {
        ret := -1;
        break;
      }
      sampCount := sampCount + frameSize;
      if !(sampCount < inputSamples) {
        break;
      }
    }
  }

  /** Advancing `samp_count` by one frame keeps it at `frames * frame_size`,
      and it stays below the sweep's end exactly while frames remain. */
  lemma FrameAdvance(frames: nat, n: nat, frameSize: nat)
    requires frames < n && frameSize > 0
    ensures (frames + 1) * frameSize == frames * frameSize + frameSize
    ensures frames + 1 < n <==> (frames + 1) * frameSize < n * frameSize
    ensures frames + 1 <= n
  {
    if frames + 1 < n {
      MulLess(frames + 1, n, frameSize);
    } else {
      assert frames + 1 == n;
    }
  }

  /** How the do-while of test_encode ends: at the first failing frame, or
      after the last frame with every frame passed. */
  lemma LoopExit(p: TestCustomParams, io: RunIo, frames: nat, stopped: bool)
    requires Runnable(p) && 1 <= frames <= NumFrames(p)
    requires forall k | 0 <= k < frames - 1 :: FrameOk(p, io, k)
    requires if stopped then !FrameOk(p, io, frames - 1) else frames == NumFrames(p) && FrameOk(p, io, frames - 1)
    ensures FramesTried(p, io) == frames
    ensures !stopped <==> forall k | 0 <= k < NumFrames(p) :: FrameOk(p, io, k)
  {
    FirstFailureUnique((k: nat) => FrameOk(p, io, k), 0, NumFrames(p), if stopped then frames - 1 else NumFrames(p));
  }

  /** Frame `k` (sample offsets k*frameSize up to (k+1)*frameSize) ends inside a
      sweep of `inputSamples` samples. */
  predicate FrameInside(k: nat, frameSize: nat, inputSamples: int)
  {
    (k + 1) * frameSize <= inputSamples
  }

  /** Frames the source's do-while attempts when every call succeeds:
      `samp_count` starts at 0, the body runs, then `samp_count += frame_size`
      and the loop repeats while `samp_count < input_samples`. */
  function DoWhileFrames(inputSamples: int, frameSize: nat): nat
    requires frameSize > 0
    decreases inputSamples
  {
    if frameSize < inputSamples then 1 + DoWhileFrames(inputSamples - frameSize, frameSize) else 1
  }

  /** The do-while runs the least positive number of frames that reach
      `inputSamples`. */
  lemma {:induction false} DoWhileFramesCover(inputSamples: int, frameSize: nat)
    requires frameSize > 0
    ensures DoWhileFrames(inputSamples, frameSize) >= 1
    ensures DoWhileFrames(inputSamples, frameSize) * frameSize >= inputSamples
    ensures DoWhileFrames(inputSamples, frameSize) == 1
            || (DoWhileFrames(inputSamples, frameSize) - 1) * frameSize < inputSamples
    decreases inputSamples
  {
    if frameSize < inputSamples {
      var f := DoWhileFrames(inputSamples - frameSize, frameSize);
      DoWhileFramesCover(inputSamples - frameSize, frameSize);
      assert (f + 1) * frameSize == f * frameSize + frameSize;
      assert f * frameSize == (f - 1) * frameSize + frameSize;
    }
  }

  /** When frame_size divides a non-empty sweep, the do-while attempts
      inputSamples / frameSize frames. */
  lemma DoWhileFramesExact(inputSamples: int, frameSize: nat)
    requires frameSize > 0 && inputSamples > 0 && inputSamples % frameSize == 0
    ensures DoWhileFrames(inputSamples, frameSize) == inputSamples / frameSize
  {
    var f := DoWhileFrames(inputSamples, frameSize);
    DoWhileFramesCover(inputSamples, frameSize);
    var m := inputSamples / frameSize;
    assert inputSamples == m * frameSize;
    assert m >= 1;
    if f > m {
      MulLeq(m, f - 1, frameSize);
    } else if f < m {
      MulLeq(f, m - 1, frameSize);
    }
  }

  /** On a runnable configuration the do-while of test_encode, when every call
      succeeds, attempts exactly the NumFrames(p) frames that tile the sweep. */
  lemma SweepDoWhileFrames(p: TestCustomParams)
    requires Runnable(p)
    ensures DoWhileFrames(NumSamples(SweepSeconds, p.sampleRate), p.frameSize) == NumFrames(p)
  {
    NumFramesTiles(p);
    DoWhileFramesExact(NumSamples(SweepSeconds, p.sampleRate), p.frameSize);
  }

  /** If every attempted frame lies inside the sweep, the last one ends
      exactly at its end, so the sweep is non-empty and frame_size divides
      it. */
  lemma DoWhileInsideOnlyIfTiles(inputSamples: int, frameSize: nat)
    requires frameSize > 0
    requires forall k | 0 <= k < DoWhileFrames(inputSamples, frameSize) :: FrameInside(k, frameSize, inputSamples)
    ensures inputSamples > 0 && inputSamples % frameSize == 0
  {
    var f := DoWhileFrames(inputSamples, frameSize);
    DoWhileFramesCover(inputSamples, frameSize);
    assert FrameInside(f - 1, frameSize, inputSamples);
    assert f * frameSize == inputSamples;
    MulLeq(1, f, frameSize);
    DivModUnique(inputSamples, frameSize, f, 0);
  }

  /** Every frame the do-while attempts lies inside the sweep exactly when the
      sweep is non-empty and frame_size divides it; then it attempts
      inputSamples / frameSize frames. */
  lemma DoWhileStaysInBuffer(inputSamples: int, frameSize: nat)
    requires frameSize > 0
    ensures (forall k | 0 <= k < DoWhileFrames(inputSamples, frameSize) :: FrameInside(k, frameSize, inputSamples))
            <==> inputSamples > 0 && inputSamples % frameSize == 0
    ensures inputSamples > 0 && inputSamples % frameSize == 0 ==>
              DoWhileFrames(inputSamples, frameSize) == inputSamples / frameSize
  {
    var f := DoWhileFrames(inputSamples, frameSize);
    if forall k | 0 <= k < f :: FrameInside(k, frameSize, inputSamples) {
      DoWhileInsideOnlyIfTiles(inputSamples, frameSize);
    }
    if inputSamples > 0 && inputSamples % frameSize == 0 {
      DoWhileFramesExact(inputSamples, frameSize);
      forall k | 0 <= k < f ensures FrameInside(k, frameSize, inputSamples) {
        MulLeq(k + 1, f, frameSize);
      }
    }
  }

  /** As written, test_encode does not check the sweep allocation: on failure
      generate_sine_sweep returns NULL with input_samples 0, and the do-while
      still attempts a frame that lies outside the (empty) buffer. */
  lemma SweepAllocFailureOverruns(frameSize: nat)
    requires frameSize > 0
    ensures DoWhileFrames(0, frameSize) == 1 && !FrameInside(0, frameSize, 0)
  {
  }

  /** Every configuration the sampler accepts tiles the 60 s sweep:
      60 * rate is a multiple of frame_size, 120000 / msX2 frames. */
  lemma LegalConfigTilesSweep(c: Config)
    requires Legal(c)
    ensures c.frameSize > 0
    ensures NumSamples(SweepSeconds, c.sampleRate) % c.frameSize == 0
    ensures NumSamples(SweepSeconds, c.sampleRate) / c.frameSize == 120000 / c.frameSizeMsX2
  {
    LegalFrameSize(c);
    var m := 120000 / c.frameSizeMsX2;
    assert m * c.frameSizeMsX2 == 120000;
    assert NumSamples(SweepSeconds, c.sampleRate) * c.frameSizeMsX2 == 60 * c.sampleRate * c.frameSizeMsX2;
    assert NumSamples(SweepSeconds, c.sampleRate) == m * c.frameSize;
    DivModUnique(NumSamples(SweepSeconds, c.sampleRate), c.frameSize, m, 0);
  }
}
