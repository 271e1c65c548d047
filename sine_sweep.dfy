/**
  The buffer layout of generate_sine_sweep: how many slots it allocates, how
  wide each slot is, and which value lands in which slot. The chirp itself
  (sin, exp, log) and its quantisation are not modelled: `level(i)` is the
  value the generator computes for mono sample `i`, already converted to the
  output representation (the float, or the rounded integer before packing).
 */
module SineSweep {

  /** How samples are stored. `Unfilled` is a non-float depth other than 16 or
      24: the buffer is allocated but the loop writes nothing into it. */
  datatype Format = Float32 | Int16 | Int24In32 | Unfilled

  /** use_float forces 32-bit float output; otherwise bit_depth decides. */
  function FormatOf(bitDepth: int, useFloat: bool): Format
  {
    if useFloat then Float32
    else if bitDepth == 16 then Int16
    else if bitDepth == 24 then Int24In32
    else Unfilled
  }

  /** bytes_per_sample: 2 exactly for 16-bit integer output, 4 otherwise. */
  function BytesPerSample(bitDepth: int, useFloat: bool): (b: nat)
    ensures b == 2 <==> FormatOf(bitDepth, useFloat) == Int16
    ensures b == 2 || b == 4
  {
    var depth := if useFloat then 32 else bitDepth;
    if depth == 16 then 2 else 4
  }

  /** num_samples for a whole number of seconds: floor(.5 + d * rate) is d * rate. */
  function NumSamples(durationSeconds: nat, sampleRate: nat): nat
  {
    durationSeconds * sampleRate
  }

  const Int32Min: int := -0x8000_0000
  const Int32Span: int := 0x1_0000_0000

  /** A 32-bit two's-complement result of an int computation. */
  function Int32Wrap(x: int): (w: int)
    ensures Int32Min <= w < Int32Min + Int32Span
    ensures (w - x) % Int32Span == 0
  {
    (x - Int32Min) % Int32Span + Int32Min
  }

  /** A 24-bit sample in a 32-bit slot: `(int32_t)q << 8`. When the shifted
      value does not fit int32, section 6.5.7 of the C11 standard leaves the
      shift undefined; the model chooses two's-complement wrap-around there. */
  function Pack24(q: int): int
  {
    Int32Wrap(q * 256)
  }

  /** The inverse of the packing, an arithmetic shift right by 8. */
  function Unpack24(w: int): int
  {
    w / 256
  }

  /** A 24-bit value survives packing: it lands in the upper 24 bits, the low
      8 bits are zero, and unpacking gives it back. */
  lemma Pack24RoundTrip(q: int)
    requires -0x80_0000 <= q < 0x80_0000
    ensures Pack24(q) == q * 256 && Pack24(q) % 256 == 0
    ensures Unpack24(Pack24(q)) == q
  {
  }

  /** A value beyond 24 bits does not, under the wrap-around the model chooses
      for C's undefined overflowing shift: 2^23 comes back as -2^23.
      test_encode never reaches this case, as it only asks for 16-bit sweeps. */
  lemma Pack24LosesOverflow()
    ensures Unpack24(Pack24(0x80_0000)) == -0x80_0000
  {
  }

  /** The value stored in a slot for a generated value `v`. */
  function Pack(fmt: Format, v: int): int
  {
    if fmt == Int24In32 then Pack24(v) else v
  }

  /** The buffer contents: `n` frames of `channels` slots, each slot holding
      the packed value of its frame's mono sample. */
  function Interleave(level: nat -> int, fmt: Format, channels: nat, n: nat): (s: seq<int>)
    requires channels == 1 || channels == 2
    ensures |s| == n * channels
  {
    seq(n * channels, j requires 0 <= j < n * channels => Pack(fmt, level(j / channels)))
  }

  /** Slot `i*channels` holds sample `i`; in stereo, slot `2i+1` repeats slot `2i`. */
  lemma InterleaveLayout(level: nat -> int, fmt: Format, channels: nat, n: nat, i: nat)
    requires channels == 1 || channels == 2
    requires i < n
    ensures i * channels < n * channels
    ensures Interleave(level, fmt, channels, n)[i * channels] == Pack(fmt, level(i))
    ensures channels == 2 ==> Interleave(level, fmt, channels, n)[2 * i + 1] == Interleave(level, fmt, channels, n)[2 * i]
  {
  }

  /**
    generate_sine_sweep: requests `allocBytes` bytes from malloc, room for
    `num_samples * channels` slots of BytesPerSample bytes, and fills them
    sample by sample. Each slot of `buf` stands for one such sample. `allocOk`
    is the outcome of the malloc; on failure the result is NULL with a count
    of 0.
   */
  method GenerateSineSweep(bitDepth: int, sampleRate: nat, channels: nat, useFloat: bool,
                           durationSeconds: nat, allocOk: bool, level: nat -> int)
    returns (buf: array?<int>, numSamplesOut: nat, ghost allocBytes: nat)
    requires channels == 1 || channels == 2
    ensures allocBytes == NumSamples(durationSeconds, sampleRate) * channels * BytesPerSample(bitDepth, useFloat)
    ensures buf != null <==> allocOk
    ensures buf != null ==> fresh(buf)
    ensures numSamplesOut == if allocOk then NumSamples(durationSeconds, sampleRate) else 0
    ensures buf != null ==> buf.Length == numSamplesOut * channels
                            && buf.Length * BytesPerSample(bitDepth, useFloat) == allocBytes
    ensures buf != null && FormatOf(bitDepth, useFloat) != Unfilled ==>
              buf[..] == Interleave(level, FormatOf(bitDepth, useFloat), channels, numSamplesOut)
  {
    var numSamples := NumSamples(durationSeconds, sampleRate);
    var depth := if useFloat then 32 else bitDepth;
    var bytesPerSample := if depth == 16 then 2 else 4;
    allocBytes := numSamples * channels * bytesPerSample;
    ghost var fmt := FormatOf(bitDepth, useFloat);
    if !allocOk {
      return null, 0, allocBytes;
    }
    buf := new int[numSamples * channels];
    for i := 0 to numSamples
      invariant fmt != Unfilled ==> forall j | 0 <= j < i * channels :: buf[j] == Pack(fmt, level(j / channels))
    {
      assert (i + 1) * channels <= numSamples * channels;
      if useFloat {
        buf[i * channels] := level(i);
        if channels == 2 {
          buf[i * channels + 1] := buf[i * channels];
        }
      } else if depth == 16 {
        buf[i * channels] := level(i);
        if channels == 2 {
          buf[i * channels + 1] := buf[i * channels];
        }
      } else if depth == 24 {
        buf[i * channels] := Pack24(level(i));
        if channels == 2 {
          buf[i * channels + 1] := buf[i * channels];
        }
      }
    }
    numSamplesOut := numSamples;
  }
}
