/**
  The RAND_SAMPLE macro, the candidate tables of test_opus_custom, and the
  order in which a configuration and a setting are drawn from the PRNG.
  The PRNG itself (fast_rand) is not modelled: its outputs are a stream
  `rand: nat -> Draw`, `rand(k)` being the k-th 32-bit value it returns.
 */
module Sampling {
  import opened Codec

  /** A value returned by fast_rand (an opus_uint32). */
  type Draw = x: int | 0 <= x < 0x1_0000_0000

  /** sizeof(int): every candidate table is an `int` array. */
  const IntSize: nat := 4

  /**
    The index RAND_SAMPLE(a) reads: `fast_rand() % sizeof(a)/sizeof(a[0])`
    parses as `(r % sizeof(a)) / sizeof(a[0])`; for a table of `n` ints,
    sizeof(a) is n*IntSize.
   */
  function SampleIndex(r: Draw, n: nat): (k: nat)
    requires n >= 1
    ensures k < n
  {
    (r % (n * IntSize)) / IntSize
  }

  /** The element RAND_SAMPLE(a) yields for draw `r`; `n` is the table's
      element count, sizeof(a)/sizeof(a[0]), a compile-time constant. */
  function Pick(a: seq<int>, n: nat, r: Draw): (v: int)
    requires |a| == n >= 1
    ensures v in a
  {
    a[SampleIndex(r, n)]
  }

  /** What the index means: the draw's two low bits are dropped and the rest is
      reduced modulo the table length. */
  lemma {:induction false} SampleIndexDropsLowBits(r: Draw, n: nat)
    requires n >= 1
    ensures SampleIndex(r, n) == (r / IntSize) % n
  {
    var q, s := r / (n * IntSize), r % (n * IntSize);
    var t, u := s / IntSize, s % IntSize;
    assert r == IntSize * (n * q + t) + u by {
      assert r == (n * IntSize) * q + s;
      assert s == IntSize * t + u;
    }
    DivModUnique(r, IntSize, n * q + t, u);
    DivModUnique(n * q + t, n, q, t);
  }

  /** Division with remainder has one answer. */
  lemma DivModUnique(x: int, d: nat, q: int, m: int)
    requires d > 0 && x == d * q + m && 0 <= m < d
    ensures x / d == q && x % d == m
  {
    MulUnique(d, x / d, q, x % d, m);
  }

  lemma MulUnique(d: nat, a: int, b: int, m1: int, m2: int)
    requires d > 0 && d * a + m1 == d * b + m2 && 0 <= m1 < d && 0 <= m2 < d
    ensures a == b
  {
    if a > b {
      MulAtLeast(d, a - b);
    } else if a < b {
      MulAtLeast(d, b - a);
    }
  }

  lemma {:induction false} MulAtLeast(d: nat, k: int)
    requires k >= 1
    ensures d * k >= d
  {
    if k > 1 {
      MulAtLeast(d, k - 1);
      assert d * k == d * (k - 1) + d;
    }
  }

  /** Every element of a table can be drawn: draw 4k selects index k. */
  lemma SampleIndexReachesEvery(n: nat, k: nat)
    requires k < n && IntSize * n <= 0x1_0000_0000
    ensures SampleIndex(IntSize * k, n) == k
  {
    MulLess(k, n, IntSize);
    DivModUnique(IntSize * k, n * IntSize, 0, IntSize * k);
    DivModUnique(IntSize * k, IntSize, k, 0);
  }

  lemma MulLess(a: nat, b: nat, c: nat)
    requires a < b && c > 0
    ensures a * c < b * c
  {
  }

  /** The index is not `r % n`, which is what a plain modulo sampler would
      use: on every table of two or more entries, draw 1 selects entry 0. */
  lemma SampleIndexIsNotModulo(n: nat)
    requires n >= 2
    ensures SampleIndex(1, n) == 0 && 1 % n == 1
  {
    MulLess(1, n, IntSize);
    DivModUnique(1, n * IntSize, 0, 1);
    DivModUnique(1, n, 0, 1);
  }

  // The candidate tables of test_opus_custom, in source order.
  const SamplingRates: seq<int> := [8000, 12000, 16000, 24000, 48000]
  const Channels: seq<int> := [1, 2]
  const Bitrates: seq<int> := [6000, 12000, 16000, 24000, 32000, 48000, 64000, 96000, 510000, BitrateMax]
  const UseVbr: seq<int> := [0, 1, 1]
  const VbrConstraints: seq<int> := [0, 1, 1]
  const Complexities: seq<int> := [0, 1, 2, 3, 4, 5, 6, 7, 8, 9, 10]
  const PacketLossPerc: seq<int> := [0, 1, 2, 5]
  const LsbDepths: seq<int> := [8, 24]
  const FrameSizesMsX2: seq<int> := [5, 10, 20, 40]
  const UseFloatEncode: seq<int> := [0, 1]
  const UseFloatDecode: seq<int> := [0, 1]
  const UseCustomEncode: seq<int> := [0, 1]
  const UseCustomDecode: seq<int> := [0, 1]

  /** The one rate at which Opus and OpusCustom may be mixed. */
  const MixRate: int := 48000

  /** One codec configuration (the fields of TestCustomParams fixed per outer
      iteration, plus the drawn frame duration in half milliseconds). */
  datatype Config = Config(
    sampleRate: int,
    numChannels: int,
    frameSizeMsX2: int,
    frameSize: int,
    customEncode: bool,
    customDecode: bool)

  /** Samples per channel in a frame of `msX2`/2 milliseconds at `rate`. */
  function FrameSize(msX2: int, rate: int): int
  {
    msX2 * rate / 2000
  }

  /** Opus and OpusCustom may only be mixed at 48 kHz, and at 48 kHz at least one
      side must be OpusCustom. */
  predicate MixingAllowed(rate: int, customEncode: bool, customDecode: bool)
  {
    if rate == MixRate then customEncode || customDecode else customEncode && customDecode
  }

  /** OpusCustom does not support 2.5 ms frames at 8 and 12 kHz. */
  predicate ShortFrameUnsupported(rate: int, msX2: int)
  {
    (rate == 8000 || rate == 12000) && msX2 == 5
  }

  /** A configuration the harness goes on to test. */
  predicate Legal(c: Config)
  {
    && c.sampleRate in SamplingRates
    && c.numChannels in Channels
    && c.frameSizeMsX2 in FrameSizesMsX2
    && c.frameSize == FrameSize(c.frameSizeMsX2, c.sampleRate)
    && MixingAllowed(c.sampleRate, c.customEncode, c.customDecode)
    && !ShortFrameUnsupported(c.sampleRate, c.frameSizeMsX2)
  }

  /** Outcome of one outer iteration's draws; `next` is the position of the
      first draw not consumed. */
  datatype Sampled =
    | NoCustom(next: nat)     // 48 kHz with neither side custom: skipped
    | ShortFrame(next: nat)   // 2.5 ms at 8 or 12 kHz: skipped
    | Accepted(config: Config, next: nat)

  /** The draws after the rate and the custom flags: channels, then duration. */
  function SampleShape(rand: nat -> Draw, pos: nat, rate: int, customEncode: bool, customDecode: bool): (s: Sampled)
    ensures s.next == pos + 2 && !s.NoCustom?
    ensures s.Accepted? ==> s.config.sampleRate == rate && s.config.frameSizeMsX2 in FrameSizesMsX2
                            && s.config.numChannels in Channels
                            && !ShortFrameUnsupported(rate, s.config.frameSizeMsX2)
  {
    var ch := Pick(Channels, 2, rand(pos));
    var msX2 := Pick(FrameSizesMsX2, 4, rand(pos + 1));
    if ShortFrameUnsupported(rate, msX2) then ShortFrame(pos + 2)
    else Accepted(Config(rate, ch, msX2, FrameSize(msX2, rate), customEncode, customDecode), pos + 2)
  }

  /** The configuration drawn by one outer iteration of test_opus_custom,
      starting at draw `pos`. */
  function SampleConfig(rand: nat -> Draw, pos: nat): (s: Sampled)
    ensures s.Accepted? ==> Legal(s.config)
    ensures s.next == pos + (if s.Accepted? && s.config.sampleRate == MixRate then 5 else 3)
  {
    var rate := Pick(SamplingRates, 5, rand(pos));
    if rate == MixRate then
      var ce := Pick(UseCustomEncode, 2, rand(pos + 1)) != 0;
      var cd := Pick(UseCustomDecode, 2, rand(pos + 2)) != 0;
      if !(ce || cd) then NoCustom(pos + 3)
      else SampleShape(rand, pos + 3, rate, ce, cd)
    else SampleShape(rand, pos + 1, rate, true, true)
  }

  /** A stream whose first draws select the given table indices. */
  function IndexDraws(idx: seq<nat>): nat -> Draw
  {
    (k: nat) => if k < |idx| && idx[k] < 16 then IntSize * idx[k] else 0
  }

  function IndexOf(a: seq<int>, v: int): (k: nat)
    requires v in a
    ensures k < |a| && a[k] == v
  {
    if a[0] == v then 0 else 1 + IndexOf(a[1..], v)
  }

  /** The draws that lead the sampler to configuration `c`. */
  function ConfigDraws(c: Config): nat -> Draw
    requires Legal(c)
  {
    var r := IndexOf(SamplingRates, c.sampleRate);
    var ch := IndexOf(Channels, c.numChannels);
    var ms := IndexOf(FrameSizesMsX2, c.frameSizeMsX2);
    if c.sampleRate == MixRate then
      IndexDraws([r, if c.customEncode then 1 else 0, if c.customDecode then 1 else 0, ch, ms])
    else IndexDraws([r, ch, ms])
  }

  /** The converse of SampleConfig's contract: every legal configuration is drawn
      by some stream, so the sampler accepts exactly the legal configurations. */
  lemma {:induction false} SamplerReachesEveryLegalConfig(c: Config)
    requires Legal(c)
    ensures SampleConfig(ConfigDraws(c), 0) == Accepted(c, if c.sampleRate == MixRate then 5 else 3)
  {
    var rand := ConfigDraws(c);
    var r := IndexOf(SamplingRates, c.sampleRate);
    var ch := IndexOf(Channels, c.numChannels);
    var ms := IndexOf(FrameSizesMsX2, c.frameSizeMsX2);
    SampleIndexReachesEvery(|SamplingRates|, r);
    SampleIndexReachesEvery(|Channels|, ch);
    SampleIndexReachesEvery(|FrameSizesMsX2|, ms);
    SampleIndexReachesEvery(2, 0);
    SampleIndexReachesEvery(2, 1);
    if c.sampleRate == MixRate {
      assert Pick(SamplingRates, 5, rand(0)) == c.sampleRate;
      assert (Pick(UseCustomEncode, 2, rand(1)) != 0) == c.customEncode;
      assert (Pick(UseCustomDecode, 2, rand(2)) != 0) == c.customDecode;
      assert Pick(Channels, 2, rand(3)) == c.numChannels;
      assert Pick(FrameSizesMsX2, 4, rand(4)) == c.frameSizeMsX2;
    } else {
      assert Pick(SamplingRates, 5, rand(0)) == c.sampleRate;
      assert Pick(Channels, 2, rand(1)) == c.numChannels;
      assert Pick(FrameSizesMsX2, 4, rand(2)) == c.frameSizeMsX2;
    }
  }

  /** Every candidate duration divides into whole samples at every candidate rate. */
  lemma FrameSizeExact(rate: int, msX2: int)
    requires rate in SamplingRates && msX2 in FrameSizesMsX2
    ensures FrameSize(msX2, rate) * 2000 == msX2 * rate
  {
  }

  /** The skip rule is exactly "frame shorter than 40 samples", as the source's
      comment says, and every legal frame holds 40 to 960 samples. */
  lemma FrameSizeBounds(rate: int, msX2: int)
    requires rate in SamplingRates && msX2 in FrameSizesMsX2
    ensures FrameSize(msX2, rate) < 40 <==> ShortFrameUnsupported(rate, msX2)
    ensures FrameSize(msX2, rate) <= 960
  {
  }

  lemma LegalFrameSize(c: Config)
    requires Legal(c)
    ensures 40 <= c.frameSize <= 960
    ensures c.frameSize * 2000 == c.frameSizeMsX2 * c.sampleRate
  {
    FrameSizeBounds(c.sampleRate, c.frameSizeMsX2);
    FrameSizeExact(c.sampleRate, c.frameSizeMsX2);
  }

  /** The values drawn by one inner iteration, in draw order. */
  datatype Setting = Setting(
    bitrate: int,
    vbr: int,
    vbrConstraint: int,
    complexity: int,
    packetLossPerc: int,
    lsbDepth: int,
    floatEncode: bool,
    floatDecode: bool)

  /** Number of draws one inner iteration consumes. */
  const SettingDraws: nat := 8

  /** The setting drawn by one inner iteration starting at draw `pos`. */
  function SampleSetting(rand: nat -> Draw, pos: nat): (s: Setting)
    ensures s.bitrate in Bitrates && s.vbr in {0, 1} && s.vbrConstraint in {0, 1}
    ensures 0 <= s.complexity <= 10 && s.packetLossPerc in {0, 1, 2, 5} && s.lsbDepth in {8, 24}
  {
    Setting(
      Pick(Bitrates, 10, rand(pos)),
      Pick(UseVbr, 3, rand(pos + 1)),
      Pick(VbrConstraints, 3, rand(pos + 2)),
      Pick(Complexities, 11, rand(pos + 3)),
      Pick(PacketLossPerc, 4, rand(pos + 4)),
      Pick(LsbDepths, 2, rand(pos + 5)),
      Pick(UseFloatEncode, 2, rand(pos + 6)) != 0,
      Pick(UseFloatDecode, 2, rand(pos + 7)) != 0)
  }

  /** The configuration the sampler yields from each draw position. */
  function ConfigSampler(rand: nat -> Draw): (cs: nat -> Sampled)
    ensures AcceptsOnlyLegal(cs)
  {
    (p: nat) => SampleConfig(rand, p)
  }

  /** The setting the sampler yields from each draw position. */
  function SettingSampler(rand: nat -> Draw): nat -> Setting
  {
    (p: nat) => SampleSetting(rand, p)
  }

  /** A sampler that only ever hands legal configurations on to the test. */
  ghost predicate AcceptsOnlyLegal(cs: nat -> Sampled)
  {
    forall p: nat :: cs(p).Accepted? ==> Legal(cs(p).config)
  }
}
