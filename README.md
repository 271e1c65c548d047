# test_opus_custom: a verified model of the fuzz harness's control logic

`tests/test_opus_custom.c` is a seeded fuzz test of round trips between the
Opus and OpusCustom encoders and decoders. Around the opaque codec calls and
the floating-point chirp it has a layer of exact control logic, and this
project models that layer in Dafny:

- the `RAND_SAMPLE` macro, which turns a 32-bit `fast_rand()` draw into a table
  element (module `Sampling`);
- the configuration sampler of `test_opus_custom`. It draws the rate, the
  custom flags at 48 kHz, the channels and the frame duration, and then applies
  the two skip rules. It also draws the eight values of each setting
  (module `Sampling`);
- the buffer layout of `generate_sine_sweep` (module `SineSweep`);
- the frame loop of `test_encode`: a do-while over `samp_count` that decodes
  each frame into its own slice of the output buffer, stops at the first
  failed encode or decode and sets `ret` (module `RoundTrip`);
- the create / ctl / destroy lifecycle of `test_opus_custom`. This is the
  `Harness` class with the function's locals as fields and a ghost log of
  every library call it makes (module `CustomTest`).

The codec library sits behind module `Codec`. Each create, ctl, encode and
decode call, and each allocation, gets its answer from a `Library` or `RunIo`
value that is an input of the model. The PRNG is a stream
`rand: nat -> Draw` of 32-bit values, and the harness keeps the count of
draws consumed (`Rng`). `test_failed()` ends the run: the methods set
`failed` and return at once, and nothing is logged after it.

For each layer there is a specification function: `SampleConfig`,
`SampleSetting`, `Interleave`, `EncodeOutcome`/`FramesTried`, and the trace
functions `CreateLog`, `CtlLog`, `SettingsLog`, `ConfigLog` and `RunLog`. The
methods that mirror the C code are proved to compute exactly these. The
lemmas then prove the harness's guarantees about the functions. The
lifecycle properties (pairing, destructor matching, ctl targets, skipped
configurations) are lemmas about `RunLog` and `ConfigLog`.
`Harness.TestOpusCustom` ensures that its log is `RunLog` of the draws and
the library's answers, so these lemmas hold for the method's log.

Four points where a plain reading of the harness's intent differs from what
the code does. The model follows the code in each:

- `RAND_SAMPLE(a)` expands to `a[fast_rand() % sizeof(a)/sizeof(a[0])]`. By
  C precedence that is `(r % (4n)) / 4`, which equals `(r / 4) % n`, not
  `r % n` (`SampleIndexDropsLowBits`, `SampleIndexIsNotModulo`). It always
  stays in bounds and reaches every index.
- A skipped configuration (`continue`) still uses up one of the
  `num_encoders` outer iterations. It is not retried.
- A failed check calls `test_failed()`, which does not return. The objects of
  the failing iteration are therefore never destroyed: a failed trace holds no
  destroy call (`ConfigDestructors`).
- `test_encode` does not check its two allocations (see Findings).

## Model

| member | source | states |
|---|---|---|
| Sampling.SampleIndex | tests/test_opus_custom.c:25 | the index RAND_SAMPLE reads for any 32-bit draw lies in [0, n) |
| Sampling.Pick | tests/test_opus_custom.c:25 | RAND_SAMPLE always yields an element of its table |
| Sampling.SampleIndexDropsLowBits | tests/test_opus_custom.c:25 | `(r % (n*sizeof(int))) / sizeof(int)` equals `(r / 4) % n` for every draw |
| Sampling.SampleIndexReachesEvery | tests/test_opus_custom.c:25 | every table index k is selected by some draw (4k) whenever the table's byte size fits 32 bits |
| Sampling.SampleIndexIsNotModulo | tests/test_opus_custom.c:25 | the index differs from `r % n` on every table of two or more entries: draw 1 selects entry 0, not entry 1 |
| Sampling.FrameSize | tests/test_opus_custom.c:363 | defines frame_size as `frame_size_ms_x2 * sample_rate / 2000` in integer arithmetic (FrameSizeExact shows the division is exact on the tables) |
| Sampling.MixingAllowed | tests/test_opus_custom.c:350-360 | defines which custom flags go on: both set below 48 kHz, any pair but (0, 0) at 48 kHz |
| Sampling.ShortFrameUnsupported | tests/test_opus_custom.c:365-367 | defines the second skip rule: a 2.5 ms frame (ms_x2 = 5) at 8 or 12 kHz |
| Sampling.Legal | tests/test_opus_custom.c:348-367 | defines the configurations the harness tests: rate, channels and ms_x2 from their tables, frame_size from FrameSize, MixingAllowed, and not ShortFrameUnsupported |
| Sampling.SampleShape | tests/test_opus_custom.c:361-367 | the channel and duration draws take two positions and never give NoCustom; an accepted result has the given rate, a channel count and duration from the tables, and is not a 2.5 ms frame at 8/12 kHz |
| Sampling.SampleConfig | tests/test_opus_custom.c:348-367 | every accepted configuration is legal: rate, channels and duration from the tables, frame_size = ms_x2*rate/2000, mixing only at 48 kHz with at least one custom side, no 2.5 ms frame at 8/12 kHz; it consumes 5 draws for an accepted 48 kHz configuration and 3 otherwise |
| Sampling.SamplerReachesEveryLegalConfig | tests/test_opus_custom.c:348-367 | conversely, every legal configuration is accepted for some draw stream, so the sampler accepts exactly the legal configurations |
| Sampling.FrameSizeExact | tests/test_opus_custom.c:363 | for every candidate rate and duration, ms_x2*rate/2000 has no remainder |
| Sampling.FrameSizeBounds | tests/test_opus_custom.c:365-367 | the skip rule holds exactly when the frame is shorter than 40 samples; every candidate frame has at most 960 samples |
| Sampling.LegalFrameSize | tests/test_opus_custom.c:363-367 | every accepted configuration has 40 <= frame_size <= 960 and an exact frame size |
| Sampling.SampleSetting | tests/test_opus_custom.c:432-440 | the eight setting draws give values from their tables (bitrate, vbr and constraint in {0,1}, complexity 0..10, loss in {0,1,2,5}, lsb depth in {8,24}) |
| Sampling.ConfigSampler | tests/test_opus_custom.c:348-367 | the sampler over every draw position only hands legal configurations on |
| SineSweep.FormatOf | tests/test_opus_custom.c:55-98 | defines the slot format: float when use_float, int16 at depth 16, a 24-bit value in an int32 at depth 24, and nothing written at any other depth |
| SineSweep.NumSamples | tests/test_opus_custom.c:49 | defines num_samples for a whole number of seconds as duration * rate |
| SineSweep.BytesPerSample | tests/test_opus_custom.c:55-56 | 2 bytes exactly for non-float 16-bit output, 4 otherwise |
| SineSweep.Int32Wrap | tests/test_opus_custom.c:94 | the int32 result of a computation is in the int32 range and congruent to it modulo 2^32 |
| SineSweep.Pack24 | tests/test_opus_custom.c:94 | defines the 24-bit slot value as `(int32_t)q << 8`, i.e. q*256 taken into int32; where the C shift overflows (undefined), the model picks two's-complement wrap |
| SineSweep.Pack24RoundTrip | tests/test_opus_custom.c:94 | a 24-bit value shifted left by 8 is value*256 with the low byte zero, and shifting back recovers it |
| SineSweep.Pack24LosesOverflow | tests/test_opus_custom.c:94 | under the wrap-around the model chooses for C's undefined overflowing shift, 2^23 unpacks to -2^23; test_encode never gets here, since it asks for 16-bit sweeps |
| SineSweep.Interleave | tests/test_opus_custom.c:65-100 | the filled buffer has num_samples*channels slots |
| SineSweep.InterleaveLayout | tests/test_opus_custom.c:75-99 | slot i*channels holds sample i, packed for its format; in stereo slot 2i+1 equals slot 2i |
| SineSweep.GenerateSineSweep | tests/test_opus_custom.c:43-104 | malloc is asked for num_samples*channels*bytes_per_sample bytes; NULL with a count of 0 exactly when that fails; otherwise a fresh buffer of num_samples*channels slots of bytes_per_sample bytes holding the interleaved, packed samples |
| RoundTrip.EncoderApi | tests/test_opus_custom.c:161-215 | the encode entry point is the OpusCustom one exactly when custom_encode is set |
| RoundTrip.DecoderApi | tests/test_opus_custom.c:218-276 | the decode entry point is the OpusCustom one exactly when custom_decode is set |
| RoundTrip.FrameBounds | tests/test_opus_custom.c:165 | the slice of every frame k of a runnable configuration, from samp_count*num_channels, lies inside the sweep buffer |
| RoundTrip.EncodeLen | tests/test_opus_custom.c:161-215 | defines the packet length of frame k: the encode entry point the flags select, applied to the frame_size*num_channels slots of the sweep from samp_count*num_channels |
| RoundTrip.FrameOk | tests/test_opus_custom.c:161-276 | defines the pass condition of frame k: its encode returns len > 0 and its decode returns exactly frame_size |
| RoundTrip.Frame | tests/test_opus_custom.c:218-276 | defines a decode into the output: the frame's frame_size*num_channels slots from samp_count*num_channels hold the decoded samples, every other slot keeps its value |
| RoundTrip.Frames | tests/test_opus_custom.c:159-296 | defines the output after frames 0..m-1: each frame whose encode returned a packet is decoded into its own slots, in order |
| RoundTrip.OutAfter | tests/test_opus_custom.c:159-296 | defines test_encode's output buffer after m passes of the do-while, as Frames with the configuration's frame width, encode outcome and decoder output |
| RoundTrip.FramesHold | tests/test_opus_custom.c:218-276 | after frames 0..m-1, slot j of every written frame k < m holds that frame's decoded sample j |
| RoundTrip.FramesLeave | tests/test_opus_custom.c:159-296 | after frames 0..m-1, every slot from frame m on keeps its earlier value |
| RoundTrip.FrameWidth | tests/test_opus_custom.c:165-267 | defines the slots a frame takes in either buffer: frame_size * num_channels |
| RoundTrip.OutAfterHoldsDecoded | tests/test_opus_custom.c:159-296 | after m passes, slot k*FrameWidth + j of the output holds the decoder's sample j of frame k (Pcm), for every earlier frame whose encode succeeded |
| RoundTrip.OutAfterLeavesRest | tests/test_opus_custom.c:159-296 | after m passes, the output slots from frame m on are untouched |
| RoundTrip.WriteFrame | tests/test_opus_custom.c:218-276 | the decoder's write of frame k: the output afterwards is Frame of the old output |
| RoundTrip.FirstFailure | tests/test_opus_custom.c:159-296 | the least failing frame index: every earlier frame passes and that one fails |
| RoundTrip.EncodeDecodeFrame | tests/test_opus_custom.c:160-276 | one pass of the do-while body succeeds exactly when the frame's encode returns len > 0 and its decode returns frame_size; the input buffer is untouched; after a packet, the output is Frame of the old output (the decoded slice from samp_count*num_channels), after a failed encode it is unchanged |
| RoundTrip.EncodeDecodeFrames | tests/test_opus_custom.c:159-296 | the do-while runs at least one frame, stops at the first failing frame with ret = -1, and otherwise runs DoWhileFrames = NumFrames frames and returns 0; the output buffer is OutAfter the frames attempted |
| RoundTrip.FrameAdvance | tests/test_opus_custom.c:295-296 | after `samp_count += frame_size`, samp_count is frames*frame_size and stays below the end exactly while frames remain |
| RoundTrip.LoopExit | tests/test_opus_custom.c:159-296 | where the loop stops is the first failing frame (or the end), and it stopped early exactly when some frame fails |
| RoundTrip.FramesTried | tests/test_opus_custom.c:159-296 | defines the frames test_encode attempts once both buffers exist: up to and including the first failing frame, or all of them |
| RoundTrip.EncodeOutcome | tests/test_opus_custom.c:118-319 | defines test_encode's result: 0 when both buffers exist and every frame passes, -1 otherwise |
| RoundTrip.TestEncode | tests/test_opus_custom.c:106-320 | returns 0 or -1, and -1 exactly when an allocation fails or some frame's encode or decode fails; once the buffers exist it attempts at least one frame, up to and including the first failure |
| RoundTrip.NumFramesTiles | tests/test_opus_custom.c:295-296 | a runnable sweep is a positive whole number of frames |
| RoundTrip.DoWhileFrames | tests/test_opus_custom.c:159-296 | defines the passes of the do-while when every call succeeds: samp_count starts at 0, each pass adds frame_size, and the body repeats while samp_count < input_samples; it always runs once |
| RoundTrip.SweepDoWhileFrames | tests/test_opus_custom.c:159-296 | for a runnable configuration the do-while attempts exactly NumFrames frames |
| RoundTrip.DoWhileFramesCover | tests/test_opus_custom.c:295-296 | the do-while, with every call succeeding, runs the least positive number of frames that reach input_samples |
| RoundTrip.DoWhileFramesExact | tests/test_opus_custom.c:295-296 | when frame_size divides a non-empty sweep, the do-while runs input_samples/frame_size frames |
| RoundTrip.DoWhileInsideOnlyIfTiles | tests/test_opus_custom.c:295-296 | if every attempted frame is inside the sweep, the sweep is non-empty and frame_size divides it |
| RoundTrip.DoWhileStaysInBuffer | tests/test_opus_custom.c:159-296 | every attempted frame lies inside the sweep if and only if the sweep is non-empty and frame_size divides it |
| RoundTrip.SweepAllocFailureOverruns | tests/test_opus_custom.c:128-159 | as written, a failed sweep allocation (input_samples 0) still leads to one frame outside the buffer |
| RoundTrip.LegalConfigTilesSweep | tests/test_opus_custom.c:49 | for every accepted configuration, 60*rate is a multiple of frame_size, giving 120000/ms_x2 frames |
| CustomTest.AcceptedConfigUsesMode | tests/test_opus_custom.c:369 | every accepted configuration has a custom side, so it creates the mode, then the decoder, then the encoder |
| CustomTest.CreateLog | tests/test_opus_custom.c:369-429 | defines the create calls of an outer iteration: the listed objects in order, each checked at once, the trace ending at the first refusal |
| CustomTest.CreateLogShape | tests/test_opus_custom.c:369-429 | the create calls make the objects in order, stop at the first one the library refuses, and fail exactly when one is refused |
| CustomTest.CreateLogComplete | tests/test_opus_custom.c:369-429 | without a refusal, every object of the iteration is created, in order |
| CustomTest.CreateLogCreatesOnly | tests/test_opus_custom.c:369-429 | the create calls record nothing but creations of the iteration's objects |
| CustomTest.CreateLogOfHandles | tests/test_opus_custom.c:369-429 | the create calls are the mode's (when a side is custom), then the decoder's, then the encoder's, each checked at once |
| CustomTest.CloseLog | tests/test_opus_custom.c:485-499 | defines the teardown: the mode when a side is custom, then the decoder and the encoder through the destructors their custom flags select |
| CustomTest.CloseLogDestroysOwn | tests/test_opus_custom.c:485-499 | every teardown call uses the destructor of its object's profile, on an object of the same iteration |
| CustomTest.CountOnce | tests/test_opus_custom.c:485-499 | over distinct objects, each listed object is created once and destroyed once, and no other |
| CustomTest.CloseMatchesCreate | tests/test_opus_custom.c:369-499 | the teardown destroys each created object exactly once, with its own destructor, and nothing else |
| CustomTest.ModeOnlyWhenCustom | tests/test_opus_custom.c:369-487 | the mode is among the iteration's objects (created and destroyed) exactly when custom_encode or custom_decode is set |
| CustomTest.Requests | tests/test_opus_custom.c:451-456 | defines the six ctl requests in call order: bitrate, vbr, vbr constraint, complexity, packet loss, lsb depth |
| CustomTest.CtlLog | tests/test_opus_custom.c:450-465 | defines the ctl calls of an inner iteration: each request through the given entry point to the given encoder, checked at once, the trace ending at the first call not returning OPUS_OK |
| CustomTest.CtlLogShape | tests/test_opus_custom.c:450-465 | the ctl calls send the six requests in order through the given entry point to the given encoder, stop right after the first refused one, and fail exactly when one is refused |
| CustomTest.CtlLogOfSetting | tests/test_opus_custom.c:450-465 | the six ctl calls are bitrate, vbr, vbr constraint, complexity, packet loss, lsb depth, each checked at once |
| CustomTest.ParamsFor | tests/test_opus_custom.c:349-473 | defines the params passed to test_encode: the iteration's encoder and decoder, the configuration's rate, channels, frame size and custom flags, and the setting's float flags |
| CustomTest.ParamsForRunnable | tests/test_opus_custom.c:473 | the params handed to test_encode in an accepted configuration hold handles matching the custom flags and a frame size that tiles the sweep |
| CustomTest.SettingLog | tests/test_opus_custom.c:450-482 | defines one inner iteration after its draws: CtlLog of the six requests on the encoder, then the test_encode call with its check |
| CustomTest.SettingLogShape | tests/test_opus_custom.c:450-482 | an inner iteration configures only its configuration's encoder, through that encoder's entry point, and runs the round trip exactly when all six ctl calls succeed |
| CustomTest.SettingsLog | tests/test_opus_custom.c:431-483 | defines the inner loop: SettingLog of each setting in turn, eight draws apart, ending at the first failure |
| CustomTest.SettingsLogShape | tests/test_opus_custom.c:431-483 | the inner loop configures only its configuration's encoder, through its own entry point |
| CustomTest.ConfigLog | tests/test_opus_custom.c:369-499 | defines an outer iteration of an accepted configuration: CreateLog, then SettingsLog, then CloseLog, ending at the first failure |
| CustomTest.ConfigStep | tests/test_opus_custom.c:348-500 | defines one outer iteration from its draw position: nothing for a skipped configuration, ConfigLog otherwise |
| CustomTest.RunLog | tests/test_opus_custom.c:348-500 | defines the whole outer loop: ConfigStep for iterations i..N-1, each starting at the draw position the previous one left, ending at the first failure |
| CustomTest.ConfigShape | tests/test_opus_custom.c:369-499 | an outer iteration touches only its own objects |
| CustomTest.RunShape | tests/test_opus_custom.c:348-500 | outer iterations from i on touch only objects of iterations i and later |
| CustomTest.ConfigDestructors | tests/test_opus_custom.c:485-499 | every destroy call uses the destructor matching the object's profile, and a failed iteration destroys nothing |
| CustomTest.ConfigCtlTargets | tests/test_opus_custom.c:406-465 | every ctl call goes to the encoder variant created earlier in the same iteration, through that variant's entry point |
| CustomTest.ConfigParts | tests/test_opus_custom.c:369-499 | a completed iteration is its creates, then an inner loop with no create or destroy, then its teardown |
| CustomTest.ConfigPaired | tests/test_opus_custom.c:369-499 | a completed accepted configuration creates each of its objects once and destroys each once with the matching destructor; other objects are neither created nor destroyed |
| CustomTest.ConfigStepPaired | tests/test_opus_custom.c:348-500 | a completed outer iteration, skipped or not, pairs creates and destroys of its own objects and touches no other |
| CustomTest.LaterRunsLeave | tests/test_opus_custom.c:348-500 | iterations after an object's own neither create nor destroy it |
| CustomTest.RunPaired | tests/test_opus_custom.c:348-500 | in a run without failure, every object is created at most once and destroyed, with the destructor of its profile, exactly as often as created |
| CustomTest.RunDestructors | tests/test_opus_custom.c:348-500 | every destroy call of a run uses the destructor matching its object's profile |
| CustomTest.SkippedConfigCreatesNothing | tests/test_opus_custom.c:358-367 | a skipped configuration creates, configures and destroys nothing of its own |
| CustomTest.Rng.Next | tests/test_opus_custom.c:25 | one fast_rand() call returns the next draw of the stream and advances the position by one |
| CustomTest.Harness.constructor | tests/test_opus_custom.c:323-329 | zeroed params, NULL handles, an empty log |
| CustomTest.Harness.RandSample | tests/test_opus_custom.c:25 | RAND_SAMPLE consumes one draw and yields the table element Pick selects |
| CustomTest.Harness.TestFailed | tests/test_opus_custom.c:377 | test_failed marks the run as failed |
| CustomTest.Harness.DrawConfig | tests/test_opus_custom.c:348-367 | the draws stored into params yield SampleConfig at the current position and advance the stream past them; an accepted configuration is what params then holds |
| CustomTest.Harness.DrawShape | tests/test_opus_custom.c:361-367 | the channel and duration draws yield SampleShape and are stored into params |
| CustomTest.Harness.Create | tests/test_opus_custom.c:370-378 | a create call and its check: the log gains the creation, or test_failed is called |
| CustomTest.Harness.CreateDecoder | tests/test_opus_custom.c:381-404 | the decoder of the variant custom_decode selects is created, stored in its variable and in params.decoder |
| CustomTest.Harness.CreateEncoder | tests/test_opus_custom.c:406-429 | the encoder of the variant custom_encode selects is created, stored in its variable and in params.encoder |
| CustomTest.Harness.OpenHandles | tests/test_opus_custom.c:369-429 | the log grows by CreateLog of the iteration's objects; without failure the handle variables and params hold exactly those objects |
| CustomTest.Harness.DrawSetting | tests/test_opus_custom.c:432-440 | the eight draws yield SampleSetting at the current position; only the two float flags of params change |
| CustomTest.Harness.Ctl | tests/test_opus_custom.c:451 | one ctl call is logged, and test_failed is called exactly when it does not return OPUS_OK |
| CustomTest.Harness.CtlInto | tests/test_opus_custom.c:450-464 | one checked ctl call as a step of the six: the log grows by that call, and the remaining calls follow unless it failed |
| CustomTest.Harness.ConfigureEncoder | tests/test_opus_custom.c:450-465 | the log grows by CtlLog of the six requests on the encoder, and the run fails exactly when that trace does |
| CustomTest.Harness.RunTest | tests/test_opus_custom.c:473-482 | test_encode's result is logged with the params, and the run fails exactly when it is nonzero |
| CustomTest.Harness.ConfigureAndTest | tests/test_opus_custom.c:450-482 | the six ctl calls then test_encode: the log grows by SettingLog of the setting |
| CustomTest.Harness.ApplySetting | tests/test_opus_custom.c:431-482 | one inner iteration consumes eight draws, grows the log by SettingLog of the drawn setting, and keeps the handles in place |
| CustomTest.Harness.RunSettings | tests/test_opus_custom.c:431-483 | the inner loop grows the log by SettingsLog of the drawn settings and stops at the first failure |
| CustomTest.Harness.NextSetting | tests/test_opus_custom.c:431-482 | one pass of the inner loop consumes eight draws and advances the loop's trace by one setting, or ends it at that setting's failure |
| CustomTest.Harness.CloseHandles | tests/test_opus_custom.c:485-499 | the teardown logs CloseLog: the mode when a side is custom, then decoder and encoder through the destructors the flags select |
| CustomTest.Harness.RunConfiguration | tests/test_opus_custom.c:348-500 | one outer iteration grows the log by ConfigStep: nothing for a skipped configuration, ConfigLog otherwise |
| CustomTest.Harness.TestOpusCustom | tests/test_opus_custom.c:322-501 | the log of the whole run is RunLog of the draws and the library's answers, and the run fails exactly when that trace does |

## Left out

- The chirp (`sin`, `exp`, `log`) and its `floor(.5f + ...)` quantisation are
  left out. They are floating-point numerics, so the generated value of each
  mono sample is an input (`RunIo.sweep`).
- The RESYNTH RMS check and the `DISABLE_FLOAT_API` and `RESYNTH` build
  variants are left out. The model is the default build, with both float
  flags drawn.
- The codec library is opaque. `opus_custom_mode_create`, the decoder and
  encoder constructors, the ctl calls, encode, decode, the destructors and
  `opus_strerror` are answers supplied by `Library`/`RunIo` or events in
  the log. The packet bytes and the MAX_PACKET capacity are not modelled:
  an encode call is represented by the length it returns.
- The outbuf allocation's byte size (float or int16) is not modelled. The
  output buffer holds one slot per sample value.
- `fast_rand`, `iseed`/`Rw`/`Rz` and `test_failed` come from
  test_opus_common.h, which is not part of this model. Draws are a given
  stream, and `test_failed` ends the run.
- `main` is left out: the seed from argv, `SEED` or time and pid, the first
  `fast_rand()` draw it prints, and every `fprintf` diagnostic.
  `TestOpusCustom` starts from whatever stream position it is given.
- SineSweep.Pack24: where `(int32_t)q << 8` does not fit int32, C leaves the
  shift undefined (section 6.5.7 of the C11 standard), and so is the
  conversion of an out-of-range double to `int32_t`. The model chooses
  two's-complement wrap-around instead. test_encode only asks for 16-bit
  sweeps, so the harness never reaches this case.
- SineSweep.NumSamples: only whole-second durations are modelled. The
  harness always asks for 60 s, where `floor(.5 + d*rate)` is `d*rate`.
- SineSweep.GenerateSineSweep: for a non-float bit depth other than 16 or 24,
  the loop writes nothing. The contract then states only the size, because
  the C buffer is left uninitialised.
- CustomTest.Harness.TestOpusCustom: `num_encoders` and
  `num_setting_changes` are naturals. A negative `int` would run zero
  iterations, the same as 0.
- RoundTrip.TestEncode: it returns -1 when either allocation fails. The C
  code does not check this (see Findings). The corrected behaviour is the
  one the rest of the model uses.

## Findings

| source | as written | input that shows it | evidently intended | confidence | as-written member | corrected member |
|---|---|---|---|---|---|---|
| tests/test_opus_custom.c:128-159 | test_encode checks neither `inbuf` nor `outbuf` for NULL. After a failed sweep allocation (`input_samples` = 0) the do-while still runs one frame, encoding from and decoding into the NULL buffers | any configuration whose sweep malloc fails: `DoWhileFrames(0, frame_size) == 1` with frame 0 outside the empty buffer | return -1 (or fail) when an allocation fails, before the loop | not executed | RoundTrip.SweepAllocFailureOverruns | RoundTrip.TestEncode |
