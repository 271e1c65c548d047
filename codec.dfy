/**
  The boundary between the harness and the Opus library. Every library call
  (create, ctl, encode, decode) and every allocation is opaque here: its answer
  is an input of the model, supplied by a `Library` or `RunIo` value.
 */
module Codec {

  /** Opus (`opus_*`) or OpusCustom (`opus_custom_*`). */
  datatype Profile = Standard | Custom

  datatype Kind = Mode | Decoder | Encoder

  /** An object returned by a successful create call: what it is, which
      constructor made it, and in which configuration (outer iteration). */
  datatype Handle = Handle(kind: Kind, profile: Profile, config: nat)

  /** A C pointer variable holding a handle. */
  datatype Ptr = Null | Ptr(handle: Handle)

  /** Return code of a successful call (OPUS_OK in opus_defines.h). */
  const OpusOk: int := 0

  /** The OPUS_BITRATE_MAX sentinel of opus_defines.h. */
  const BitrateMax: int := -1

  /** `custom_encode` / `custom_decode` as a profile. */
  function ProfileOf(custom: bool): (p: Profile)
    ensures p == Custom <==> custom
  {
    if custom then Custom else Standard
  }

  /** The six encoder settings applied per inner iteration. */
  datatype Request =
    | SetBitrate(bitrate: int)
    | SetVbr(vbr: int)
    | SetVbrConstraint(constraint: int)
    | SetComplexity(complexity: int)
    | SetPacketLossPerc(percent: int)
    | SetLsbDepth(depth: int)

  /** An encode or decode entry point: `opus_[custom_]encode[_float]`,
      `opus_[custom_]decode[_float]`. */
  datatype Api = Api(profile: Profile, float: bool)

  /**
    What the outside world answers during one call of test_encode:
    - whether the sweep buffer and the output buffer allocations succeed;
    - `sweep(i)`: the value the chirp gives mono sample `i` in the output
      representation (the float, or the rounded integer before packing);
    - `encode(h, api, offset, pcm)`: the length returned when encoder `h` is
      called through `api` on the frame at sample offset `offset` holding `pcm`;
    - `decode(h, api, offset, len)`: the sample count returned by decoder `h`
      for that frame's packet of `len` bytes;
    - `pcm(api, offset, k)`: the `k`-th value the decoder writes for that frame.
   */
  datatype RunIo = RunIo(
    sweepAllocOk: bool,
    outAllocOk: bool,
    sweep: nat -> int,
    encode: (Handle, Api, nat, seq<int>) -> int,
    decode: (Handle, Api, nat, int) -> int,
    pcm: (Api, nat, nat) -> int)

  /**
    The library's answers for a whole run of test_opus_custom:
    - `createOk(h)`: creating `h` reports OPUS_OK and a non-NULL object;
    - `ctlStatus(h, j, r)`: the code returned by the ctl applying `r` to
      encoder `h` in inner iteration `j`;
    - `run(i, j)`: the answers during test_encode in iteration (i, j).
   */
  datatype Library = Library(
    createOk: Handle -> bool,
    ctlStatus: (Handle, nat, Request) -> int,
    run: (nat, nat) -> RunIo)
}
