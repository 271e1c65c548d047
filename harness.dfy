/**
  test_opus_custom: the outer loop over sampled configurations, the inner loop
  over encoder settings, and the create / ctl / destroy calls around each
  round trip. Every library call the harness makes is recorded in a ghost
  event log. The functions below give the exact trace a run produces from what
  the sampler draws and what the library answers, and the lemmas state the
  lifecycle guarantees of that trace.
 */
module CustomTest {
  import opened Codec
  import opened Sampling
  import opened RoundTrip

  /** One library call of the harness. */
  datatype Event =
    | Created(h: Handle)
    | Destroyed(destructor: Profile, h: Handle)
    | Configured(entry: Profile, h: Handle, request: Request)
    | EncodeRun(params: TestCustomParams, ret: int)

  /** The calls made, and whether test_failed was called after the last of
      them; test_failed does not return, so nothing follows it. */
  datatype Trace = Trace(events: seq<Event>, failed: bool)

  /** `events` happen first, then `t`. */
  function Prefix(events: seq<Event>, t: Trace): Trace
  {
    Trace(events + t.events, t.failed)
  }

  /** `a`, then `b` unless `a` ended in test_failed. */
  function Then(a: Trace, b: Trace): Trace
  {
    if a.failed then a else Prefix(a.events, b)
  }

  /** One step of a run whose calls so far are `done`: the log grows by the
      step's calls, and the rest of the run follows unless the step failed. */
  lemma StepInto(before: seq<Event>, done: seq<Event>, step: Trace, rest: Trace)
    ensures (before + done) + step.events == before + (done + step.events)
    ensures Prefix(done, Then(step, rest))
            == if step.failed then Trace(done + step.events, true) else Prefix(done + step.events, rest)
  {
    assert done + (step.events + rest.events) == (done + step.events) + rest.events;
  }

  /** The last step of a run whose calls so far are `done`. */
  lemma StepLast(before: seq<Event>, done: seq<Event>, step: Trace)
    ensures (before + done) + step.events == before + (done + step.events)
    ensures Prefix(done, step) == Trace(done + step.events, step.failed)
  {
  }

  /** Events that name a library object. */
  predicate HandleEvent(e: Event)
  {
    e.Created? || e.Destroyed? || e.Configured?
  }

  function Count(log: seq<Event>, e: Event): nat
  {
    multiset(log)[e]
  }

  lemma CountAppend(a: seq<Event>, b: seq<Event>, e: Event)
    ensures Count(a + b, e) == Count(a, e) + Count(b, e)
  {
    assert multiset(a + b) == multiset(a) + multiset(b);
  }

  // ---------------------------------------------------------------------
  // The objects of configuration `i`

  function ModeHandle(i: nat): Handle { Handle(Mode, Custom, i) }

  function DecoderHandle(c: Config, i: nat): Handle { Handle(Decoder, ProfileOf(c.customDecode), i) }

  function EncoderHandle(c: Config, i: nat): Handle { Handle(Encoder, ProfileOf(c.customEncode), i) }

  /** The mode object exists only when one side is OpusCustom. */
  predicate UsesMode(c: Config)
  {
    c.customEncode || c.customDecode
  }

  /** The objects iteration `i` creates, in creation order. */
  function Handles(c: Config, i: nat): seq<Handle>
  {
    (if UsesMode(c) then [ModeHandle(i)] else []) + [DecoderHandle(c, i), EncoderHandle(c, i)]
  }

  /** Every configuration the sampler accepts involves OpusCustom, so the
      guard on the mode's creation and destruction always holds. */
  lemma AcceptedConfigUsesMode(c: Config, i: nat)
    requires Legal(c)
    ensures UsesMode(c) && Handles(c, i) == [ModeHandle(i), DecoderHandle(c, i), EncoderHandle(c, i)]
  {
  }

  function Creations(hs: seq<Handle>): seq<Event>
  {
    seq(|hs|, k requires 0 <= k < |hs| => Created(hs[k]))
  }

  /** One create call and its check: the object is recorded, or test_failed
      is called. */
  function CreateStep(h: Handle, lib: Library): Trace
  {
    if lib.createOk(h) then Trace([Created(h)], false) else Trace([], true)
  }

  /** The create calls in order, each checked at once. */
  function CreateLog(hs: seq<Handle>, lib: Library): Trace
  {
    if hs == [] then Trace([], false)
    else Then(CreateStep(hs[0], lib), CreateLog(hs[1..], lib))
  }

  /** The create calls make the listed objects in order and stop at the first
      that the library refuses; without a refusal every object is created. */
  lemma {:induction false} CreateLogShape(hs: seq<Handle>, lib: Library)
    ensures var t := CreateLog(hs, lib);
            && |t.events| <= |hs| && t.events == Creations(hs[..|t.events|])
            && (forall k | 0 <= k < |t.events| :: lib.createOk(hs[k]))
            && (t.failed <==> |t.events| < |hs|)
            && (t.failed ==> !lib.createOk(hs[|t.events|]))
  {
    if hs != [] && lib.createOk(hs[0]) {
      var rest := CreateLog(hs[1..], lib);
      CreateLogShape(hs[1..], lib);
      var m := |rest.events|;
      assert hs[..m + 1] == [hs[0]] + hs[1..][..m];
      assert Creations(hs[..m + 1]) == [Created(hs[0])] + Creations(hs[1..][..m]);
    }
  }

  /** The create calls of a list that all succeed. */
  lemma CreateLogComplete(hs: seq<Handle>, lib: Library)
    requires !CreateLog(hs, lib).failed
    ensures CreateLog(hs, lib).events == Creations(hs)
  {
    CreateLogShape(hs, lib);
    assert hs[..|hs|] == hs;
  }

  /** The create calls record nothing but the listed objects. */
  lemma CreateLogCreatesOnly(hs: seq<Handle>, lib: Library)
    ensures forall e | e in CreateLog(hs, lib).events :: e.Created? && e.h in hs
  {
    CreateLogShape(hs, lib);
    var t := CreateLog(hs, lib);
    forall e | e in t.events
      ensures e.Created? && e.h in hs
    {
      var k :| 0 <= k < |t.events| && t.events[k] == e;
      assert hs[..|t.events|][k] == hs[k];
    }
  }

  /** The create calls of iteration `i`, one step per object. */
  lemma CreateLogOfHandles(c: Config, i: nat, lib: Library)
    ensures var tail := Then(CreateStep(DecoderHandle(c, i), lib), CreateStep(EncoderHandle(c, i), lib));
            CreateLog(Handles(c, i), lib)
            == if UsesMode(c) then Then(CreateStep(ModeHandle(i), lib), tail) else tail
  {
    var d, e := DecoderHandle(c, i), EncoderHandle(c, i);
    assert CreateLog([e], lib) == CreateStep(e, lib) by {
      assert [e][1..] == [];
      assert CreateStep(e, lib).events + [] == CreateStep(e, lib).events;
    }
    assert CreateLog([d, e], lib) == Then(CreateStep(d, lib), CreateLog([e], lib)) by {
      assert [d, e][1..] == [e];
    }
    if UsesMode(c) {
      assert Handles(c, i) == [ModeHandle(i), d, e] && Handles(c, i)[1..] == [d, e];
    } else {
      assert Handles(c, i) == [d, e];
    }
  }

  /** The destroy calls at the end of iteration `i`: the mode when one side
      is custom, then the decoder and the encoder, each through the destructor
      that the custom flag selects. */
  function CloseLog(c: Config, i: nat): seq<Event>
  {
    (if UsesMode(c) then [Destroyed(Custom, ModeHandle(i))] else [])
    + [Destroyed(ProfileOf(c.customDecode), DecoderHandle(c, i)),
       Destroyed(ProfileOf(c.customEncode), EncoderHandle(c, i))]
  }

  /** The teardown calls each destructor on an object of iteration `i`
      whose profile it matches. */
  lemma CloseLogDestroysOwn(c: Config, i: nat)
    ensures forall e | e in CloseLog(c, i) :: e.Destroyed? && e.destructor == e.h.profile && e.h.config == i
  {
  }

  /** A destroy call, through the matching destructor, per listed object. */
  function Destructions(hs: seq<Handle>): seq<Event>
  {
    seq(|hs|, k requires 0 <= k < |hs| => Destroyed(hs[k].profile, hs[k]))
  }

  /** Over a list of distinct objects, each listed object is created once and
      destroyed once, and no other object is. */
  lemma {:induction false} CountOnce(hs: seq<Handle>, h: Handle)
    requires forall a, b | 0 <= a < b < |hs| :: hs[a] != hs[b]
    ensures Count(Destructions(hs), Destroyed(h.profile, h)) == Count(Creations(hs), Created(h))
                                                            == if h in hs then 1 else 0
  {
    if hs != [] {
      var x, y := Created(h), Destroyed(h.profile, h);
      CountOnce(hs[1..], h);
      assert Creations(hs) == [Created(hs[0])] + Creations(hs[1..]);
      assert Destructions(hs) == [Destroyed(hs[0].profile, hs[0])] + Destructions(hs[1..]);
      CountAppend([Created(hs[0])], Creations(hs[1..]), x);
      CountAppend([Destroyed(hs[0].profile, hs[0])], Destructions(hs[1..]), y);
      assert h in hs <==> h == hs[0] || h in hs[1..];
      if h == hs[0] {
        assert h !in hs[1..];
      }
    }
  }

  /** Iteration `i` destroys exactly what it creates: each of its objects
      once, nothing else. */
  lemma CloseMatchesCreate(c: Config, i: nat, h: Handle)
    ensures Count(CloseLog(c, i), Destroyed(h.profile, h)) == Count(Creations(Handles(c, i)), Created(h))
                                                           == if h in Handles(c, i) then 1 else 0
  {
    var hs := Handles(c, i);
    assert CloseLog(c, i) == Destructions(hs);
    CountOnce(hs, h);
  }

  /** The mode object is among the objects of iteration `i` exactly when one
      side is OpusCustom. */
  lemma ModeOnlyWhenCustom(c: Config, i: nat)
    ensures ModeHandle(i) in Handles(c, i) <==> UsesMode(c)
  {
    if !UsesMode(c) {
      assert Handles(c, i) == [DecoderHandle(c, i), EncoderHandle(c, i)];
    }
  }

  // ---------------------------------------------------------------------
  // Settings

  /** The six encoder ctl requests of one inner iteration, in call order. */
  function Requests(s: Setting): seq<Request>
  {
    [SetBitrate(s.bitrate), SetVbr(s.vbr), SetVbrConstraint(s.vbrConstraint),
     SetComplexity(s.complexity), SetPacketLossPerc(s.packetLossPerc), SetLsbDepth(s.lsbDepth)]
  }

  /** One ctl call through `entry` on `h` and its OPUS_OK check. */
  function CtlStep(entry: Profile, h: Handle, j: nat, r: Request, lib: Library): Trace
  {
    Trace([Configured(entry, h, r)], lib.ctlStatus(h, j, r) != OpusOk)
  }

  /** The ctl calls of one inner iteration, each checked at once. */
  function CtlLog(entry: Profile, h: Handle, j: nat, rs: seq<Request>, lib: Library): Trace
  {
    if rs == [] then Trace([], false)
    else Then(CtlStep(entry, h, j, rs[0], lib), CtlLog(entry, h, j, rs[1..], lib))
  }

  /** The ctl calls send the requests in order through `entry` to `h`, and
      stop right after the first one the library refuses; without a refusal
      every request is sent. */
  lemma {:induction false} CtlLogShape(entry: Profile, h: Handle, j: nat, rs: seq<Request>, lib: Library)
    ensures var t := CtlLog(entry, h, j, rs, lib);
            && |t.events| <= |rs|
            && (forall k | 0 <= k < |t.events| :: t.events[k] == Configured(entry, h, rs[k]))
            && (t.failed <==> exists k | 0 <= k < |rs| :: lib.ctlStatus(h, j, rs[k]) != OpusOk)
            && (t.failed ==> |t.events| >= 1 && lib.ctlStatus(h, j, rs[|t.events| - 1]) != OpusOk)
            && (forall k | 0 <= k < |t.events| - 1 :: lib.ctlStatus(h, j, rs[k]) == OpusOk)
            && (!t.failed ==> |t.events| == |rs|)
  {
    if rs != [] && lib.ctlStatus(h, j, rs[0]) == OpusOk {
      var rest := CtlLog(entry, h, j, rs[1..], lib);
      CtlLogShape(entry, h, j, rs[1..], lib);
      assert CtlLog(entry, h, j, rs, lib) == Trace([Configured(entry, h, rs[0])] + rest.events, rest.failed);
      assert forall k | 1 <= k < |rs| :: rs[k] == rs[1..][k - 1];
      if exists k | 0 <= k < |rs| :: lib.ctlStatus(h, j, rs[k]) != OpusOk {
        var k :| 0 <= k < |rs| && lib.ctlStatus(h, j, rs[k]) != OpusOk;
        assert lib.ctlStatus(h, j, rs[1..][k - 1]) != OpusOk;
      }
    }
  }

  /** The ctl calls of one inner iteration, one step per request. */
  lemma CtlLogOfSetting(entry: Profile, h: Handle, j: nat, s: Setting, lib: Library)
    ensures CtlLog(entry, h, j, Requests(s), lib)
            == Then(CtlStep(entry, h, j, SetBitrate(s.bitrate), lib),
               Then(CtlStep(entry, h, j, SetVbr(s.vbr), lib),
               Then(CtlStep(entry, h, j, SetVbrConstraint(s.vbrConstraint), lib),
               Then(CtlStep(entry, h, j, SetComplexity(s.complexity), lib),
               Then(CtlStep(entry, h, j, SetPacketLossPerc(s.packetLossPerc), lib),
               CtlStep(entry, h, j, SetLsbDepth(s.lsbDepth), lib))))))
  {
    var rs := Requests(s);
    assert CtlLog(entry, h, j, rs[5..], lib) == CtlStep(entry, h, j, rs[5], lib) by {
      assert rs[5..][1..] == [];
      assert CtlStep(entry, h, j, rs[5], lib).events + [] == CtlStep(entry, h, j, rs[5], lib).events;
    }
    assert CtlLog(entry, h, j, rs[4..], lib) == Then(CtlStep(entry, h, j, rs[4], lib), CtlLog(entry, h, j, rs[5..], lib)) by {
      assert rs[4..][1..] == rs[5..];
    }
    assert CtlLog(entry, h, j, rs[3..], lib) == Then(CtlStep(entry, h, j, rs[3], lib), CtlLog(entry, h, j, rs[4..], lib)) by {
      assert rs[3..][1..] == rs[4..];
    }
    assert CtlLog(entry, h, j, rs[2..], lib) == Then(CtlStep(entry, h, j, rs[2], lib), CtlLog(entry, h, j, rs[3..], lib)) by {
      assert rs[2..][1..] == rs[3..];
    }
    assert CtlLog(entry, h, j, rs[1..], lib) == Then(CtlStep(entry, h, j, rs[1], lib), CtlLog(entry, h, j, rs[2..], lib)) by {
      assert rs[1..][1..] == rs[2..];
    }
    assert CtlLog(entry, h, j, rs, lib) == Then(CtlStep(entry, h, j, rs[0], lib), CtlLog(entry, h, j, rs[1..], lib));
  }

  /** The params test_encode receives in iteration (i, j). */
  function ParamsFor(c: Config, i: nat, s: Setting): TestCustomParams
  {
    TestCustomParams(Ptr(EncoderHandle(c, i)), Ptr(DecoderHandle(c, i)), c.sampleRate, c.numChannels,
                     c.frameSize, s.floatEncode, s.floatDecode, c.customEncode, c.customDecode)
  }

  /** An accepted configuration can be handed to test_encode: the handles
      match the flags and the frames tile the sweep. */
  lemma ParamsForRunnable(c: Config, i: nat, s: Setting)
    requires Legal(c)
    ensures Runnable(ParamsFor(c, i, s)) && HandlesMatch(ParamsFor(c, i, s))
  {
    LegalConfigTilesSweep(c);
  }

  /** The call of test_encode in iteration (i, j) and the check of its
      result. */
  function TestStep(c: Config, i: nat, j: nat, s: Setting, lib: Library): Trace
    requires Legal(c)
  {
    ParamsForRunnable(c, i, s);
    var p := ParamsFor(c, i, s);
    var ret := EncodeOutcome(p, lib.run(i, j));
    Trace([EncodeRun(p, ret)], ret != 0)
  }

  /** One inner iteration after its draws: the six ctl calls on the encoder,
      then the round trip. */
  function SettingLog(c: Config, i: nat, j: nat, s: Setting, lib: Library): Trace
    requires Legal(c)
  {
    Then(CtlLog(ProfileOf(c.customEncode), EncoderHandle(c, i), j, Requests(s), lib), TestStep(c, i, j, s, lib))
  }

  /** Every event of an inner iteration is a ctl call on the encoder of
      configuration `i` through the entry point of its own profile, or a
      round trip. */
  predicate SettingEvents(log: seq<Event>, c: Config, i: nat)
  {
    forall e | e in log :: e.EncodeRun? || (e.Configured? && e.h == EncoderHandle(c, i) && e.entry == e.h.profile)
  }

  /** One inner iteration configures only the encoder of its configuration,
      through that encoder's own entry point; the round trip runs exactly when
      every ctl call succeeded. */
  lemma SettingLogShape(c: Config, i: nat, j: nat, s: Setting, lib: Library)
    requires Legal(c)
    ensures var t := SettingLog(c, i, j, s, lib);
            && SettingEvents(t.events, c, i)
            && ((exists k | 0 <= k < |t.events| :: t.events[k].EncodeRun?)
                <==> forall r | r in Requests(s) :: lib.ctlStatus(EncoderHandle(c, i), j, r) == OpusOk)
  {
    var h := EncoderHandle(c, i);
    var rs := Requests(s);
    var ctl := CtlLog(ProfileOf(c.customEncode), h, j, rs, lib);
    CtlLogShape(ProfileOf(c.customEncode), h, j, rs, lib);
    var t := SettingLog(c, i, j, s, lib);
    if ctl.failed {
      assert forall k | 0 <= k < |t.events| :: !t.events[k].EncodeRun?;
      var k :| 0 <= k < |rs| && lib.ctlStatus(h, j, rs[k]) != OpusOk;
      assert rs[k] in rs;
    } else {
      assert t.events[|t.events| - 1].EncodeRun?;
      forall r | r in rs
        ensures lib.ctlStatus(h, j, r) == OpusOk
      {
        var k :| 0 <= k < |rs| && rs[k] == r;
      }
    }
  }

  /** Inner iterations j .. n-1, the setting of iteration j drawn at `pos`. */
  function SettingsLog(c: Config, i: nat, ss: nat -> Setting, lib: Library, pos: nat, j: nat, n: nat): Trace
    requires Legal(c)
    decreases n - j
  {
    if j >= n then Trace([], false)
    else Then(SettingLog(c, i, j, ss(pos), lib), SettingsLog(c, i, ss, lib, pos + SettingDraws, j + 1, n))
  }

  lemma {:induction false} SettingsLogShape(c: Config, i: nat, ss: nat -> Setting, lib: Library, pos: nat, j: nat, n: nat)
    requires Legal(c)
    ensures SettingEvents(SettingsLog(c, i, ss, lib, pos, j, n).events, c, i)
    decreases n - j
  {
    if j < n {
      SettingLogShape(c, i, j, ss(pos), lib);
      SettingsLogShape(c, i, ss, lib, pos + SettingDraws, j + 1, n);
    }
  }

  /** Outer iteration `i` of an accepted configuration whose settings start
      at draw `pos`: the creates, the inner loop, the teardown. */
  function ConfigLog(c: Config, i: nat, ss: nat -> Setting, lib: Library, pos: nat, n: nat): Trace
    requires Legal(c)
  {
    Then(CreateLog(Handles(c, i), lib), Then(SettingsLog(c, i, ss, lib, pos, 0, n), Trace(CloseLog(c, i), false)))
  }

  /** An outer iteration touches only its own objects. */
  lemma ConfigShape(c: Config, i: nat, ss: nat -> Setting, lib: Library, pos: nat, n: nat)
    requires Legal(c)
    ensures forall e | e in ConfigLog(c, i, ss, lib, pos, n).events && HandleEvent(e) :: e.h.config == i
  {
    CreateLogCreatesOnly(Handles(c, i), lib);
    SettingsLogShape(c, i, ss, lib, pos, 0, n);
    CloseLogDestroysOwn(c, i);
  }

  /** Outer iteration `i` from draw `pos`: nothing when the sampler skips
      the configuration, ConfigLog otherwise. */
  function ConfigStep(cs: nat -> Sampled, ss: nat -> Setting, lib: Library, i: nat, pos: nat, n: nat): Trace
    requires AcceptsOnlyLegal(cs)
  {
    var s := cs(pos);
    if s.Accepted? then ConfigLog(s.config, i, ss, lib, s.next, n) else Trace([], false)
  }

  /** The draw position after inner iterations j .. n-1 started at `pos`,
      SettingDraws each; it follows the positions SettingsLog uses. */
  function SettingsEnd(pos: nat, j: nat, n: nat): nat
    decreases n - j
  {
    if j >= n then pos else SettingsEnd(pos + SettingDraws, j + 1, n)
  }

  /** The draw position after outer iteration `i` when it did not fail: an
      accepted configuration also consumes the draws of its `n` settings. */
  function AfterConfig(cs: nat -> Sampled, pos: nat, n: nat): nat
  {
    var s := cs(pos);
    if s.Accepted? then SettingsEnd(s.next, 0, n) else s.next
  }

  /** Outer iterations i .. N-1, the configuration of iteration i drawn at
      `pos` by `cs`, its settings by `ss`; `n` settings per configuration. */
  function RunLog(cs: nat -> Sampled, ss: nat -> Setting, lib: Library, i: nat, pos: nat, N: nat, n: nat): Trace
    requires AcceptsOnlyLegal(cs)
    decreases N - i
  {
    if i >= N then Trace([], false)
    else Then(ConfigStep(cs, ss, lib, i, pos, n), RunLog(cs, ss, lib, i + 1, AfterConfig(cs, pos, n), N, n))
  }

  /** Iteration `i` onwards touches only objects of iterations `i` onwards. */
  lemma {:induction false} RunShape(cs: nat -> Sampled, ss: nat -> Setting, lib: Library, i: nat, pos: nat, N: nat, n: nat)
    requires AcceptsOnlyLegal(cs)
    ensures forall e | e in RunLog(cs, ss, lib, i, pos, N, n).events && HandleEvent(e) :: e.h.config >= i
    decreases N - i
  {
    if i < N {
      var s := cs(pos);
      if s.Accepted? {
        ConfigShape(s.config, i, ss, lib, s.next, n);
      }
      RunShape(cs, ss, lib, i + 1, AfterConfig(cs, pos, n), N, n);
    }
  }
  // ---------------------------------------------------------------------
  // Lifecycle guarantees

  /** Every destroy call of an accepted configuration uses the destructor
      matching its object's profile, and a failed iteration destroys nothing:
      test_failed does not return to the teardown. */
  lemma ConfigDestructors(c: Config, i: nat, ss: nat -> Setting, lib: Library, pos: nat, n: nat)
    requires Legal(c)
    ensures var t := ConfigLog(c, i, ss, lib, pos, n);
            && (forall e | e in t.events && e.Destroyed? :: e.destructor == e.h.profile)
            && (t.failed ==> forall e | e in t.events :: !e.Destroyed?)
  {
    CreateLogCreatesOnly(Handles(c, i), lib);
    SettingsLogShape(c, i, ss, lib, pos, 0, n);
    CloseLogDestroysOwn(c, i);
  }

  /** A log that opens with creates ending in the encoder's, then holds ctl
      calls on that encoder only, configures nothing it has not created. */
  lemma CreatedBeforeConfigured(open: seq<Event>, rest: seq<Event>, enc: Handle)
    requires open != [] && open[|open| - 1] == Created(enc)
    requires forall k | 0 <= k < |open| :: open[k].Created?
    requires forall e | e in rest && e.Configured? :: e.h == enc && e.entry == enc.profile
    ensures var log := open + rest;
            forall k | 0 <= k < |log| && log[k].Configured? ::
              log[k].h == enc && log[k].entry == log[k].h.profile && Created(log[k].h) in log[..k]
  {
    var log := open + rest;
    forall k | 0 <= k < |log| && log[k].Configured?
      ensures log[k].h == enc && log[k].entry == log[k].h.profile && Created(log[k].h) in log[..k]
    {
      assert log[k] == rest[k - |open|];
      assert log[..k][|open| - 1] == open[|open| - 1];
    }
  }

  /** Every ctl call of an accepted configuration goes to the encoder
      variant created earlier in the same iteration, through the entry point
      of that variant. */
  lemma ConfigCtlTargets(c: Config, i: nat, ss: nat -> Setting, lib: Library, pos: nat, n: nat)
    requires Legal(c)
    ensures var log := ConfigLog(c, i, ss, lib, pos, n).events;
            forall k | 0 <= k < |log| && log[k].Configured? ::
              log[k].h == EncoderHandle(c, i) && log[k].entry == log[k].h.profile && Created(log[k].h) in log[..k]
  {
    var open := CreateLog(Handles(c, i), lib);
    CreateLogCreatesOnly(Handles(c, i), lib);
    if !open.failed {
      CreateLogComplete(Handles(c, i), lib);
      SettingsLogShape(c, i, ss, lib, pos, 0, n);
      CloseLogDestroysOwn(c, i);
      var rest := Then(SettingsLog(c, i, ss, lib, pos, 0, n), Trace(CloseLog(c, i), false)).events;
      assert ConfigLog(c, i, ss, lib, pos, n).events == open.events + rest;
      assert open.events[|open.events| - 1] == Created(EncoderHandle(c, i));
      CreatedBeforeConfigured(open.events, rest, EncoderHandle(c, i));
    } else {
      var log := ConfigLog(c, i, ss, lib, pos, n).events;
      assert forall k | 0 <= k < |log| :: log[k] in open.events;
    }
  }

  /** An accepted configuration run to completion: every create, then the
      inner loop (no create or destroy), then every destroy. */
  lemma ConfigParts(c: Config, i: nat, ss: nat -> Setting, lib: Library, pos: nat, n: nat)
    requires Legal(c) && !ConfigLog(c, i, ss, lib, pos, n).failed
    ensures var body := SettingsLog(c, i, ss, lib, pos, 0, n).events;
            && ConfigLog(c, i, ss, lib, pos, n).events == Creations(Handles(c, i)) + (body + CloseLog(c, i))
            && forall e | e in body :: !e.Created? && !e.Destroyed?
  {
    CreateLogComplete(Handles(c, i), lib);
    SettingsLogShape(c, i, ss, lib, pos, 0, n);
  }

  lemma CountParts(open: seq<Event>, body: seq<Event>, close: seq<Event>, e: Event)
    requires e !in body
    ensures Count(open + (body + close), e) == Count(open, e) + Count(close, e)
  {
    CountAppend(body, close, e);
    CountAppend(open, body + close, e);
  }

  lemma CreationsCount(hs: seq<Handle>, e: Event)
    requires !e.Created?
    ensures Count(Creations(hs), e) == 0
  {
    assert e !in Creations(hs);
  }

  lemma CloseLogCount(c: Config, i: nat, e: Event)
    requires !e.Destroyed?
    ensures Count(CloseLog(c, i), e) == 0
  {
    CloseLogDestroysOwn(c, i);
    assert e !in CloseLog(c, i);
  }

  /** One accepted configuration, run to completion, creates each of its
      objects once and destroys each once with the destructor of its
      profile. */
  lemma ConfigPaired(c: Config, i: nat, ss: nat -> Setting, lib: Library, pos: nat, n: nat, h: Handle)
    requires Legal(c) && !ConfigLog(c, i, ss, lib, pos, n).failed
    ensures var log := ConfigLog(c, i, ss, lib, pos, n).events;
            Count(log, Created(h)) == Count(log, Destroyed(h.profile, h)) == if h in Handles(c, i) then 1 else 0
  {
    var x, y := Created(h), Destroyed(h.profile, h);
    var body := SettingsLog(c, i, ss, lib, pos, 0, n).events;
    ConfigParts(c, i, ss, lib, pos, n);
    CountParts(Creations(Handles(c, i)), body, CloseLog(c, i), x);
    CountParts(Creations(Handles(c, i)), body, CloseLog(c, i), y);
    CreationsCount(Handles(c, i), y);
    CloseLogCount(c, i, x);
    CloseMatchesCreate(c, i, h);
  }

  /** A run that does not fail is its first outer iteration followed by the
      rest, neither of which fails. */
  lemma RunParts(cs: nat -> Sampled, ss: nat -> Setting, lib: Library, i: nat, pos: nat, N: nat, n: nat)
    requires AcceptsOnlyLegal(cs) && i < N && !RunLog(cs, ss, lib, i, pos, N, n).failed
    ensures var block := ConfigStep(cs, ss, lib, i, pos, n);
            var rest := RunLog(cs, ss, lib, i + 1, AfterConfig(cs, pos, n), N, n);
            && !block.failed && !rest.failed
            && RunLog(cs, ss, lib, i, pos, N, n).events == block.events + rest.events
  {
  }

  /** Outer iteration `i`, completed, creates and destroys each object of its
      own at most once and in pairs, and none of another iteration. */
  lemma ConfigStepPaired(cs: nat -> Sampled, ss: nat -> Setting, lib: Library, i: nat, pos: nat, n: nat, h: Handle)
    requires AcceptsOnlyLegal(cs) && !ConfigStep(cs, ss, lib, i, pos, n).failed
    ensures var block := ConfigStep(cs, ss, lib, i, pos, n).events;
            && Count(block, Created(h)) <= 1
            && Count(block, Destroyed(h.profile, h)) == Count(block, Created(h))
            && (h.config != i ==> Count(block, Created(h)) == 0)
  {
    var s := cs(pos);
    if s.Accepted? {
      ConfigPaired(s.config, i, ss, lib, s.next, n, h);
    }
  }

  /** Iterations after `h`'s own neither create nor destroy it. */
  lemma LaterRunsLeave(cs: nat -> Sampled, ss: nat -> Setting, lib: Library, i: nat, pos: nat, N: nat, n: nat, h: Handle)
    requires AcceptsOnlyLegal(cs) && h.config < i
    ensures var log := RunLog(cs, ss, lib, i, pos, N, n).events;
            Count(log, Created(h)) == 0 && Count(log, Destroyed(h.profile, h)) == 0
  {
    RunShape(cs, ss, lib, i, pos, N, n);
    var log := RunLog(cs, ss, lib, i, pos, N, n).events;
    assert Created(h) !in log && Destroyed(h.profile, h) !in log;
  }

  /** A whole run that ends without failure creates every object at most
      once and destroys it, with the destructor of its profile, exactly as
      often as it was created. */
  lemma {:induction false} RunPaired(cs: nat -> Sampled, ss: nat -> Setting, lib: Library, i: nat, pos: nat, N: nat, n: nat, h: Handle)
    requires AcceptsOnlyLegal(cs) && !RunLog(cs, ss, lib, i, pos, N, n).failed
    ensures var log := RunLog(cs, ss, lib, i, pos, N, n).events;
            Count(log, Created(h)) <= 1 && Count(log, Destroyed(h.profile, h)) == Count(log, Created(h))
    decreases N - i
  {
    if i < N {
      var block := ConfigStep(cs, ss, lib, i, pos, n).events;
      var rest := RunLog(cs, ss, lib, i + 1, AfterConfig(cs, pos, n), N, n).events;
      RunParts(cs, ss, lib, i, pos, N, n);
      CountAppend(block, rest, Created(h));
      CountAppend(block, rest, Destroyed(h.profile, h));
      ConfigStepPaired(cs, ss, lib, i, pos, n, h);
      if h.config == i {
        LaterRunsLeave(cs, ss, lib, i + 1, AfterConfig(cs, pos, n), N, n, h);
      } else {
        RunPaired(cs, ss, lib, i + 1, AfterConfig(cs, pos, n), N, n, h);
      }
    }
  }

  /** Every destroy call of a run uses the destructor matching its object's
      profile. */
  lemma {:induction false} RunDestructors(cs: nat -> Sampled, ss: nat -> Setting, lib: Library, i: nat, pos: nat, N: nat, n: nat)
    requires AcceptsOnlyLegal(cs)
    ensures forall e | e in RunLog(cs, ss, lib, i, pos, N, n).events && e.Destroyed? :: e.destructor == e.h.profile
    decreases N - i
  {
    if i < N {
      var s := cs(pos);
      if s.Accepted? {
        ConfigDestructors(s.config, i, ss, lib, s.next, n);
      }
      RunDestructors(cs, ss, lib, i + 1, AfterConfig(cs, pos, n), N, n);
    }
  }

  /** A configuration that the sampler skips creates no mode, encoder or
      decoder: nothing in the log belongs to its iteration. */
  lemma SkippedConfigCreatesNothing(cs: nat -> Sampled, ss: nat -> Setting, lib: Library, i: nat, pos: nat, N: nat, n: nat)
    requires AcceptsOnlyLegal(cs) && i < N && !cs(pos).Accepted?
    ensures forall e | e in RunLog(cs, ss, lib, i, pos, N, n).events && HandleEvent(e) :: e.h.config != i
  {
    RunShape(cs, ss, lib, i + 1, cs(pos).next, N, n);
  }

  // ---------------------------------------------------------------------
  // The harness state

  /** fast_rand's state: the seeded stream of 32-bit draws and how many have
      been consumed. */
  class Rng {
    const draws: nat -> Draw
    var pos: nat

    constructor (draws: nat -> Draw)
      ensures this.draws == draws && pos == 0
    {
      this.draws := draws;
      pos := 0;
    }

    method Next() returns (r: Draw)
      modifies this
      ensures r == draws(old(pos)) && pos == old(pos) + 1
    {
      r := draws(pos);
      pos := pos + 1;
    }
  }

  /** The locals of test_opus_custom: the params struct, the five handle
      variables (which keep their last value across iterations), whether
      test_failed was called, and the ghost log of library calls. */
  class Harness {
    const rng: Rng
    const lib: Library
    var params: TestCustomParams
    var mode: Ptr
    var encC: Ptr
    var decC: Ptr
    var enc: Ptr
    var dec: Ptr
    var failed: bool
    ghost var log: seq<Event>

    /** params holds the shape of configuration `c`. */
    ghost predicate Shaped(c: Config)
      reads this
    {
      && params.sampleRate == c.sampleRate && params.numChannels == c.numChannels
      && params.frameSize == c.frameSize
      && params.customEncode == c.customEncode && params.customDecode == c.customDecode
    }

    /** The handle variables that iteration `i` reads hold its objects. */
    ghost predicate Ready(c: Config, i: nat)
      reads this
    {
      && Shaped(c)
      && (UsesMode(c) ==> mode == Ptr(ModeHandle(i)))
      && (if c.customDecode then decC else dec) == Ptr(DecoderHandle(c, i))
      && (if c.customEncode then encC else enc) == Ptr(EncoderHandle(c, i))
      && params.encoder == Ptr(EncoderHandle(c, i))
      && params.decoder == Ptr(DecoderHandle(c, i))
    }

    /** `TestCustomParams params = {0}` and NULL handles. */
    constructor (rng: Rng, lib: Library)
      ensures this.rng == rng && this.lib == lib
      ensures params == TestCustomParams(Null, Null, 0, 0, 0, false, false, false, false)
      ensures mode == Null && encC == Null && decC == Null && enc == Null && dec == Null
      ensures !failed && log == []
    {
      this.rng := rng;
      this.lib := lib;
      params := TestCustomParams(Null, Null, 0, 0, 0, false, false, false, false);
      mode, encC, decC, enc, dec := Null, Null, Null, Null, Null;
      failed := false;
      log := [];
    }

    /** RAND_SAMPLE(a) on a table of `n` elements: one draw, reduced to an
        index of `a`. */
    method RandSample(a: seq<int>, n: nat) returns (v: int)
      requires |a| == n >= 1
      modifies rng
      ensures v == Pick(a, n, rng.draws(old(rng.pos))) && rng.pos == old(rng.pos) + 1
    {
      var r := rng.Next();
      v := a[(r % (n * IntSize)) / IntSize];
    }

    /** test_failed: the run ends. */
    method TestFailed()
      requires !failed
      modifies this`failed
      ensures failed
    {
      failed := true;
    }

    /** The draws of one outer iteration, stored into params as they are
        made. A result other than Accepted is a `continue`: the iteration
        creates nothing. */
    method DrawConfig() returns (s: Sampled)
      modifies rng, this`params
      ensures s == SampleConfig(rng.draws, old(rng.pos)) && rng.pos == s.next
      ensures s.Accepted? ==> Shaped(s.config)
      ensures params.encoder == old(params.encoder) && params.decoder == old(params.decoder)
    {
      var rate := RandSample(SamplingRates, 5);
      params := params.(sampleRate := rate, customEncode := true, customDecode := true);
      if params.sampleRate == 48000 {
        var customEncode := RandSample(UseCustomEncode, 2);
        var customDecode := RandSample(UseCustomDecode, 2);
        params := params.(customEncode := customEncode != 0, customDecode := customDecode != 0);
        if !(params.customEncode || params.customDecode) {
          return NoCustom(rng.pos);
        }
      }
      s := DrawShape();
    }

    /** The channel and duration draws, and the short-frame skip. */
    method DrawShape() returns (s: Sampled)
      modifies rng, this`params
      ensures s == SampleShape(rng.draws, old(rng.pos), old(params.sampleRate),
                               old(params.customEncode), old(params.customDecode))
      ensures rng.pos == s.next
      ensures s.Accepted? ==> Shaped(s.config)
      ensures params.encoder == old(params.encoder) && params.decoder == old(params.decoder)
    {
      var channels := RandSample(Channels, 2);
      params := params.(numChannels := channels);
      var msX2 := RandSample(FrameSizesMsX2, 4);
      params := params.(frameSize := msX2 * params.sampleRate / 2000);
      if (params.sampleRate == 8000 || params.sampleRate == 12000) && msX2 == 5 {
        return ShortFrame(rng.pos);
      }
      s := Accepted(Config(params.sampleRate, channels, msX2, params.frameSize,
                           params.customEncode, params.customDecode), rng.pos);
    }

    /** A create call followed by its check of err and the returned pointer. */
    method Create(h: Handle) returns (p: Ptr)
      requires !failed
      modifies this`failed, this`log
      ensures log == old(log) + CreateStep(h, lib).events && failed == CreateStep(h, lib).failed
      ensures !failed ==> p == Ptr(h)
    {
      if lib.createOk(h) {
        p := Ptr(h);
        log := log + [Created(h)];
      } else {
        p := Null;
        TestFailed();
      }
    }

    /** The decoder of iteration `i`, stored in its variable and in params. */
    method CreateDecoder(c: Config, i: nat)
      requires !failed && Shaped(c)
      modifies this`decC, this`dec, this`params, this`failed, this`log
      ensures var t := CreateStep(DecoderHandle(c, i), lib); log == old(log) + t.events && failed == t.failed
      ensures !failed ==> (if c.customDecode then decC else dec) == Ptr(DecoderHandle(c, i))
                          && params.decoder == Ptr(DecoderHandle(c, i))
      ensures params == old(params).(decoder := params.decoder)
    {
      if params.customDecode {
        decC := Create(DecoderHandle(c, i));
        params := params.(decoder := decC);
      } else {
        dec := Create(DecoderHandle(c, i));
        params := params.(decoder := dec);
      }
    }

    /** The encoder of iteration `i`, stored in its variable and in params. */
    method CreateEncoder(c: Config, i: nat)
      requires !failed && Shaped(c)
      modifies this`encC, this`enc, this`params, this`failed, this`log
      ensures var t := CreateStep(EncoderHandle(c, i), lib); log == old(log) + t.events && failed == t.failed
      ensures !failed ==> (if c.customEncode then encC else enc) == Ptr(EncoderHandle(c, i))
                          && params.encoder == Ptr(EncoderHandle(c, i))
      ensures params == old(params).(encoder := params.encoder)
    {
      if params.customEncode {
        encC := Create(EncoderHandle(c, i));
        params := params.(encoder := encC);
      } else {
        enc := Create(EncoderHandle(c, i));
        params := params.(encoder := enc);
      }
    }

    /** The create calls of iteration `i` in source order: the mode when one
        side is custom, then the decoder, then the encoder. */
    method OpenHandles(c: Config, i: nat)
      requires !failed && Shaped(c)
      modifies this`mode, this`decC, this`dec, this`encC, this`enc, this`params, this`failed, this`log
      ensures var t := CreateLog(Handles(c, i), lib); log == old(log) + t.events && failed == t.failed
      ensures !failed ==> Ready(c, i)
      ensures params.floatEncode == old(params.floatEncode) && params.floatDecode == old(params.floatDecode)
    {
      ghost var dStep, eStep := CreateStep(DecoderHandle(c, i), lib), CreateStep(EncoderHandle(c, i), lib);
      ghost var tail := Then(dStep, eStep);
      CreateLogOfHandles(c, i, lib);
      ghost var done: seq<Event> := [];
      if params.customEncode || params.customDecode {
        mode := Create(ModeHandle(i));
        StepInto(old(log), done, CreateStep(ModeHandle(i), lib), tail);
        if failed {
          return;
        }
        done := done + CreateStep(ModeHandle(i), lib).events;
      }
      CreateDecoder(c, i);
      StepInto(old(log), done, dStep, eStep);
      if failed {
        return;
      }
      done := done + dStep.events;
      CreateEncoder(c, i);
      StepLast(old(log), done, eStep);
    }

    /** The draws of one inner iteration; the two float flags go into
        params. */
    method DrawSetting() returns (s: Setting)
      modifies rng, this`params
      ensures s == SampleSetting(rng.draws, old(rng.pos)) && rng.pos == old(rng.pos) + SettingDraws
      ensures params == old(params).(floatEncode := s.floatEncode, floatDecode := s.floatDecode)
    {
      var bitrate := RandSample(Bitrates, 10);
      var vbr := RandSample(UseVbr, 3);
      var vbrConstraint := RandSample(VbrConstraints, 3);
      var complexity := RandSample(Complexities, 11);
      var pktLoss := RandSample(PacketLossPerc, 4);
      var lsbDepth := RandSample(LsbDepths, 2);
      var floatEncode := RandSample(UseFloatEncode, 2);
      params := params.(floatEncode := floatEncode != 0);
      var floatDecode := RandSample(UseFloatDecode, 2);
      params := params.(floatDecode := floatDecode != 0);
      s := Setting(bitrate, vbr, vbrConstraint, complexity, pktLoss, lsbDepth, params.floatEncode, params.floatDecode);
    }

    /** A ctl call on the encoder and its OPUS_OK check. */
    method Ctl(entry: Profile, encoder: Ptr, j: nat, r: Request)
      requires !failed && encoder.Ptr?
      modifies this`failed, this`log
      ensures var t := CtlStep(entry, encoder.handle, j, r, lib); log == old(log) + t.events && failed == t.failed
    {
      log := log + [Configured(entry, encoder.handle, r)];
      if lib.ctlStatus(encoder.handle, j, r) != OpusOk {
        TestFailed();
      }
    }

    /** A ctl call as one step of a chain of calls whose trace is `whole`;
        `done` is what the chain has logged so far. */
    method CtlInto(entry: Profile, encoder: Ptr, j: nat, r: Request, ghost rest: Trace, ghost whole: Trace,
                   ghost before: seq<Event>, ghost done: seq<Event>)
      returns (ghost done': seq<Event>)
      requires !failed && encoder.Ptr? && log == before + done
      requires whole == Prefix(done, Then(CtlStep(entry, encoder.handle, j, r, lib), rest))
      modifies this`failed, this`log
      ensures log == before + done'
      ensures failed ==> whole == Trace(done', true)
      ensures !failed ==> whole == Prefix(done', rest)
    {
      ghost var step := CtlStep(entry, encoder.handle, j, r, lib);
      Ctl(entry, encoder, j, r);
      StepInto(before, done, step, rest);
      done' := done + step.events;
    }

    /** The six ctl calls of inner iteration `j`, each checked at once. */
    method ConfigureEncoder(entry: Profile, encoder: Ptr, j: nat, s: Setting)
      requires !failed && encoder.Ptr?
      modifies this`failed, this`log
      ensures var t := CtlLog(entry, encoder.handle, j, Requests(s), lib); log == old(log) + t.events && failed == t.failed
    {
      ghost var h := encoder.handle;
      CtlLogOfSetting(entry, h, j, s, lib);
      ghost var t6 := CtlStep(entry, h, j, SetLsbDepth(s.lsbDepth), lib);
      ghost var t5 := Then(CtlStep(entry, h, j, SetPacketLossPerc(s.packetLossPerc), lib), t6);
      ghost var t4 := Then(CtlStep(entry, h, j, SetComplexity(s.complexity), lib), t5);
      ghost var t3 := Then(CtlStep(entry, h, j, SetVbrConstraint(s.vbrConstraint), lib), t4);
      ghost var t2 := Then(CtlStep(entry, h, j, SetVbr(s.vbr), lib), t3);
      ghost var whole := CtlLog(entry, h, j, Requests(s), lib);
      assert [] + whole.events == whole.events;
      ghost var done := CtlInto(entry, encoder, j, SetBitrate(s.bitrate), t2, whole, old(log), []);
      if failed { return; }
      done := CtlInto(entry, encoder, j, SetVbr(s.vbr), t3, whole, old(log), done);
      if failed { return; }
      done := CtlInto(entry, encoder, j, SetVbrConstraint(s.vbrConstraint), t4, whole, old(log), done);
      if failed { return; }
      done := CtlInto(entry, encoder, j, SetComplexity(s.complexity), t5, whole, old(log), done);
      if failed { return; }
      done := CtlInto(entry, encoder, j, SetPacketLossPerc(s.packetLossPerc), t6, whole, old(log), done);
      if failed { return; }
      Ctl(entry, encoder, j, SetLsbDepth(s.lsbDepth));
      StepLast(old(log), done, t6);
    }

    /** test_encode on the current params and the check of its result. */
    method RunTest(c: Config, i: nat, j: nat, s: Setting)
      requires !failed && Legal(c) && params == ParamsFor(c, i, s)
      modifies this`failed, this`log
      ensures var t := TestStep(c, i, j, s, lib); log == old(log) + t.events && failed == t.failed
    {
      ParamsForRunnable(c, i, s);
      var ret;
      ghost var frames;
      ret, frames := TestEncode(params, lib.run(i, j));
      log := log + [EncodeRun(params, ret)];
      if ret != 0 {
        TestFailed();
      }
    }

    /** Inner iteration `j` of configuration `i`: eight draws, six ctl calls
        on the encoder variant in use, then test_encode. */
    method ApplySetting(c: Config, i: nat, j: nat)
      requires !failed && Legal(c) && Ready(c, i)
      modifies this`params, this`failed, this`log, rng
      ensures rng.pos == old(rng.pos) + SettingDraws
      ensures var t := SettingLog(c, i, j, SampleSetting(rng.draws, old(rng.pos)), lib);
              log == old(log) + t.events && failed == t.failed
      ensures Ready(c, i)
    {
      var s := DrawSetting();
      assert Ready(c, i) && params == ParamsFor(c, i, s);
      ConfigureAndTest(c, i, j, s);
    }

    /** The six ctl calls of setting `s`, then test_encode. */
    method ConfigureAndTest(c: Config, i: nat, j: nat, s: Setting)
      requires !failed && Legal(c) && Ready(c, i) && params == ParamsFor(c, i, s)
      modifies this`failed, this`log
      ensures var t := SettingLog(c, i, j, s, lib); log == old(log) + t.events && failed == t.failed
    {
      var entry := ProfileOf(params.customEncode);
      var encoder := if params.customEncode then encC else enc;
      ghost var ctl := CtlLog(entry, encoder.handle, j, Requests(s), lib);
      ConfigureEncoder(entry, encoder, j, s);
      StepInto(old(log), [], ctl, TestStep(c, i, j, s, lib));
      if failed {
        return;
      }
      RunTest(c, i, j, s);
    }

    /** The inner loop of iteration `i`: `n` settings, stopping at the first
        failure. */
    method RunSettings(c: Config, i: nat, n: nat)
      requires !failed && Legal(c) && Ready(c, i)
      modifies this`params, this`failed, this`log, rng
      ensures var t := SettingsLog(c, i, SettingSampler(rng.draws), lib, old(rng.pos), 0, n);
              log == old(log) + t.events && failed == t.failed
      ensures !failed ==> rng.pos == SettingsEnd(old(rng.pos), 0, n)
      ensures Ready(c, i)
    {
      ghost var ss := SettingSampler(rng.draws);
      ghost var pos := rng.pos;
      ghost var whole := SettingsLog(c, i, ss, lib, pos, 0, n);
      ghost var end := SettingsEnd(pos, 0, n);
      ghost var done: seq<Event> := [];
      for j := 0 to n
        invariant !failed && Ready(c, i) && rng.pos == pos
        invariant end == SettingsEnd(pos, j, n)
        invariant log == old(log) + done
        invariant whole == Prefix(done, SettingsLog(c, i, ss, lib, pos, j, n))
      {
        done := NextSetting(c, i, j, n, ss, whole, end, old(log), done);
        if failed {
          break;
        }
        pos := pos + SettingDraws;
      }
      if !failed {
        assert done + [] == done;
      }
    }

    /** One pass of the inner loop, as a step of the trace `whole` of the
        loop: `done` is what the loop has logged so far. */
    method NextSetting(c: Config, i: nat, j: nat, n: nat, ghost ss: nat -> Setting, ghost whole: Trace, ghost end: nat,
                       ghost before: seq<Event>, ghost done: seq<Event>)
      returns (ghost done': seq<Event>)
      requires !failed && Legal(c) && Ready(c, i) && j < n && ss == SettingSampler(rng.draws)
      requires log == before + done
      requires whole == Prefix(done, SettingsLog(c, i, ss, lib, rng.pos, j, n))
      requires end == SettingsEnd(rng.pos, j, n)
      modifies this`params, this`failed, this`log, rng
      ensures Ready(c, i) && rng.pos == old(rng.pos) + SettingDraws
      ensures end == SettingsEnd(rng.pos, j + 1, n)
      ensures log == before + done'
      ensures failed ==> whole == Trace(done', true)
      ensures !failed ==> whole == Prefix(done', SettingsLog(c, i, ss, lib, rng.pos, j + 1, n))
    {
      ghost var step := SettingLog(c, i, j, ss(rng.pos), lib);
      ghost var rest := SettingsLog(c, i, ss, lib, rng.pos + SettingDraws, j + 1, n);
      ApplySetting(c, i, j);
      StepInto(before, done, step, rest);
      done' := done + step.events;
    }

    /** The destroy calls at the end of iteration `i`, through the handle
        variables and the destructors that the custom flags select. */
    method CloseHandles(c: Config, i: nat)
      requires Ready(c, i)
      modifies this`log
      ensures log == old(log) + CloseLog(c, i)
    {
      if params.customEncode || params.customDecode {
        log := log + [Destroyed(Custom, mode.handle)];
      }
      if params.customDecode {
        log := log + [Destroyed(Custom, decC.handle)];
      } else {
        log := log + [Destroyed(Standard, dec.handle)];
      }
      if params.customEncode {
        log := log + [Destroyed(Custom, encC.handle)];
      } else {
        log := log + [Destroyed(Standard, enc.handle)];
      }
    }

    /** One outer iteration: sample and filter a configuration, create its
        objects, run the settings, destroy the objects. */
    method RunConfiguration(i: nat, n: nat)
      requires !failed
      modifies this`mode, this`decC, this`dec, this`encC, this`enc, this`params, this`failed, this`log, rng
      ensures var cs := ConfigSampler(rng.draws);
              var t := ConfigStep(cs, SettingSampler(rng.draws), lib, i, old(rng.pos), n);
              log == old(log) + t.events && failed == t.failed
              && (!failed ==> rng.pos == AfterConfig(cs, old(rng.pos), n))
    {
      var s := DrawConfig();
      if !s.Accepted? {
        return;
      }
      var c := s.config;
      ghost var open := CreateLog(Handles(c, i), lib);
      ghost var body := SettingsLog(c, i, SettingSampler(rng.draws), lib, rng.pos, 0, n);
      ghost var close := Trace(CloseLog(c, i), false);
      OpenHandles(c, i);
      StepInto(old(log), [], open, Then(body, close));
      if failed {
        return;
      }
      RunSettings(c, i, n);
      StepInto(old(log), open.events, body, close);
      if failed {
        return;
      }
      CloseHandles(c, i);
      StepLast(old(log), open.events + body.events, close);
    }

    /** test_opus_custom(num_encoders, num_setting_changes): the log of the
        run is RunLog of the samplers over the draws from the current
        position. */
    method TestOpusCustom(numEncoders: nat, numSettingChanges: nat)
      requires !failed
      modifies this`mode, this`decC, this`dec, this`encC, this`enc, this`params, this`failed, this`log, rng
      ensures var t := RunLog(ConfigSampler(rng.draws), SettingSampler(rng.draws), lib,
                              0, old(rng.pos), numEncoders, numSettingChanges);
              log == old(log) + t.events && failed == t.failed
    {
      ghost var cs, ss := ConfigSampler(rng.draws), SettingSampler(rng.draws);
      ghost var done: seq<Event> := [];
      for i := 0 to numEncoders
        invariant !failed
        invariant log == old(log) + done
        invariant RunLog(cs, ss, lib, 0, old(rng.pos), numEncoders, numSettingChanges)
                  == Prefix(done, RunLog(cs, ss, lib, i, rng.pos, numEncoders, numSettingChanges))
      {
        ghost var step := ConfigStep(cs, ss, lib, i, rng.pos, numSettingChanges);
        ghost var rest := RunLog(cs, ss, lib, i + 1, AfterConfig(cs, rng.pos, numSettingChanges), numEncoders, numSettingChanges);
        RunConfiguration(i, numSettingChanges);
        StepInto(old(log), done, step, rest);
        if failed {
          return;
        }
        done := done + step.events;
      }
    }
  }
}
