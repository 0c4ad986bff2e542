// What the demultiplexer makes of reassembled units, one elementary stream at a time: the frames of a
// stream come out as they went in, shifted by one origin that all streams share.
module TsStreams {
  import opened Bytes
  import opened TsClock
  import opened TsPackets
  import opened TsDemux
  import opened AnnexB
  import opened TsAnnounce
  import M = TsMux
  import Flv

  /** A unit the multiplexer sends as one PES: an access unit (parameter sets included) or an AAC frame. */
  datatype Unit = VideoUnit(ts: int, cts: nat, nals: seq<bytes>)
                | AudioUnit(slot: nat, ts: int, cfg: (nat, nat, nat), raw: bytes)

  function PidOf(u: Unit): nat
  {
    match u
    case VideoUnit(_, _, _) => PID_VIDEO
    case AudioUnit(slot, _, _, _) => PID_AUDIO_BASE + slot
  }

  function PesOf(u: Unit): bytes
  {
    match u
    case VideoUnit(ts, cts, nals) => BuildPes(STREAM_VIDEO, Annexed(nals), (ts + cts) * 90, ts * 90, true)
    case AudioUnit(_, ts, cfg, raw) => M.AudioPes(cfg, ts, raw)
  }

  /** What is left of a unit once its PES is parsed. */
  function EsOf(u: Unit): bytes
  {
    match u
    case VideoUnit(_, _, nals) => Annexed(nals)
    case AudioUnit(_, _, cfg, raw) => BuildAdts(cfg.0, cfg.1, cfg.2, |raw|) + raw
  }

  function EsAll(units: seq<Unit>): (r: seq<bytes>)
    ensures |r| == |units|
  {
    seq(|units|, i requires 0 <= i < |units| => EsOf(units[i]))
  }

  function Pts90(u: Unit): int
  {
    match u
    case VideoUnit(ts, cts, _) => (ts + cts) * 90
    case AudioUnit(_, ts, _, _) => ts * 90
  }

  function Dts90(u: Unit): int
  {
    u.ts * 90
  }

  /** What both sides can carry: clean NAL units, whole profile octets, frames a 13-bit length can count. */
  ghost predicate UnitOk(u: Unit)
  {
    match u
    case VideoUnit(_, cts, nals) =>
      cts < 0x100_0000 && AllClean(nals) && forall n :: n in nals && NalType(n) == 7 ==> |n| >= 4
    case AudioUnit(slot, _, _, raw) => slot < Flv.MAX_AUDIO_SLOTS && |raw| <= ADTS_MAX_FRAME
  }

  datatype Frame = Frame(ts: int, payload: bytes)

  /** The media tag a unit stands for. */
  function FramesOfUnit(u: Unit): seq<Frame>
  {
    match u
    case VideoUnit(ts, cts, nals) =>
      var s := ScanNals(nals);
      if s.vcl == [] then [] else [Frame(ts, FlvVideoFrame(s.isKey, cts, Packed(s.vcl)))]
    case AudioUnit(_, ts, _, raw) => [Frame(ts, FlvAudioFrame(raw))]
  }

  function FramesOf(units: seq<Unit>): seq<Frame>
  {
    if units == [] then [] else FramesOf(units[..|units| - 1]) + FramesOfUnit(units[|units| - 1])
  }

  function Shifted(frames: seq<Frame>, origin: int): seq<Frame>
  {
    seq(|frames|, i requires 0 <= i < |frames| => Frame(frames[i].ts - origin, frames[i].payload))
  }

  predicate IsMedia(tag: Tag, role: Role)
  {
    tag.role == role && !Flv.IsSeqHeader(tag.tagType, tag.payload)
  }

  /** The media tags of one role, in order. */
  function MediaOf(out: seq<Tag>, role: Role): seq<Frame>
  {
    if out == [] then []
    else
      var last := out[|out| - 1];
      MediaOf(out[..|out| - 1], role) + if IsMedia(last, role) then [Frame(last.ts, last.payload)] else []
  }

  lemma MediaSnoc(out: seq<Tag>, tag: Tag, role: Role)
    ensures MediaOf(out + [tag], role)
            == MediaOf(out, role) + if IsMedia(tag, role) then [Frame(tag.ts, tag.payload)] else []
  {
    assert (out + [tag])[..|out|] == out;
  }

  // ----- clocks of one stream -----

  /** The first stamps lie in the clock's first period, and no step reaches half a period. */
  ghost predicate StampsOk(units: seq<Unit>)
  {
    && (units != [] ==> 0 <= Pts90(units[0]) < TWO_TO_33 && 0 <= Dts90(units[0]) < TWO_TO_33)
    && forall i :: 0 < i < |units| ==>
         Tellable(Pts90(units[i]) - Pts90(units[i - 1])) && Tellable(Dts90(units[i]) - Dts90(units[i - 1]))
  }

  predicate ClockIs(es: Streams, key: ClockKey, value: int)
  {
    ClockAt(es, key) == Unwrap(true, value % TWO_TO_33, value)
  }

  predicate ClocksAre(es: Streams, pid: nat, units: seq<Unit>)
  {
    if units == [] then
      ClockAt(es, VideoPts(pid)) == FRESH && ClockAt(es, VideoDts(pid)) == FRESH && ClockAt(es, AudioPts(pid)) == FRESH
    else
      var u := units[|units| - 1];
      if u.VideoUnit? then ClockIs(es, VideoPts(pid), Pts90(u)) && ClockIs(es, VideoDts(pid), Dts90(u))
      else ClockIs(es, AudioPts(pid), Pts90(u))
  }

  lemma TickFollows(es: Streams, key: ClockKey, before: Option<int>, after: int)
    requires match before
             case None => ClockAt(es, key) == FRESH && 0 <= after < TWO_TO_33
             case Some(b) => ClockIs(es, key, b) && Tellable(after - b)
    ensures ClockIs(Tick(es, key, after % TWO_TO_33), key, after)
  {
    if before.Some? {
      StepReproducedIff(ClockAt(es, key), before.value, after);
    }
  }

  // ----- one unit -----

  /** With every codec header, all that came out for this stream is what its units say. */
  predicate Announced(es: Streams, pid: nat, role: Role, units: seq<Unit>)
  {
    if units == [] then VideoTold(es, pid, role, []) && AudioTold(es, pid, role, [])
    else if units[|units| - 1].VideoUnit? then VideoTold(es, pid, role, EsAll(units))
    else AudioTold(es, pid, role, EsAll(units))
  }

  lemma AnnouncedSame(es: Streams, es': Streams, pid: nat, role: Role, q: nat, r: Role, units: seq<Unit>)
    requires Announced(es, q, r, units) && OthersKept(es, es', pid, role) && q != pid && r != role
    ensures Announced(es', q, r, units)
  {
    hide VideoTold, AudioTold, OthersKept;
    OthersStay(es, es', pid, role, q, r, []);
    OthersStay(es, es', pid, role, q, r, EsAll(units));
  }

  lemma EsSnoc(units: seq<Unit>, u: Unit)
    ensures EsAll(units + [u]) == EsAll(units) + [EsOf(u)]
  {
    hide EsOf;
  }

  /** Everything delivered so far on this stream has come out, in the stream's own shape. */
  ghost predicate EsInv(es: Streams, pid: nat, role: Role, units: seq<Unit>)
  {
    && ClocksAre(es, pid, units)
    && (es.base.Some? ==> es.base.value % 90 == 0)
    && (units != [] ==> es.base.Some?)
    && MediaOf(es.out, role) == Shifted(FramesOf(units), Origin(es))
    && Announced(es, pid, role, units)
  }

  function Origin(es: Streams): int
  {
    if es.base.Some? then es.base.value / 90 else 0
  }

  /** What handling a unit of one stream leaves alone in the others. */
  ghost predicate Unrelated(es: Streams, es': Streams, pid: nat, role: Role)
  {
    && (forall q :: q != pid ==>
          ClockAt(es', VideoPts(q)) == ClockAt(es, VideoPts(q)) && ClockAt(es', VideoDts(q)) == ClockAt(es, VideoDts(q))
          && ClockAt(es', AudioPts(q)) == ClockAt(es, AudioPts(q)))
    && (es.base.Some? ==> es'.base == es.base)
    && (es'.base.Some? ==> es'.base.value % 90 == 0)
    && (forall r :: r != role ==> MediaOf(es'.out, r) == MediaOf(es.out, r))
    && OthersKept(es, es', pid, role)
  }

  lemma UnrelatedKeepsInv(es: Streams, es': Streams, pid: nat, role: Role, q: nat, r: Role, units: seq<Unit>)
    requires Unrelated(es, es', pid, role) && q != pid && r != role && EsInv(es, q, r, units)
    ensures EsInv(es', q, r, units)
  {
    hide Announced, OthersKept, MediaOf;
    AnnouncedSame(es, es', pid, role, q, r, units);
    if units == [] {
      assert Shifted(FramesOf(units), Origin(es)) == [] == Shifted(FramesOf(units), Origin(es'));
    }
  }

  lemma FramesSnoc(units: seq<Unit>, u: Unit)
    ensures FramesOf(units + [u]) == FramesOf(units) + FramesOfUnit(u)
  {
    assert (units + [u])[..|units|] == units;
  }

  lemma ShiftedAppend(a: seq<Frame>, b: seq<Frame>, origin: int)
    ensures Shifted(a + b, origin) == Shifted(a, origin) + Shifted(b, origin)
  {
  }

  lemma ScanParameterSets(nals: seq<bytes>)
    requires forall n :: n in nals && |n| > 0 && NalType(n) == 7 ==> |n| >= 4
    ensures ScanNals(nals).sps == [] || |ScanNals(nals).sps| >= 4
  {
    if nals != [] {
      assert forall n :: n in nals[..|nals| - 1] ==> n in nals;
      ScanParameterSets(nals[..|nals| - 1]);
      assert nals[|nals| - 1] in nals;
    }
  }

  /** A codec header is no media tag. */
  lemma HeaderTagUnseen(es: Streams, pid: nat, role: Role, s: Scan, dtsMs: int, r: Role)
    requires s.sps == [] || |s.sps| >= 4
    ensures var es' := TakeParameterSets(es, pid, role, s, dtsMs);
            && MediaOf(es'.out, r) == MediaOf(es.out, r)
            && es'.base == es.base && es'.clocks == es.clocks && es'.crashed == es.crashed
  {
    hide BuildAvcConfig, MediaOf, Flv.IsMultitrackVideo;
    if s.sps != [] && s.pps != [] && !(GetOr(es.sps, pid) == s.sps && GetOr(es.pps, pid) == s.pps) {
      MediaSnoc(es.out, Tag(role, Flv.TAG_VIDEO, dtsMs, FlvVideoSeqHeader(BuildAvcConfig(s.sps, s.pps))), r);
    }
  }

  lemma EmitFrame(es: Streams, tag: Tag, r: Role)
    requires !Flv.IsSeqHeader(tag.tagType, tag.payload)
    ensures MediaOf(Emit(es, tag).out, r)
            == MediaOf(es.out, r) + if tag.role == r then [Frame(tag.ts, tag.payload)] else []
  {
    MediaSnoc(es.out, tag, r);
  }

  /** Both clocks of a video stream after one more unit. */
  lemma VideoClocks(es: Streams, pid: nat, units: seq<Unit>, u: Unit)
    requires u.VideoUnit? && (forall v :: v in units ==> v.VideoUnit?)
    requires ClocksAre(es, pid, units) && StampsOk(units + [u])
    ensures var es1 := Tick(Tick(es, VideoPts(pid), Pts90(u) % TWO_TO_33), VideoDts(pid), Dts90(u) % TWO_TO_33);
            && ClockIs(es1, VideoPts(pid), Pts90(u)) && ClockIs(es1, VideoDts(pid), Dts90(u))
  {
    hide UnwrapStep;
    var all := units + [u];
    var n := |units|;
    var last := if n == 0 then None else Some(units[n - 1]);
    assert all[n] == u && (n > 0 ==> all[n - 1] == units[n - 1] && units[n - 1] in units);
    TickFollows(es, VideoPts(pid), if n == 0 then None else Some(Pts90(units[n - 1])), Pts90(u));
    var es0 := Tick(es, VideoPts(pid), Pts90(u) % TWO_TO_33);
    TickFollows(es0, VideoDts(pid), if n == 0 then None else Some(Dts90(units[n - 1])), Dts90(u));
  }

  lemma AudioClock(es: Streams, pid: nat, units: seq<Unit>, u: Unit)
    requires u.AudioUnit? && (forall v :: v in units ==> v.AudioUnit?)
    requires ClocksAre(es, pid, units) && StampsOk(units + [u])
    ensures ClockIs(Tick(es, AudioPts(pid), Pts90(u) % TWO_TO_33), AudioPts(pid), Pts90(u))
  {
    hide UnwrapStep;
    var all := units + [u];
    var n := |units|;
    assert all[n] == u && (n > 0 ==> all[n - 1] == units[n - 1] && units[n - 1] in units);
    TickFollows(es, AudioPts(pid), if n == 0 then None else Some(Pts90(units[n - 1])), Pts90(u));
  }

  lemma MillisecondsAre(es: Streams, ms: int)
    requires es.base.Some? && es.base.value % 90 == 0
    ensures Milliseconds(es, ms * 90) == ms - Origin(es)
  {
    assert ms * 90 - es.base.value == (ms - Origin(es)) * 90;
    RoundMilliseconds(ms - Origin(es));
  }

  lemma VideoFrameIsMedia(isKey: bool, ctsMs: int, avcc: bytes)
    ensures !Flv.IsSeqHeader(Flv.TAG_VIDEO, FlvVideoFrame(isKey, ctsMs, avcc))
  {
  }

  /** One access unit: its frame, or nothing when it has no slices. */
  lemma VideoTags(es2: Streams, pid: nat, role: Role, u: Unit)
    requires u.VideoUnit? && UnitOk(u) && es2.base.Some? && es2.base.value % 90 == 0 && !es2.crashed
    ensures var s := ScanNals(u.nals);
            var dtsMs := Milliseconds(es2, Dts90(u));
            var ctsMs := Milliseconds(es2, Pts90(u)) - dtsMs;
            var es3 := TakeParameterSets(es2, pid, role, s, dtsMs);
            var es' := if s.vcl == [] then es3
                       else Emit(es3, Tag(role, Flv.TAG_VIDEO, dtsMs, FlvVideoFrame(s.isKey, ctsMs, Packed(s.vcl))));
            && !es3.crashed && !es'.crashed && es'.base == es2.base && es'.clocks == es2.clocks
            && (forall r :: r != role ==> MediaOf(es'.out, r) == MediaOf(es2.out, r))
            && MediaOf(es'.out, role) == MediaOf(es2.out, role) + Shifted(FramesOfUnit(u), Origin(es2))
  {
    hide TakeParameterSets, FlvVideoFrame, ScanNals, Packed, Milliseconds, MediaOf, Flv.IsSeqHeader, Emit;
    var s := ScanNals(u.nals);
    var dtsMs := Milliseconds(es2, Dts90(u));
    MillisecondsAre(es2, u.ts);
    MillisecondsAre(es2, u.ts + u.cts);
    ScanParameterSets(u.nals);
    var es3 := TakeParameterSets(es2, pid, role, s, dtsMs);
    forall r ensures MediaOf(es3.out, r) == MediaOf(es2.out, r) {
      HeaderTagUnseen(es2, pid, role, s, dtsMs, r);
    }
    HeaderTagUnseen(es2, pid, role, s, dtsMs, role);
    var frame := FlvVideoFrame(s.isKey, u.cts, Packed(s.vcl));
    VideoFrameIsMedia(s.isKey, u.cts, Packed(s.vcl));
    forall r ensures MediaOf(Emit(es3, Tag(role, Flv.TAG_VIDEO, dtsMs, frame)).out, r)
                     == MediaOf(es3.out, r) + if role == r then [Frame(dtsMs, frame)] else []
    {
      EmitFrame(es3, Tag(role, Flv.TAG_VIDEO, dtsMs, frame), r);
    }
    EmitKeepsRest(es3, Tag(role, Flv.TAG_VIDEO, dtsMs, frame));
  }

  lemma EmitKeepsRest(es: Streams, tag: Tag)
    ensures var e := Emit(es, tag); e.base == es.base && e.clocks == es.clocks && e.crashed == es.crashed
  {
  }

  lemma UnitClosesInv(es: Streams, es': Streams, pid: nat, role: Role, units: seq<Unit>, u: Unit)
    requires EsInv(es, pid, role, units) && ClocksAre(es', pid, units + [u])
    requires es'.base.Some? && es'.base.value % 90 == 0 && (es.base.Some? ==> es'.base == es.base)
    requires MediaOf(es'.out, role) == MediaOf(es.out, role) + Shifted(FramesOfUnit(u), Origin(es'))
    requires Announced(es', pid, role, units + [u])
    ensures EsInv(es', pid, role, units + [u])
  {
    hide MediaOf, FramesOf, FramesOfUnit, ClocksAre, Announced;
    FramesSnoc(units, u);
    ShiftedAppend(FramesOf(units), FramesOfUnit(u), Origin(es'));
    if units == [] {
      NoFrames(Origin(es), Origin(es'));
    }
  }

  lemma NoFrames(a: int, b: int)
    ensures Shifted(FramesOf([]), a) == Shifted(FramesOf([]), b)
  {
  }

  lemma UnrelatedThen(es: Streams, es2: Streams, es': Streams, pid: nat, role: Role)
    requires Unrelated(es, es2, pid, role) && es'.base == es2.base && es'.clocks == es2.clocks
    requires forall r :: r != role ==> MediaOf(es'.out, r) == MediaOf(es2.out, r)
    requires OthersKept(es, es', pid, role)
    ensures Unrelated(es, es', pid, role)
  {
    hide MediaOf, OthersKept;
    assert forall key :: ClockAt(es', key) == ClockAt(es2, key);
  }

  lemma TickUnrelated(es: Streams, key: ClockKey, raw: int, pid: nat, role: Role)
    requires key == VideoPts(pid) || key == VideoDts(pid) || key == AudioPts(pid)
    requires es.base.Some? ==> es.base.value % 90 == 0
    ensures Unrelated(es, Tick(es, key, raw), pid, role)
    ensures forall k :: k != key ==> ClockAt(Tick(es, key, raw), k) == ClockAt(es, k)
  {
    SameKept(es, Tick(es, key, raw), pid, role);
    hide MediaOf, UnwrapStep, OthersKept;
  }

  /** A video stream after its clocks took a unit's stamps. */
  function VideoTicked(es: Streams, pid: nat, u: Unit): Streams
  {
    Tick(Tick(es, VideoPts(pid), Pts90(u) % TWO_TO_33), VideoDts(pid), Dts90(u) % TWO_TO_33)
  }

  function VideoAnchored(es: Streams, pid: nat, u: Unit): Streams
  {
    Anchor(VideoTicked(es, pid, u), Dts90(u))
  }

  lemma AnchorKeepsClocks(es: Streams, clock: int, pid: nat, role: Role)
    requires (es.base.Some? ==> es.base.value % 90 == 0) && clock % 90 == 0
    ensures var es2 := Anchor(es, clock);
            && (forall key :: ClockAt(es2, key) == ClockAt(es, key)) && Unrelated(es, es2, pid, role)
            && es2.out == es.out && es2.base.Some? && es2.base.value % 90 == 0 && es2.crashed == es.crashed
            && (es.base.Some? ==> es2.base == es.base)
  {
    SameKept(es, Anchor(es, clock), pid, role);
    hide MediaOf, OthersKept;
  }

  lemma UnrelatedTwice(es: Streams, es1: Streams, es2: Streams, pid: nat, role: Role)
    requires Unrelated(es, es1, pid, role) && Unrelated(es1, es2, pid, role)
    ensures Unrelated(es, es2, pid, role)
  {
    KeptTwice(es, es1, es2, pid, role);
    hide MediaOf, ClockAt, OthersKept;
  }

  lemma VideoTicks(es: Streams, pid: nat, role: Role, u: Unit)
    requires es.base.Some? ==> es.base.value % 90 == 0
    ensures var es1 := VideoTicked(es, pid, u);
            && Unrelated(es, es1, pid, role)
            && es1.out == es.out && es1.base == es.base && es1.crashed == es.crashed
  {
    hide MediaOf, UnwrapStep, Unrelated;
    TickUnrelated(es, VideoPts(pid), Pts90(u) % TWO_TO_33, pid, role);
    var es0 := Tick(es, VideoPts(pid), Pts90(u) % TWO_TO_33);
    TickUnrelated(es0, VideoDts(pid), Dts90(u) % TWO_TO_33, pid, role);
    UnrelatedTwice(es, es0, VideoTicked(es, pid, u), pid, role);
  }

  lemma WholeMilliseconds(u: Unit)
    ensures Pts90(u) % 90 == 0 && Dts90(u) % 90 == 0
  {
    assert u.VideoUnit? ==> (u.ts + u.cts) * 90 % 90 == 0;
  }

  lemma LatestClocks(es: Streams, es2: Streams, pid: nat, units: seq<Unit>, u: Unit)
    requires forall key :: ClockAt(es2, key) == ClockAt(es, key)
    requires if u.VideoUnit? then ClockIs(es, VideoPts(pid), Pts90(u)) && ClockIs(es, VideoDts(pid), Dts90(u))
             else ClockIs(es, AudioPts(pid), Pts90(u))
    ensures ClocksAre(es2, pid, units + [u])
  {
    hide ClockAt, Pts90, Dts90;
  }

  lemma VideoAnchors(es: Streams, pid: nat, role: Role, units: seq<Unit>, u: Unit)
    requires ClocksAre(es, pid, units) && (es.base.Some? ==> es.base.value % 90 == 0)
    requires u.VideoUnit? && (forall v :: v in units ==> v.VideoUnit?) && StampsOk(units + [u])
    ensures var es2 := VideoAnchored(es, pid, u);
            && ClocksAre(es2, pid, units + [u]) && Unrelated(es, es2, pid, role)
            && es2.out == es.out && es2.base.Some? && es2.base.value % 90 == 0 && es2.crashed == es.crashed
            && (es.base.Some? ==> es2.base == es.base)
    ensures var es1 := VideoTicked(es, pid, u);
            ClockIs(es1, VideoDts(pid), Dts90(u)) && ClockIs(es1, VideoPts(pid), Pts90(u))
  {
    hide MediaOf, UnwrapStep, StampsOk, Unrelated, Tick, Anchor, ClockAt, ClocksAre, ClockIs, Pts90, Dts90;
    WholeMilliseconds(u);
    VideoClocks(es, pid, units, u);
    VideoTicks(es, pid, role, u);
    var es1 := VideoTicked(es, pid, u);
    AnchorKeepsClocks(es1, Dts90(u), pid, role);
    LatestClocks(es1, Anchor(es1, Dts90(u)), pid, units, u);
    UnrelatedTwice(es, es1, Anchor(es1, Dts90(u)), pid, role);
  }

  lemma AnchoredClocks(es: Streams, pid: nat, u: Unit)
    requires var es1 := VideoTicked(es, pid, u);
             ClockIs(es1, VideoDts(pid), Dts90(u)) && ClockIs(es1, VideoPts(pid), Pts90(u))
    ensures ClockAt(VideoTicked(es, pid, u), VideoDts(pid)).prevUnwrapped == Dts90(u)
    ensures ClockAt(VideoAnchored(es, pid, u), VideoPts(pid)).prevUnwrapped == Pts90(u)
  {
    hide Tick, Pts90, Dts90;
  }

  /** Handling a video unit, its clocks and NAL units given. */
  lemma HandleVideoIs(es: Streams, pid: nat, role: Role, payload: bytes, ptsRaw: int, dtsRaw: int, nals: seq<bytes>,
                      es2: Streams, pts: int, dts: int)
    requires NalUnits(payload) == nals
    requires var es1 := Tick(Tick(es, VideoPts(pid), ptsRaw), VideoDts(pid), dtsRaw);
             ClockAt(es1, VideoDts(pid)).prevUnwrapped == dts && es2 == Anchor(es1, dts)
    requires ClockAt(es2, VideoPts(pid)).prevUnwrapped == pts
    ensures var s := ScanNals(nals);
            var dtsMs := Milliseconds(es2, dts);
            var ctsMs := Milliseconds(es2, pts) - dtsMs;
            var es3 := TakeParameterSets(es2, pid, role, s, dtsMs);
            HandleVideo(es, pid, role, payload, ptsRaw, dtsRaw)
            == if es3.crashed || s.vcl == [] then es3
               else Emit(es3, Tag(role, Flv.TAG_VIDEO, dtsMs, FlvVideoFrame(s.isKey, ctsMs, Packed(s.vcl))))
  {
    hide NalUnits, ScanNals, TakeParameterSets, FlvVideoFrame, Packed, Milliseconds, Tick, Emit, ClockAt, Anchor;
  }

  lemma VideoUnfolds(es: Streams, pid: nat, role: Role, u: Unit)
    requires u.VideoUnit? && AllClean(u.nals)
    requires var es1 := VideoTicked(es, pid, u);
             ClockIs(es1, VideoDts(pid), Dts90(u)) && ClockIs(es1, VideoPts(pid), Pts90(u))
    ensures var es2 := VideoAnchored(es, pid, u);
            var s := ScanNals(u.nals);
            var dtsMs := Milliseconds(es2, Dts90(u));
            var ctsMs := Milliseconds(es2, Pts90(u)) - dtsMs;
            var es3 := TakeParameterSets(es2, pid, role, s, dtsMs);
            HandleVideo(es, pid, role, Annexed(u.nals), Pts90(u) % TWO_TO_33, Dts90(u) % TWO_TO_33)
            == if es3.crashed || s.vcl == [] then es3
               else Emit(es3, Tag(role, Flv.TAG_VIDEO, dtsMs, FlvVideoFrame(s.isKey, ctsMs, Packed(s.vcl))))
  {
    hide Annexed, NalUnits, ScanNals, TakeParameterSets, FlvVideoFrame, Packed, Milliseconds, Tick, Emit, ClockAt, ClockIs, Anchor,
      Pts90, Dts90, AllClean, HandleVideo;
    NalUnitsInvertAnnexed(u.nals);
    AnchoredClocks(es, pid, u);
    HandleVideoIs(es, pid, role, Annexed(u.nals), Pts90(u) % TWO_TO_33, Dts90(u) % TWO_TO_33, u.nals, VideoAnchored(es, pid, u),
                  Pts90(u), Dts90(u));
  }

  lemma VideoStaysTold(es: Streams, pid: nat, role: Role, units: seq<Unit>, u: Unit)
    requires Announced(es, pid, role, units) && !es.crashed && u.VideoUnit? && forall v :: v in units ==> v.VideoUnit?
    ensures var es' := HandleVideo(es, pid, role, Annexed(u.nals), Pts90(u) % TWO_TO_33, Dts90(u) % TWO_TO_33);
            !es'.crashed ==> Announced(es', pid, role, units + [u]) && OthersKept(es, es', pid, role)
  {
    hide HandleVideo, VideoTold, AudioTold, OthersKept, Annexed, Pts90, Dts90;
    assert EsAll([]) == [];
    assert units != [] ==> units[|units| - 1] in units;
    VideoAnnounces(es, pid, role, Annexed(u.nals), Pts90(u) % TWO_TO_33, Dts90(u) % TWO_TO_33, EsAll(units));
    EsSnoc(units, u);
  }

  lemma AudioStaysTold(es: Streams, pid: nat, role: Role, units: seq<Unit>, u: Unit)
    requires Announced(es, pid, role, units) && !es.crashed && u.AudioUnit? && forall v :: v in units ==> v.AudioUnit?
    ensures var es' := HandleAudio(es, pid, role, EsOf(u), Pts90(u) % TWO_TO_33);
            Announced(es', pid, role, units + [u]) && OthersKept(es, es', pid, role)
  {
    hide HandleAudio, VideoTold, AudioTold, OthersKept, BuildAdts, Pts90;
    assert EsAll([]) == [];
    assert units != [] ==> units[|units| - 1] in units;
    AudioAnnounces(es, pid, role, EsOf(u), Pts90(u) % TWO_TO_33, EsAll(units));
    EsSnoc(units, u);
  }

  lemma VideoHandled(es: Streams, pid: nat, role: Role, units: seq<Unit>, u: Unit)
    requires EsInv(es, pid, role, units) && !es.crashed
    requires u.VideoUnit? && UnitOk(u) && (forall v :: v in units ==> v.VideoUnit?) && StampsOk(units + [u])
    ensures var es' := HandleVideo(es, pid, role, Annexed(u.nals), Pts90(u) % TWO_TO_33, Dts90(u) % TWO_TO_33);
            && !es'.crashed && EsInv(es', pid, role, units + [u]) && Unrelated(es, es', pid, role)
  {
    hide MediaOf, FramesOf, FramesOfUnit, ScanNals, TakeParameterSets, FlvVideoFrame, Packed, Milliseconds, StampsOk,
      Emit, HandleVideo, VideoAnchored, VideoTicked, Unrelated, ClocksAre, Annexed, Announced, OthersKept;
    VideoAnchors(es, pid, role, units, u);
    var es2 := VideoAnchored(es, pid, u);
    VideoUnfolds(es, pid, role, u);
    VideoTags(es2, pid, role, u);
    var es' := HandleVideo(es, pid, role, Annexed(u.nals), Pts90(u) % TWO_TO_33, Dts90(u) % TWO_TO_33);
    VideoStaysTold(es, pid, role, units, u);
    UnrelatedThen(es, es2, es', pid, role);
    SameClocks(es2, es', pid, units + [u]);
    UnitClosesInv(es, es', pid, role, units, u);
  }

  lemma SameClocks(es: Streams, es': Streams, pid: nat, units: seq<Unit>)
    requires ClocksAre(es, pid, units) && es'.clocks == es.clocks
    ensures ClocksAre(es', pid, units)
  {
    assert forall key :: ClockAt(es', key) == ClockAt(es, key);
  }

  // ----- audio -----

  lemma OnlyFrame(cfg: (nat, nat, nat), raw: bytes)
    requires |raw| <= ADTS_MAX_FRAME
    ensures var payload := BuildAdts(cfg.0, cfg.1, cfg.2, |raw|) + raw;
            var h := FrameAt(payload, 0);
            && h.Some? && h.value.headerLen == 7 && h.value.frameLength == |raw| + 7 == |payload|
            && payload[7..] == raw
  {
    hide BuildAdts, ParseAdts;
    AdtsRoundTrips(cfg.0, cfg.1, cfg.2, raw);
  }

  lemma FrameTsZero(baseMs: int, h: Adts)
    ensures FrameTs(baseMs, 0, h) == baseMs
  {
    hide SampleRate;
    assert RoundHalfEven(0, SampleRate(h.sfi)) == 0 by {
      assert 0 / SampleRate(h.sfi) == 0;
    }
  }

  lemma AudioFrameTag(es: Streams, pid: nat, role: Role, payload: bytes, h: Adts, ts: int, r: Role)
    requires FrameAt(payload, 0) == Some(h)
    ensures var es' := AudioFrame(es, pid, role, payload, 0, h, ts);
            && es'.base == es.base && es'.clocks == es.clocks && es'.crashed == es.crashed
            && MediaOf(es'.out, r) == MediaOf(es.out, r)
               + if role == r then [Frame(ts, FlvAudioFrame(payload[h.headerLen..h.frameLength]))] else []
  {
    hide BuildAsc, MediaOf, FrameAt;
    var header := Tag(role, Flv.TAG_AUDIO, ts, FlvAudioSeqHeader(BuildAsc(h.aot, h.sfi, h.channels)));
    MediaSnoc(es.out, header, r);
    var media := Tag(role, Flv.TAG_AUDIO, ts, FlvAudioFrame(payload[h.headerLen..h.frameLength]));
    MediaSnoc(es.out + [header], media, r);
    MediaSnoc(es.out, media, r);
  }

  lemma AudioTags(es2: Streams, pid: nat, role: Role, u: Unit)
    requires u.AudioUnit? && UnitOk(u) && es2.base.Some? && es2.base.value % 90 == 0 && !es2.crashed
    ensures var payload := BuildAdts(u.cfg.0, u.cfg.1, u.cfg.2, |u.raw|) + u.raw;
            var es' := AudioFrames(es2, pid, role, payload, 0, 0, Milliseconds(es2, Pts90(u)));
            && !es'.crashed && es'.base == es2.base && es'.clocks == es2.clocks
            && (forall r :: r != role ==> MediaOf(es'.out, r) == MediaOf(es2.out, r))
            && MediaOf(es'.out, role) == MediaOf(es2.out, role) + Shifted(FramesOfUnit(u), Origin(es2))
  {
    hide BuildAdts, MediaOf, FrameAt, AudioFrame, FlvAudioFrame, Milliseconds, FrameTs;
    var payload := BuildAdts(u.cfg.0, u.cfg.1, u.cfg.2, |u.raw|) + u.raw;
    OnlyFrame(u.cfg, u.raw);
    var h := FrameAt(payload, 0).value;
    var ms := Milliseconds(es2, Pts90(u));
    MillisecondsAre(es2, u.ts);
    FrameTsZero(ms, h);
    assert payload[7..|payload|] == u.raw;
    var es' := AudioFrame(es2, pid, role, payload, 0, h, ms);
    assert AudioFrames(es2, pid, role, payload, 0, 0, ms) == es' by {
      assert AudioFrames(es', pid, role, payload, |payload|, 1, ms) == es';
    }
    AudioFrameTag(es2, pid, role, payload, h, ms, role);
    forall r | r != role ensures MediaOf(es'.out, r) == MediaOf(es2.out, r) {
      AudioFrameTag(es2, pid, role, payload, h, ms, r);
    }
  }

  function AudioTicked(es: Streams, pid: nat, u: Unit): Streams
  {
    Tick(es, AudioPts(pid), Pts90(u) % TWO_TO_33)
  }

  function AudioAnchored(es: Streams, pid: nat, u: Unit): Streams
  {
    Anchor(AudioTicked(es, pid, u), Pts90(u))
  }

  lemma AudioAnchors(es: Streams, pid: nat, role: Role, units: seq<Unit>, u: Unit)
    requires ClocksAre(es, pid, units) && (es.base.Some? ==> es.base.value % 90 == 0)
    requires u.AudioUnit? && (forall v :: v in units ==> v.AudioUnit?) && StampsOk(units + [u])
    ensures var es2 := AudioAnchored(es, pid, u);
            && ClocksAre(es2, pid, units + [u]) && Unrelated(es, es2, pid, role)
            && es2.out == es.out && es2.base.Some? && es2.base.value % 90 == 0 && es2.crashed == es.crashed
            && (es.base.Some? ==> es2.base == es.base)
    ensures ClockIs(AudioTicked(es, pid, u), AudioPts(pid), Pts90(u))
  {
    hide MediaOf, UnwrapStep, StampsOk, Unrelated, Tick, Anchor, ClockAt, ClocksAre, ClockIs, Pts90, Dts90;
    WholeMilliseconds(u);
    AudioClock(es, pid, units, u);
    TickUnrelated(es, AudioPts(pid), Pts90(u) % TWO_TO_33, pid, role);
    var es1 := AudioTicked(es, pid, u);
    TickKeepsRest(es, AudioPts(pid), Pts90(u) % TWO_TO_33);
    AnchorKeepsClocks(es1, Pts90(u), pid, role);
    LatestClocks(es1, Anchor(es1, Pts90(u)), pid, units, u);
    UnrelatedTwice(es, es1, Anchor(es1, Pts90(u)), pid, role);
  }

  lemma TickKeepsRest(es: Streams, key: ClockKey, raw: int)
    ensures var t := Tick(es, key, raw); t.out == es.out && t.base == es.base && t.crashed == es.crashed
  {
  }

  lemma AudioUnfolds(es: Streams, pid: nat, role: Role, u: Unit, payload: bytes)
    requires u.AudioUnit? && ClockIs(AudioTicked(es, pid, u), AudioPts(pid), Pts90(u))
    ensures var es2 := AudioAnchored(es, pid, u);
            HandleAudio(es, pid, role, payload, Pts90(u) % TWO_TO_33)
            == AudioFrames(es2, pid, role, payload, 0, 0, Milliseconds(es2, Pts90(u)))
  {
    hide AudioFrames, Milliseconds, UnwrapStep;
  }

  lemma AudioHandled(es: Streams, pid: nat, role: Role, units: seq<Unit>, u: Unit)
    requires EsInv(es, pid, role, units) && !es.crashed
    requires u.AudioUnit? && UnitOk(u) && (forall v :: v in units ==> v.AudioUnit?) && StampsOk(units + [u])
    ensures var payload := BuildAdts(u.cfg.0, u.cfg.1, u.cfg.2, |u.raw|) + u.raw;
            var es' := HandleAudio(es, pid, role, payload, Pts90(u) % TWO_TO_33);
            && !es'.crashed && EsInv(es', pid, role, units + [u]) && Unrelated(es, es', pid, role)
  {
    hide MediaOf, FramesOf, FramesOfUnit, BuildAdts, AudioFrames, Milliseconds, StampsOk, HandleAudio, AudioAnchored, AudioTicked,
      Unrelated, ClocksAre, Announced, OthersKept;
    AudioAnchors(es, pid, role, units, u);
    var es2 := AudioAnchored(es, pid, u);
    var payload := BuildAdts(u.cfg.0, u.cfg.1, u.cfg.2, |u.raw|) + u.raw;
    AudioUnfolds(es, pid, role, u, payload);
    AudioTags(es2, pid, role, u);
    var es' := HandleAudio(es, pid, role, payload, Pts90(u) % TWO_TO_33);
    AudioStaysTold(es, pid, role, units, u);
    UnrelatedThen(es, es2, es', pid, role);
    SameClocks(es2, es', pid, units + [u]);
    UnitClosesInv(es, es', pid, role, units, u);
  }
}
