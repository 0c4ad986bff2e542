// What the demultiplexer makes of the units of one elementary stream, one after another: which codec headers it
// announces, and which pictures and frames it hands on.
module TsAnnounce {
  import opened Bytes
  import opened TsPackets
  import opened TsDemux
  import opened AnnexB
  import Flv

  /** A tag but for its times: a codec header, or a picture or frame. */
  datatype Item = Header(payload: bytes) | Coded(head: byte, body: bytes)

  function DropUpTo(b: bytes, n: nat): bytes
  {
    if |b| < n then [] else b[n..]
  }

  function ItemOf(tag: Tag): Item
  {
    if Flv.IsSeqHeader(tag.tagType, tag.payload) then Header(tag.payload)
    else
      Coded(if tag.payload == [] then 0 else tag.payload[0], DropUpTo(tag.payload, if tag.tagType == Flv.TAG_VIDEO then 5 else 2))
  }

  /** All that came out for a role. */
  function ItemsOf(out: seq<Tag>, role: Role): seq<Item>
  {
    if out == [] then []
    else ItemsOf(out[..|out| - 1], role) + if out[|out| - 1].role == role then [ItemOf(out[|out| - 1])] else []
  }

  // ----- video -----

  /** The last NAL unit of a type. */
  function LastOf(nals: seq<bytes>, kind: nat): bytes
  {
    if nals == [] then []
    else if |nals[|nals| - 1]| > 0 && NalType(nals[|nals| - 1]) == kind then nals[|nals| - 1]
    else LastOf(nals[..|nals| - 1], kind)
  }

  predicate IsSlice(nal: bytes)
  {
    |nal| > 0 && (NalType(nal) == 1 || NalType(nal) == 5)
  }

  function Slices(nals: seq<bytes>): seq<bytes>
  {
    if nals == [] then []
    else Slices(nals[..|nals| - 1]) + if IsSlice(nals[|nals| - 1]) then [nals[|nals| - 1]] else []
  }

  predicate HasIdr(nals: seq<bytes>)
  {
    exists n :: n in nals && |n| > 0 && NalType(n) == 5
  }

  /** The parameter sets an access unit brings, if it brings both. */
  function Pair(unit: bytes): Option<(bytes, bytes)>
  {
    var (sps, pps) := (LastOf(NalUnits(unit), 7), LastOf(NalUnits(unit), 8));
    if sps != [] && pps != [] then Some((sps, pps)) else None
  }

  function LastPair(units: seq<bytes>): Option<(bytes, bytes)>
  {
    if units == [] then None
    else
      match Pair(units[|units| - 1])
      case None => LastPair(units[..|units| - 1])
      case Some(p) => Some(p)
  }

  /** The codec header of a pair of parameter sets; a short one has none. */
  function AvcPayload(pair: (bytes, bytes)): bytes
  {
    if |pair.0| < 4 then [] else FlvVideoSeqHeader(BuildAvcConfig(pair.0, pair.1))
  }

  function AvcHeader(pair: (bytes, bytes)): seq<Item>
  {
    if |pair.0| < 4 then [] else [Header(AvcPayload(pair))]
  }

  /** What one access unit brings out, after those before it: a codec header if its pair of parameter sets is not the
      last one, and its slices as one picture, a keyframe iff there is an IDR slice. */
  function FromVideo(before: seq<bytes>, unit: bytes): seq<Item>
  {
    var nals := NalUnits(unit);
    (if Pair(unit).Some? && Pair(unit) != LastPair(before) then AvcHeader(Pair(unit).value) else [])
    + (if Slices(nals) == [] then [] else [Coded(if HasIdr(nals) then 0x17 else 0x27, Packed(Slices(nals)))])
  }

  function VideoItems(units: seq<bytes>): seq<Item>
  {
    if units == [] then []
    else VideoItems(units[..|units| - 1]) + FromVideo(units[..|units| - 1], units[|units| - 1])
  }

  // ----- audio -----

  datatype Aac = Aac(cfg: (nat, nat, nat), raw: bytes)

  /** The ADTS frames from an offset on, up to the first that is not whole. */
  function FramesIn(unit: bytes, offset: nat): seq<Aac>
    decreases |unit| - offset
  {
    if offset >= |unit| then []
    else
      match FrameAt(unit, offset)
      case None => []
      case Some(h) =>
        [Aac((h.aot, h.sfi, h.channels), unit[offset + h.headerLen..offset + h.frameLength])]
        + FramesIn(unit, offset + h.frameLength)
  }

  function AllFrames(units: seq<bytes>): seq<Aac>
  {
    if units == [] then [] else AllFrames(units[..|units| - 1]) + FramesIn(units[|units| - 1], 0)
  }

  /** Every frame, and a codec header before each whose configuration is not that of the frame before it. */
  function AudioItems(frames: seq<Aac>): seq<Item>
  {
    if frames == [] then []
    else
      var before, last := frames[..|frames| - 1], frames[|frames| - 1];
      AudioItems(before)
      + (if before == [] || before[|before| - 1].cfg != last.cfg then [Header(AscPayload(last.cfg))] else [])
      + [Coded(0xAF, last.raw)]
  }

  function AscPayload(cfg: (nat, nat, nat)): bytes
  {
    FlvAudioSeqHeader(BuildAsc(cfg.0, cfg.1, cfg.2))
  }

  // ----- what is stored -----

  predicate StoredPair(es: Streams, pid: nat, units: seq<bytes>)
  {
    match LastPair(units)
    case None => GetOr(es.sps, pid) == [] && GetOr(es.pps, pid) == []
    case Some((sps, pps)) => GetOr(es.sps, pid) == sps && GetOr(es.pps, pid) == pps
  }

  predicate StoredConfig(es: Streams, pid: nat, frames: seq<Aac>)
  {
    AacParams(es, pid) == if frames == [] then (0, 0, 0) else frames[|frames| - 1].cfg
  }

  /** One stream's account, whichever kind it is. */
  predicate VideoTold(es: Streams, pid: nat, role: Role, units: seq<bytes>)
  {
    ItemsOf(es.out, role) == VideoItems(units) && StoredPair(es, pid, units)
  }

  predicate AudioTold(es: Streams, pid: nat, role: Role, units: seq<bytes>)
  {
    ItemsOf(es.out, role) == AudioItems(AllFrames(units)) && StoredConfig(es, pid, AllFrames(units))
  }

  /** Nothing another stream's account looks at has changed. */
  ghost predicate OthersKept(es: Streams, es': Streams, pid: nat, role: Role)
  {
    && (forall r :: r != role ==> ItemsOf(es'.out, r) == ItemsOf(es.out, r))
    && (forall q :: q != pid ==> GetOr(es'.sps, q) == GetOr(es.sps, q) && GetOr(es'.pps, q) == GetOr(es.pps, q)
                                 && AacParams(es', q) == AacParams(es, q))
  }

  lemma OthersStay(es: Streams, es': Streams, pid: nat, role: Role, q: nat, r: Role, units: seq<bytes>)
    requires OthersKept(es, es', pid, role) && q != pid && r != role
    ensures VideoTold(es, q, r, units) ==> VideoTold(es', q, r, units)
    ensures AudioTold(es, q, r, units) ==> AudioTold(es', q, r, units)
  {
    hide VideoItems, AudioItems, AllFrames, LastPair;
  }

  // ----- one access unit -----

  lemma ItemsSnoc(out: seq<Tag>, tag: Tag, role: Role)
    ensures ItemsOf(out + [tag], role) == ItemsOf(out, role) + if tag.role == role then [ItemOf(tag)] else []
  {
    hide ItemOf;
    assert (out + [tag])[..|out|] == out;
  }

  lemma {:induction false} ScanIs(nals: seq<bytes>)
    ensures var s := ScanNals(nals);
            s.sps == LastOf(nals, 7) && s.pps == LastOf(nals, 8) && s.vcl == Slices(nals) && (s.isKey <==> HasIdr(nals))
    decreases |nals|
  {
    if nals == [] {
    } else {
      var init, last := nals[..|nals| - 1], nals[|nals| - 1];
      ScanIs(init);
      assert forall n :: n in nals <==> n in init || n == last;
      assert Slices(init) + [] == Slices(init);
    }
  }

  lemma VideoItemIs(config: bytes, isKey: bool, cts: int, avcc: bytes, role: Role, ts: int)
    ensures ItemOf(Tag(role, Flv.TAG_VIDEO, ts, FlvVideoSeqHeader(config))) == Header(FlvVideoSeqHeader(config))
    ensures ItemOf(Tag(role, Flv.TAG_VIDEO, ts, FlvVideoFrame(isKey, cts, avcc))) == Coded(if isKey then 0x17 else 0x27, avcc)
  {
    var p := FlvVideoFrame(isKey, cts, avcc);
    assert p[5..] == avcc;
  }

  lemma PairSnoc(units: seq<bytes>, unit: bytes)
    ensures LastPair(units + [unit]) == if Pair(unit).Some? then Pair(unit) else LastPair(units)
    ensures VideoItems(units + [unit]) == VideoItems(units) + FromVideo(units, unit)
  {
    hide Pair, FromVideo;
    assert (units + [unit])[..|units|] == units;
  }

  /** New parameter sets, or none. */
  lemma SetsAnnounce(es: Streams, pid: nat, role: Role, units: seq<bytes>, unit: bytes, dtsMs: int)
    requires StoredPair(es, pid, units) && !es.crashed
    ensures var es' := TakeParameterSets(es, pid, role, ScanNals(NalUnits(unit)), dtsMs);
            var news := if Pair(unit).Some? && Pair(unit) != LastPair(units) then AvcHeader(Pair(unit).value) else [];
            !es'.crashed ==>
              && StoredPair(es', pid, units + [unit]) && es'.aac == es.aac && OthersKept(es, es', pid, role)
              && ItemsOf(es'.out, role) == ItemsOf(es.out, role) + news
  {
    ScanIs(NalUnits(unit));
    PairSnoc(units, unit);
    hide ScanNals, NalUnits, LastOf, BuildAvcConfig, LastPair, VideoItems, ItemsOf, ItemOf, FlvVideoSeqHeader, Slices, FromVideo;
    var s := ScanNals(NalUnits(unit));
    assert ItemsOf(es.out, role) + [] == ItemsOf(es.out, role);
    if |s.sps| >= 4 && s.pps != [] && !(GetOr(es.sps, pid) == s.sps && GetOr(es.pps, pid) == s.pps) {
      var config := BuildAvcConfig(s.sps, s.pps);
      VideoItemIs(config, true, 0, [], role, dtsMs);
      forall r ensures ItemsOf(es.out + [Tag(role, Flv.TAG_VIDEO, dtsMs, FlvVideoSeqHeader(config))], r)
          == ItemsOf(es.out, r) + if role == r then [Header(FlvVideoSeqHeader(config))] else [] {
        ItemsSnoc(es.out, Tag(role, Flv.TAG_VIDEO, dtsMs, FlvVideoSeqHeader(config)), r);
      }
      assert forall r :: ItemsOf(es.out, r) + [] == ItemsOf(es.out, r);
    }
  }

  lemma ClocksKeepItems(es: Streams, key: ClockKey, raw: int, clock: int)
    ensures var t := Tick(es, key, raw); t.out == es.out && t.sps == es.sps && t.pps == es.pps && t.aac == es.aac && t.crashed == es.crashed
    ensures var a := Anchor(es, clock); a.out == es.out && a.sps == es.sps && a.pps == es.pps && a.aac == es.aac && a.crashed == es.crashed
  {
  }

  /** A picture after the codec header, if any. */
  lemma PictureAnnounces(es3: Streams, pid: nat, role: Role, units: seq<bytes>, unit: bytes, isKey: bool, dtsMs: int, ctsMs: int, avcc: bytes)
    requires StoredPair(es3, pid, units)
    ensures var es' := Emit(es3, Tag(role, Flv.TAG_VIDEO, dtsMs, FlvVideoFrame(isKey, ctsMs, avcc)));
            && StoredPair(es', pid, units) && OthersKept(es3, es', pid, role) && es'.crashed == es3.crashed
            && ItemsOf(es'.out, role) == ItemsOf(es3.out, role) + [Coded(if isKey then 0x17 else 0x27, avcc)]
  {
    hide LastPair, ItemsOf, ItemOf, FlvVideoFrame;
    VideoItemIs([], isKey, ctsMs, avcc, role, dtsMs);
    var tag := Tag(role, Flv.TAG_VIDEO, dtsMs, FlvVideoFrame(isKey, ctsMs, avcc));
    forall r ensures ItemsOf(es3.out + [tag], r) == ItemsOf(es3.out, r) + if role == r then [ItemOf(tag)] else [] {
      ItemsSnoc(es3.out, tag, r);
    }
    assert forall r :: ItemsOf(es3.out, r) + [] == ItemsOf(es3.out, r);
  }

  lemma KeptTwice(a: Streams, b: Streams, c: Streams, pid: nat, role: Role)
    requires OthersKept(a, b, pid, role) && OthersKept(b, c, pid, role)
    ensures OthersKept(a, c, pid, role)
  {
    hide ItemsOf, GetOr, AacParams;
  }

  lemma SameKept(a: Streams, b: Streams, pid: nat, role: Role)
    requires b.out == a.out && b.sps == a.sps && b.pps == a.pps && b.aac == a.aac
    ensures OthersKept(a, b, pid, role)
  {
    hide ItemsOf;
  }

  /** An access unit brings out just what its parameter sets and slices say, unless it crashes the demultiplexer. */
  lemma VideoAnnounces(es: Streams, pid: nat, role: Role, unit: bytes, ptsRaw: int, dtsRaw: int, units: seq<bytes>)
    requires VideoTold(es, pid, role, units) && !es.crashed
    ensures var es' := HandleVideo(es, pid, role, unit, ptsRaw, dtsRaw);
            !es'.crashed ==> VideoTold(es', pid, role, units + [unit]) && OthersKept(es, es', pid, role)
  {
    hide NalUnits, ScanNals, TakeParameterSets, FlvVideoFrame, Packed, Milliseconds, Tick, Emit, Anchor, ClockAt, LastPair, VideoItems,
      ItemsOf, OthersKept, HasIdr, Slices, LastOf, AvcHeader, Pair;
    ScanIs(NalUnits(unit));
    var es0 := Tick(es, VideoPts(pid), ptsRaw);
    var es1 := Tick(es0, VideoDts(pid), dtsRaw);
    var dts := ClockAt(es1, VideoDts(pid)).prevUnwrapped;
    var es2 := Anchor(es1, dts);
    ClocksKeepItems(es, VideoPts(pid), ptsRaw, 0);
    ClocksKeepItems(es0, VideoDts(pid), dtsRaw, 0);
    ClocksKeepItems(es1, VideoPts(pid), 0, dts);
    SameKept(es, es2, pid, role);
    var dtsMs := Milliseconds(es2, dts);
    var ctsMs := Milliseconds(es2, ClockAt(es2, VideoPts(pid)).prevUnwrapped) - dtsMs;
    var s := ScanNals(NalUnits(unit));
    var es3 := TakeParameterSets(es2, pid, role, s, dtsMs);
    SetsAnnounce(es2, pid, role, units, unit, dtsMs);
    PairSnoc(units, unit);
    if !es3.crashed {
      KeptTwice(es, es2, es3, pid, role);
      if s.vcl != [] {
        PictureAnnounces(es3, pid, role, units + [unit], unit, s.isKey, dtsMs, ctsMs, Packed(s.vcl));
        KeptTwice(es, es3, Emit(es3, Tag(role, Flv.TAG_VIDEO, dtsMs, FlvVideoFrame(s.isKey, ctsMs, Packed(s.vcl)))), pid, role);
      }
    }
  }

  // ----- one unit of audio -----

  lemma AudioItemIs(asc: bytes, raw: bytes, role: Role, ts: int)
    ensures ItemOf(Tag(role, Flv.TAG_AUDIO, ts, FlvAudioSeqHeader(asc))) == Header(FlvAudioSeqHeader(asc))
    ensures ItemOf(Tag(role, Flv.TAG_AUDIO, ts, FlvAudioFrame(raw))) == Coded(0xAF, raw)
  {
    assert FlvAudioFrame(raw)[2..] == raw;
  }

  lemma AudioSnoc(frames: seq<Aac>, f: Aac)
    ensures AudioItems(frames + [f])
            == AudioItems(frames)
               + (if frames == [] || frames[|frames| - 1].cfg != f.cfg then [Header(AscPayload(f.cfg))] else []) + [Coded(0xAF, f.raw)]
  {
    assert (frames + [f])[..|frames|] == frames;
  }

  lemma RealConfig(unit: bytes, offset: nat)
    ensures FrameAt(unit, offset).Some? ==> FrameAt(unit, offset).value.aot > 0
  {
  }

  lemma FrameAnnounces(es: Streams, pid: nat, role: Role, unit: bytes, offset: nat, h: Adts, ts: int, frames: seq<Aac>)
    requires FrameAt(unit, offset) == Some(h)
    requires ItemsOf(es.out, role) == AudioItems(frames) && StoredConfig(es, pid, frames)
    ensures var es' := AudioFrame(es, pid, role, unit, offset, h, ts);
            var f := Aac((h.aot, h.sfi, h.channels), unit[offset + h.headerLen..offset + h.frameLength]);
            && ItemsOf(es'.out, role) == AudioItems(frames + [f]) && StoredConfig(es', pid, frames + [f])
            && OthersKept(es, es', pid, role) && es'.crashed == es.crashed
  {
    RealConfig(unit, offset);
    hide FrameAt, BuildAsc, ItemsOf, ItemOf, AudioItems, FlvAudioFrame, FlvAudioSeqHeader;
    var f := Aac((h.aot, h.sfi, h.channels), unit[offset + h.headerLen..offset + h.frameLength]);
    AudioSnoc(frames, f);
    AudioItemIs(BuildAsc(h.aot, h.sfi, h.channels), f.raw, role, ts);
    var header := Tag(role, Flv.TAG_AUDIO, ts, FlvAudioSeqHeader(BuildAsc(h.aot, h.sfi, h.channels)));
    var media := Tag(role, Flv.TAG_AUDIO, ts, FlvAudioFrame(f.raw));
    forall r ensures ItemsOf(es.out + [header], r) == ItemsOf(es.out, r) + (if role == r then [ItemOf(header)] else [])
      && ItemsOf(es.out + [header] + [media], r) == ItemsOf(es.out + [header], r) + (if role == r then [ItemOf(media)] else [])
      && ItemsOf(es.out + [media], r) == ItemsOf(es.out, r) + if role == r then [ItemOf(media)] else []
    {
      ItemsSnoc(es.out, header, r);
      ItemsSnoc(es.out + [header], media, r);
      ItemsSnoc(es.out, media, r);
    }
    assert forall r :: ItemsOf(es.out, r) + [] == ItemsOf(es.out, r);
  }

  lemma {:induction false} FramesAnnounce(es: Streams, pid: nat, role: Role, unit: bytes, offset: nat, frameNo: nat, baseMs: int,
                                          frames: seq<Aac>)
    requires ItemsOf(es.out, role) == AudioItems(frames) && StoredConfig(es, pid, frames)
    ensures var es' := AudioFrames(es, pid, role, unit, offset, frameNo, baseMs);
            && ItemsOf(es'.out, role) == AudioItems(frames + FramesIn(unit, offset))
            && StoredConfig(es', pid, frames + FramesIn(unit, offset))
            && OthersKept(es, es', pid, role) && es'.crashed == es.crashed
    decreases |unit| - offset
  {
    hide FrameAt, FrameTs, ItemsOf, AudioItems, AudioFrame, StoredConfig, OthersKept;
    SameKept(es, es, pid, role);
    assert frames + [] == frames;
    if offset < |unit| {
      match FrameAt(unit, offset)
      case None =>
      case Some(h) =>
        var ts := FrameTs(baseMs, frameNo, h);
        var es1 := AudioFrame(es, pid, role, unit, offset, h, ts);
        var f := Aac((h.aot, h.sfi, h.channels), unit[offset + h.headerLen..offset + h.frameLength]);
        FrameAnnounces(es, pid, role, unit, offset, h, ts, frames);
        FramesAnnounce(es1, pid, role, unit, offset + h.frameLength, frameNo + 1, baseMs, frames + [f]);
        assert frames + ([f] + FramesIn(unit, offset + h.frameLength)) == (frames + [f]) + FramesIn(unit, offset + h.frameLength);
        KeptTwice(es, es1, AudioFrames(es1, pid, role, unit, offset + h.frameLength, frameNo + 1, baseMs), pid, role);
    }
  }

  lemma AllFramesSnoc(units: seq<bytes>, unit: bytes)
    ensures AllFrames(units + [unit]) == AllFrames(units) + FramesIn(unit, 0)
  {
    hide FramesIn;
    assert (units + [unit])[..|units|] == units;
  }

  /** A unit of audio brings out just its frames, with a codec header wherever the configuration changes. */
  lemma AudioAnnounces(es: Streams, pid: nat, role: Role, unit: bytes, ptsRaw: int, units: seq<bytes>)
    requires AudioTold(es, pid, role, units) && !es.crashed
    ensures var es' := HandleAudio(es, pid, role, unit, ptsRaw);
            AudioTold(es', pid, role, units + [unit]) && OthersKept(es, es', pid, role) && !es'.crashed
  {
    hide AudioFrames, Milliseconds, Tick, Anchor, ClockAt, ItemsOf, AudioItems, FramesIn, OthersKept;
    var es1 := Tick(es, AudioPts(pid), ptsRaw);
    var pts := ClockAt(es1, AudioPts(pid)).prevUnwrapped;
    var es2 := Anchor(es1, pts);
    ClocksKeepItems(es, AudioPts(pid), ptsRaw, 0);
    ClocksKeepItems(es1, AudioPts(pid), 0, pts);
    SameKept(es, es2, pid, role);
    AllFramesSnoc(units, unit);
    FramesAnnounce(es2, pid, role, unit, 0, 0, Milliseconds(es2, pts), AllFrames(units));
    KeptTwice(es, es2, HandleAudio(es, pid, role, unit, ptsRaw), pid, role);
  }

  // ----- what the items say -----

  /** The last codec header among the items. */
  function LastHeader(items: seq<Item>): Option<bytes>
  {
    if items == [] then None
    else if items[|items| - 1].Header? then Some(items[|items| - 1].payload)
    else LastHeader(items[..|items| - 1])
  }

  lemma HeaderSnoc(items: seq<Item>, x: Item)
    ensures LastHeader(items + [x]) == if x.Header? then Some(x.payload) else LastHeader(items)
  {
    assert (items + [x])[..|items|] == items;
  }

  /** No access unit crashes the demultiplexer. */
  ghost predicate NoneShort(units: seq<bytes>)
  {
    forall u :: u in units && Pair(u).Some? ==> |Pair(u).value.0| >= 4
  }

  /** At any point of a stream, the last codec header is that of the last pair of parameter sets, if there was one: so
      each picture comes after the header of the parameter sets it is to be decoded with. */
  lemma {:induction false} PicturesAreAnnounced(units: seq<bytes>)
    requires NoneShort(units)
    ensures LastHeader(VideoItems(units)) ==
            match LastPair(units)
            case None => None
            case Some(pair) => Some(AvcPayload(pair))
    decreases |units|
  {
    hide Pair, AvcPayload, Packed, NalUnits, Slices, HasIdr;
    if units != [] {
      var init, last := units[..|units| - 1], units[|units| - 1];
      assert last in units && forall u :: u in init ==> u in units;
      PicturesAreAnnounced(init);
      assert units == init + [last];
      PairSnoc(init, last);
      var news := if Pair(last).Some? && Pair(last) != LastPair(init) then AvcHeader(Pair(last).value) else [];
      var coded := FromVideo(init, last)[|news|..];
      hide LastPair, VideoItems, LastHeader;
      HeadersAppend(VideoItems(init), news, coded);
    }
  }

  lemma HeadersAppend(items: seq<Item>, news: seq<Item>, coded: seq<Item>)
    requires |news| <= 1 && |coded| <= 1 && (news != [] ==> news[0].Header?) && (coded != [] ==> coded[0].Coded?)
    ensures LastHeader(items + (news + coded)) == if news != [] then Some(news[0].payload) else LastHeader(items)
  {
    hide LastHeader;
    if news != [] {
      HeaderSnoc(items, news[0]);
      assert items + news == items + [news[0]];
    } else {
      assert items + news == items;
    }
    assert items + (news + coded) == (items + news) + coded;
    if coded != [] {
      HeaderSnoc(items + news, coded[0]);
      assert (items + news) + coded == (items + news) + [coded[0]];
    } else {
      assert (items + news) + coded == items + news;
    }
  }

  /** That header's configuration parses back to the two parameter sets. */
  lemma HeaderParses(sps: bytes, pps: bytes)
    requires 4 <= |sps| < 0x1_0000 && |pps| < 0x1_0000
    ensures ParseAvcConfig(AvcPayload((sps, pps))[5..]) == (sps, pps)
  {
    AvcConfigRoundTrips(sps, pps);
    hide BuildAvcConfig, ParseAvcConfig;
    assert FlvVideoSeqHeader(BuildAvcConfig(sps, pps))[5..] == BuildAvcConfig(sps, pps);
  }

  /** Up to any unit of a stream, what has come out is the beginning of all that comes out. */
  lemma {:induction false} ItemsGrow(units: seq<bytes>, more: seq<bytes>)
    ensures VideoItems(units) <= VideoItems(units + more)
    decreases |more|
  {
    hide VideoItems, FromVideo;
    if more == [] {
      assert units + more == units;
    } else {
      var init, last := more[..|more| - 1], more[|more| - 1];
      assert units + more == (units + init) + [last];
      ItemsGrow(units, init);
      PairSnoc(units + init, last);
    }
  }

  /** Every frame comes after the header of its own configuration. */
  lemma {:induction false} FramesAreAnnounced(frames: seq<Aac>)
    requires frames != []
    ensures LastHeader(AudioItems(frames)) == Some(AscPayload(frames[|frames| - 1].cfg))
    decreases |frames|
  {
    hide *;
    var init, last := frames[..|frames| - 1], frames[|frames| - 1];
    var news := if init == [] || init[|init| - 1].cfg != last.cfg then [Header(AscPayload(last.cfg))] else [];
    assert frames == init + [last];
    AudioSnoc(init, last);
    HeadersAppend(AudioItems(init), news, [Coded(0xAF, last.raw)]);
    assert AudioItems(init) + (news + [Coded(0xAF, last.raw)]) == AudioItems(init) + news + [Coded(0xAF, last.raw)];
    if news == [] {
      FramesAreAnnounced(init);
    }
  }

  /** That header's configuration parses back. */
  lemma AscParses(cfg: (nat, nat, nat))
    ensures ParseAsc(AscPayload(cfg)[2..]) == Some((cfg.0 % 32, cfg.1 % 16, cfg.2 % 16))
  {
    AscRoundTrips(cfg.0, cfg.1, cfg.2);
    hide BuildAsc, ParseAsc;
    assert AscPayload(cfg)[2..] == BuildAsc(cfg.0, cfg.1, cfg.2);
  }
}
