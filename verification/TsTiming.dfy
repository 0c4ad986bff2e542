// When the demultiplexer says a picture or frame is: the stamps of its unit from the origin of all times on, and, for
// the frames of one unit, their own length.
module TsTiming {
  import opened Bytes
  import opened AnnexB
  import opened TsClock
  import opened TsPackets
  import opened TsDemux
  import opened TsAnnounce
  import Flv

  /** A 33-bit stamp, unwrapped by the clock it belongs to. */
  function Unwrapped(es: Streams, key: ClockKey, raw: int): int
  {
    UnwrapStep(ClockAt(es, key), raw).prevUnwrapped
  }

  /** In milliseconds from the origin, which the first stamp of all sets. */
  function SinceOrigin(es: Streams, first: int, clock: int): int
  {
    RoundHalfEven(clock - if es.base.Some? then es.base.value else first, 90)
  }

  predicate IsHeaderTag(tag: Tag)
  {
    Flv.IsSeqHeader(tag.tagType, tag.payload)
  }

  function Media(tags: seq<Tag>): seq<Tag>
  {
    if tags == [] then []
    else Media(tags[..|tags| - 1]) + if IsHeaderTag(tags[|tags| - 1]) then [] else [tags[|tags| - 1]]
  }

  /** What has come out since. */
  function New(es: Streams, es': Streams): seq<Tag>
  {
    if es.out <= es'.out then es'.out[|es.out|..] else es'.out
  }

  // ----- pictures -----

  /** A codec header, or a picture so long after its decoding time. */
  predicate VideoTagAt(tag: Tag, role: Role, t: int, cts: int)
  {
    && tag.role == role && tag.tagType == Flv.TAG_VIDEO && tag.ts == t
    && (!IsHeaderTag(tag) ==> |tag.payload| >= 5 && tag.payload[2..5] == Be24((if cts < 0 then 0 else cts) % 0x100_0000))
  }

  ghost predicate AllAt(tags: seq<Tag>, role: Role, t: int, cts: int)
  {
    forall tag :: tag in tags ==> VideoTagAt(tag, role, t, cts)
  }

  /** All an access unit adds is timed by its decoding stamp, and its picture is shown as long after that as its two stamps
      say. */
  lemma PictureIsTimed(es: Streams, pid: nat, role: Role, unit: bytes, ptsRaw: int, dtsRaw: int)
    ensures var es' := HandleVideo(es, pid, role, unit, ptsRaw, dtsRaw);
            var (pts, dts) := (Unwrapped(es, VideoPts(pid), ptsRaw), Unwrapped(es, VideoDts(pid), dtsRaw));
            var t := SinceOrigin(es, dts, dts);
            && es.out <= es'.out
            && es'.base == Some(if es.base.Some? then es.base.value else dts)
            && AllAt(New(es, es'), role, t, SinceOrigin(es, dts, pts) - t)
  {
    ClocksAt(es, pid, ptsRaw, dtsRaw);
    VideoParts(es, pid, role, unit, ptsRaw, dtsRaw);
    hide *;
    var es1 := Tick(Tick(es, VideoPts(pid), ptsRaw), VideoDts(pid), dtsRaw);
    var (pts, dts) := (Unwrapped(es, VideoPts(pid), ptsRaw), Unwrapped(es, VideoDts(pid), dtsRaw));
    var es2 := Anchor(es1, dts);
    AnchoredAt(es, es1, dts, dts);
    AnchoredAt(es, es1, dts, pts);
    var t, p := Milliseconds(es2, dts), Milliseconds(es2, pts);
    var s := ScanNals(NalUnits(unit));
    SetsAreTimed(es2, pid, role, s, t, p - t);
    var es3 := TakeParameterSets(es2, pid, role, s, t);
    EmitTimed(es2, es3, role, t, p - t, s.isKey, Packed(s.vcl));
    SameNew(es, es2, HandleVideo(es, pid, role, unit, ptsRaw, dtsRaw));
  }

  lemma SameNew(es: Streams, es2: Streams, es': Streams)
    requires es2.out == es.out
    ensures New(es, es') == New(es2, es')
  {
  }

  lemma AnchoredAt(es: Streams, es1: Streams, first: int, clock: int)
    requires es1.base == es.base && es1.out == es.out
    ensures var es2 := Anchor(es1, first);
            && es2.out == es.out && es2.base == Some(if es.base.Some? then es.base.value else first)
            && Milliseconds(es2, clock) == SinceOrigin(es, first, clock)
  {
    hide RoundHalfEven;
  }

  lemma VideoParts(es: Streams, pid: nat, role: Role, unit: bytes, ptsRaw: int, dtsRaw: int)
    ensures var es1 := Tick(Tick(es, VideoPts(pid), ptsRaw), VideoDts(pid), dtsRaw);
            var dts := ClockAt(es1, VideoDts(pid)).prevUnwrapped;
            var es2 := Anchor(es1, dts);
            var t := Milliseconds(es2, dts);
            var s := ScanNals(NalUnits(unit));
            var es3 := TakeParameterSets(es2, pid, role, s, t);
            HandleVideo(es, pid, role, unit, ptsRaw, dtsRaw)
            == if es3.crashed || s.vcl == [] then es3
               else
                 Emit(es3, Tag(role, Flv.TAG_VIDEO, t, FlvVideoFrame(s.isKey, Milliseconds(es2, ClockAt(es1, VideoPts(pid)).prevUnwrapped) - t,
                                                                     Packed(s.vcl))))
  {
    hide NalUnits, ScanNals, Packed, Milliseconds, TakeParameterSets, FlvVideoFrame, Tick, Emit;
    var es1 := Tick(Tick(es, VideoPts(pid), ptsRaw), VideoDts(pid), dtsRaw);
    assert forall clock, key :: ClockAt(Anchor(es1, clock), key) == ClockAt(es1, key);
  }

  lemma ClocksAt(es: Streams, pid: nat, ptsRaw: int, dtsRaw: int)
    ensures var es1 := Tick(Tick(es, VideoPts(pid), ptsRaw), VideoDts(pid), dtsRaw);
            && es1.out == es.out && es1.base == es.base
            && ClockAt(es1, VideoPts(pid)).prevUnwrapped == Unwrapped(es, VideoPts(pid), ptsRaw)
            && ClockAt(es1, VideoDts(pid)).prevUnwrapped == Unwrapped(es, VideoDts(pid), dtsRaw)
  {
    hide UnwrapStep;
  }

  lemma EmitTimed(es2: Streams, es3: Streams, role: Role, t: int, cts: int, isKey: bool, avcc: bytes)
    requires es2.out <= es3.out && AllAt(New(es2, es3), role, t, cts)
    ensures var es' := Emit(es3, Tag(role, Flv.TAG_VIDEO, t, FlvVideoFrame(isKey, cts, avcc)));
            es2.out <= es'.out && AllAt(New(es2, es'), role, t, cts) && es'.base == es3.base
  {
    CtsIs(isKey, cts, avcc);
    hide FlvVideoFrame, IsHeaderTag, Be24;
    var tag := Tag(role, Flv.TAG_VIDEO, t, FlvVideoFrame(isKey, cts, avcc));
    assert VideoTagAt(tag, role, t, cts);
    hide VideoTagAt;
    assert (es3.out + [tag])[|es2.out|..] == es3.out[|es2.out|..] + [tag];
  }

  lemma SetsAreTimed(es: Streams, pid: nat, role: Role, s: Scan, t: int, cts: int)
    ensures var es' := TakeParameterSets(es, pid, role, s, t);
            es'.base == es.base && es.out <= es'.out && AllAt(New(es, es'), role, t, cts)
  {
    hide BuildAvcConfig, Be24;
  }

  lemma CtsIs(isKey: bool, cts: int, avcc: bytes)
    ensures var p := FlvVideoFrame(isKey, cts, avcc);
            |p| >= 5 && p[2..5] == Be24((if cts < 0 then 0 else cts) % 0x100_0000)
  {
    assert |Be24((if cts < 0 then 0 else cts) % 0x100_0000)| == 3;
    hide Be24;
  }

  // ----- frames -----

  /** Each frame's time, and its header's, if it has one. */
  ghost predicate FramesTimed(tags: seq<Tag>, frames: seq<Aac>, frameNo: nat, t: int)
  {
    && |Media(tags)| == |frames|
    && forall k :: 0 <= k < |frames| ==> Media(tags)[k].ts == t + RoundHalfEven((frameNo + k) * 1024 * 1000, SampleRate(frames[k].cfg.1))
  }

  lemma {:induction false} MediaFront(tag: Tag, tags: seq<Tag>)
    ensures Media([tag] + tags) == (if IsHeaderTag(tag) then [] else [tag]) + Media(tags)
    decreases |tags|
  {
    hide IsHeaderTag;
    if tags == [] {
      assert [tag] + tags == [tag] && [tag][..0] == [] && Media([]) == [];
    } else {
      var init, last := tags[..|tags| - 1], tags[|tags| - 1];
      assert ([tag] + tags)[..|tags|] == [tag] + init;
      MediaFront(tag, init);
    }
  }

  lemma FrameTag(es: Streams, pid: nat, role: Role, unit: bytes, offset: nat, h: Adts, ts: int)
    requires FrameAt(unit, offset) == Some(h)
    ensures var es' := AudioFrame(es, pid, role, unit, offset, h, ts);
            && es'.base == es.base && es.out <= es'.out
            && exists header, frame: Tag ::
                 && IsHeaderTag(header) && !IsHeaderTag(frame) && frame.ts == ts == header.ts && frame.role == role
                 && (es'.out == es.out + [frame] || es'.out == es.out + ([header] + [frame]))
  {
    hide FrameAt, BuildAsc;
    var header := Tag(role, Flv.TAG_AUDIO, ts, FlvAudioSeqHeader(BuildAsc(h.aot, h.sfi, h.channels)));
    var frame := Tag(role, Flv.TAG_AUDIO, ts, FlvAudioFrame(unit[offset + h.headerLen..offset + h.frameLength]));
    assert IsHeaderTag(header) && !IsHeaderTag(frame);
    hide IsHeaderTag, FlvAudioFrame, FlvAudioSeqHeader;
    assert es.out + [header] + [frame] == es.out + ([header] + [frame]);
  }

  lemma {:induction false} FramesAreTimed(es: Streams, pid: nat, role: Role, unit: bytes, offset: nat, frameNo: nat, t: int)
    ensures var es' := AudioFrames(es, pid, role, unit, offset, frameNo, t);
            && es'.base == es.base && es.out <= es'.out && FramesTimed(es'.out[|es.out|..], FramesIn(unit, offset), frameNo, t)
    decreases |unit| - offset
  {
    hide FrameAt, AudioFrame, IsHeaderTag, SampleRate, RoundHalfEven;
    if offset < |unit| && FrameAt(unit, offset).Some? {
      var h := FrameAt(unit, offset).value;
      var ts := FrameTs(t, frameNo, h);
      var es1 := AudioFrame(es, pid, role, unit, offset, h, ts);
      var es' := AudioFrames(es1, pid, role, unit, offset + h.frameLength, frameNo + 1, t);
      FrameTag(es, pid, role, unit, offset, h, ts);
      FramesAreTimed(es1, pid, role, unit, offset + h.frameLength, frameNo + 1, t);
      var header, frame: Tag :| IsHeaderTag(header) && !IsHeaderTag(frame) && frame.ts == ts
        && (es1.out == es.out + [frame] || es1.out == es.out + ([header] + [frame]));
      hide AudioFrames, FramesIn;
      FrontTimed(es.out, es1.out, es'.out, header, frame, FramesIn(unit, offset + h.frameLength),
                 Aac((h.aot, h.sfi, h.channels), unit[offset + h.headerLen..offset + h.frameLength]), frameNo, t);
      FramesInUnfold(unit, offset, h);
    } else {
      assert es.out[|es.out|..] == [];
    }
  }

  lemma FramesInUnfold(unit: bytes, offset: nat, h: Adts)
    requires offset < |unit| && FrameAt(unit, offset) == Some(h)
    ensures FramesIn(unit, offset)
            == [Aac((h.aot, h.sfi, h.channels), unit[offset + h.headerLen..offset + h.frameLength])]
               + FramesIn(unit, offset + h.frameLength)
  {
    hide FrameAt;
  }

  lemma FrontTimed(a: seq<Tag>, b: seq<Tag>, c: seq<Tag>, header: Tag, frame: Tag, frames: seq<Aac>, f: Aac, frameNo: nat, t: int)
    requires b <= c && (b == a + [frame] || b == a + ([header] + [frame])) && IsHeaderTag(header) && !IsHeaderTag(frame)
    requires FramesTimed(c[|b|..], frames, frameNo + 1, t) && frame.ts == t + RoundHalfEven(frameNo * 1024 * 1000, SampleRate(f.cfg.1))
    ensures a <= c && FramesTimed(c[|a|..], [f] + frames, frameNo, t)
  {
    hide IsHeaderTag, SampleRate, RoundHalfEven, Media;
    var rest := c[|b|..];
    MediaFront(frame, rest);
    MediaFront(header, [frame] + rest);
    if b == a + [frame] {
      assert c[|a|..] == [frame] + rest;
    } else {
      assert c[|a|..] == [header] + ([frame] + rest);
    }
    forall k | 0 <= k < |frames| + 1
      ensures Media(c[|a|..])[k].ts == t + RoundHalfEven((frameNo + k) * 1024 * 1000, SampleRate(([f] + frames)[k].cfg.1))
    {
      if k > 0 {
        assert Media(rest)[k - 1].ts == t + RoundHalfEven((frameNo + 1 + (k - 1)) * 1024 * 1000, SampleRate(frames[k - 1].cfg.1));
      }
    }
  }

  /** The frames of one unit follow each other 1024 samples apart, from the unit's own stamp on. */
  lemma UnitIsTimed(es: Streams, pid: nat, role: Role, unit: bytes, ptsRaw: int)
    ensures var es' := HandleAudio(es, pid, role, unit, ptsRaw);
            var pts := Unwrapped(es, AudioPts(pid), ptsRaw);
            var frames := FramesIn(unit, 0);
            var media := Media(New(es, es'));
            && es.out <= es'.out
            && es'.base == Some(if es.base.Some? then es.base.value else pts)
            && |media| == |frames|
            && forall k :: 0 <= k < |frames| ==>
                 media[k].ts == SinceOrigin(es, pts, pts) + RoundHalfEven(k * 1024 * 1000, SampleRate(frames[k].cfg.1))
  {
    hide AudioFrames, FramesIn, RoundHalfEven, UnwrapStep, SampleRate, Media;
    var es1 := Tick(es, AudioPts(pid), ptsRaw);
    var pts := Unwrapped(es, AudioPts(pid), ptsRaw);
    assert ClockAt(es1, AudioPts(pid)).prevUnwrapped == pts;
    var es2 := Anchor(es1, pts);
    FramesAreTimed(es2, pid, role, unit, 0, 0, Milliseconds(es2, pts));
    assert es2.out == es.out;
  }
}
