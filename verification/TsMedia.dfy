// The round trip in terms of what a caller writes: pictures and AAC frames.
module TsMedia {
  import opened Bytes
  import opened AnnexB
  import opened TsClock
  import opened TsPackets
  import opened TsDemux
  import opened TsAnnounce
  import opened TsStreams
  import opened TsTransport
  import opened TsRoundTrip
  import M = TsMux
  import Flv

  /** A legacy AVC access unit of coded slices, or an AAC frame for an output slot. */
  datatype Media = Picture(ts: int, cts: nat, nals: seq<bytes>) | Sound(slot: byte, ts: int, raw: bytes)

  /** The legacy payload: a picture is a keyframe iff it has an IDR slice. */
  function PayloadOf(x: Media): bytes
  {
    match x
    case Picture(_, cts, nals) => FlvVideoFrame(HasIdr(nals), cts, Packed(nals))
    case Sound(_, _, raw) => FlvAudioFrame(raw)
  }

  function TagOf(x: Media): M.Tag
  {
    match x
    case Picture(ts, _, _) => M.Tag(Flv.TAG_VIDEO, ts, PayloadOf(x))
    case Sound(slot, ts, _) =>
      M.Tag(Flv.TAG_AUDIO, ts, if slot == 0 then PayloadOf(x) else Flv.WrapMultitrackAudio(slot, PayloadOf(x)))
  }

  function TagsOf(run: seq<Media>): seq<M.Tag>
  {
    seq(|run|, i requires 0 <= i < |run| => TagOf(run[i]))
  }

  ghost predicate MediaOk(m: M.State, x: Media)
  {
    match x
    case Picture(_, cts, nals) =>
      && cts < 0x100_0000 && nals != []
      && forall n :: n in nals ==> IsSlice(n) && Clean(n) && |n| < 0x1_0000_0000
    case Sound(slot, _, raw) => slot < Flv.MAX_AUDIO_SLOTS && slot in m.known && slot in m.audioCfg && |raw| <= ADTS_MAX_FRAME
  }

  /** Parameter sets a picture can be led by. */
  ghost predicate ConfigOk(m: M.State)
  {
    && (|m.sps| > 0 ==> Clean(m.sps) && NalType(m.sps) == 7 && |m.sps| >= 4)
    && (|m.pps| > 0 ==> Clean(m.pps) && NalType(m.pps) == 8)
  }

  function PidOfMedia(x: Media): nat
  {
    if x.Picture? then PID_VIDEO else PID_AUDIO_BASE + x.slot
  }

  /** The media of one PID. */
  function TrackOf(run: seq<Media>, pid: nat): seq<Media>
  {
    if run == [] then []
    else TrackOf(run[..|run| - 1], pid) + if PidOfMedia(run[|run| - 1]) == pid then [run[|run| - 1]] else []
  }

  function PtsOf(x: Media): int
  {
    if x.Picture? then (x.ts + x.cts) * 90 else x.ts * 90
  }

  /** Both clocks start in their first period and step by less than half of one. */
  ghost predicate ClocksOk(track: seq<Media>)
  {
    && (track != [] ==> 0 <= PtsOf(track[0]) < TWO_TO_33 && 0 <= track[0].ts * 90 < TWO_TO_33)
    && forall i :: 0 < i < |track| ==>
         Tellable(PtsOf(track[i]) - PtsOf(track[i - 1])) && Tellable(track[i].ts * 90 - track[i - 1].ts * 90)
  }

  function FrameOf(x: Media): Frame
  {
    Frame(x.ts, PayloadOf(x))
  }

  function FramesOfTrack(track: seq<Media>): seq<Frame>
  {
    seq(|track|, i requires 0 <= i < |track| => FrameOf(track[i]))
  }

  // ----- one tag -----

  /** The unit a medium becomes. */
  function UnitFor(m: M.State, x: Media): Unit
  {
    match x
    case Picture(ts, cts, nals) =>
      VideoUnit(ts, cts, (if HasIdr(nals) && |m.sps| > 0 && |m.pps| > 0 then [m.sps, m.pps] else []) + nals)
    case Sound(slot, ts, raw) => AudioUnit(slot, ts, if slot in m.audioCfg then m.audioCfg[slot] else (0, 0, 0), raw)
  }

  function UnitsFor(m: M.State, run: seq<Media>): seq<Unit>
  {
    seq(|run|, i requires 0 <= i < |run| => UnitFor(m, run[i]))
  }

  lemma PictureBytes(isKey: bool, cts: nat, avcc: bytes)
    requires cts < 0x100_0000
    ensures var p := FlvVideoFrame(isKey, cts, avcc);
            && |p| >= 5 && p[5..] == avcc && M.CtsOf(p) == cts && (M.IsKey(p) <==> isKey) && !Flv.IsAvcSeqHeader(p)
  {
  }

  lemma PictureUnit(m: M.State, x: Media)
    requires x.Picture? && MediaOk(m, x)
    ensures UnitOf(m, TagOf(x)) == Some(UnitFor(m, x))
  {
    hide Packed, FlvVideoFrame, M.CtsOf, M.IsKey, Flv.IsAvcSeqHeader, Unpacked, HasIdr;
    PictureBytes(HasIdr(x.nals), x.cts, Packed(x.nals));
    UnpackedInvertsPacked(x.nals);
  }

  lemma SoundSlot(slot: byte, raw: bytes)
    requires slot < Flv.MAX_AUDIO_SLOTS
    ensures var p := FlvAudioFrame(raw);
            M.SlotOf(if slot == 0 then p else Flv.WrapMultitrackAudio(slot, p)) == (slot, p)
  {
    var p := FlvAudioFrame(raw);
    if slot != 0 {
      Flv.WrapAudioRoundTripsIff(slot, p);
    }
  }

  lemma SoundUnit(m: M.State, x: Media)
    requires x.Sound? && MediaOk(m, x)
    ensures UnitOf(m, TagOf(x)) == Some(UnitFor(m, x)) && M.SlotOf(TagOf(x).payload).0 == x.slot
  {
    SoundSlot(x.slot, x.raw);
    assert FlvAudioFrame(x.raw)[2..] == x.raw;
  }

  lemma TagUnit(m: M.State, x: Media)
    requires MediaOk(m, x)
    ensures UnitOf(m, TagOf(x)) == Some(UnitFor(m, x)) && NoNewSlot(m.known, TagOf(x))
  {
    if x.Picture? {
      PictureUnit(m, x);
    } else {
      SoundUnit(m, x);
    }
  }

  /** The codec state the media depend on. */
  predicate SameConfig(m: M.State, m': M.State)
  {
    m'.sps == m.sps && m'.pps == m.pps && m'.audioCfg == m.audioCfg && m'.known == m.known
  }

  lemma TablesKeepConfig(m: M.State, due: bool, ts: int)
    ensures SameConfig(m, Preamble(m, due, ts).0)
  {
    hide M.PsiPackets, M.PmtSectionOf, M.CcOf;
  }

  lemma PesKeepsConfig(m: M.State, pid: nat, pes: bytes, pcr: int, hasPcr: bool)
    ensures SameConfig(m, M.PesStep(m, pid, pes, pcr, hasPcr).0)
  {
    hide PacketsFrom, M.CcOf;
  }

  lemma MediaKeepsConfig(m: M.State, x: Media)
    requires MediaOk(m, x)
    ensures SameConfig(m, M.TagStep(m, TagOf(x)).0)
  {
    hide UnitFor, UnitOf, NoNewSlot, MediaOk, TagOf, M.TagStep, M.PsiStep, M.PesStep, M.PsiDue, PesOf, PidOf, Preamble;
    TagUnit(m, x);
    SoundingTag(m, TagOf(x));
    var tag, u := TagOf(x), UnitOf(m, TagOf(x)).value;
    var due := if u.VideoUnit? then M.PsiDue(m, tag.ts) else m.pmtDirty;
    TablesKeepConfig(m, due, tag.ts);
    PesKeepsConfig(Preamble(m, due, tag.ts).0, PidOf(u), PesOf(u), if u.VideoUnit? then tag.ts * 90 else 0, u.VideoUnit?);
  }

  lemma SameUnits(m: M.State, m': M.State, run: seq<Media>)
    requires SameConfig(m, m')
    ensures UnitsFor(m', run) == UnitsFor(m, run)
    ensures forall x :: MediaOk(m, x) <==> MediaOk(m', x)
  {
    hide HasIdr, IsSlice, Clean;
  }

  /** The units of a run of media. */
  lemma {:induction false} RunUnits(m: M.State, run: seq<Media>)
    requires forall x :: x in run ==> MediaOk(m, x)
    ensures Units(m, TagsOf(run)) == UnitsFor(m, run)
    decreases |run|
  {
    hide MediaOk, UnitFor, UnitOf, M.TagStep, TagOf, SameConfig;
    if run != [] {
      var x := run[0];
      TagUnit(m, x);
      MediaKeepsConfig(m, x);
      var m1 := M.TagStep(m, TagOf(x)).0;
      SameUnits(m, m1, run[1..]);
      RunUnits(m1, run[1..]);
      assert TagsOf(run)[1..] == TagsOf(run[1..]) && UnitsFor(m, run) == [UnitFor(m, x)] + UnitsFor(m, run[1..]);
    }
  }

  // ----- one unit -----

  lemma ScanSlice(nals: seq<bytes>, nal: bytes)
    requires IsSlice(nal)
    ensures var before, after := ScanNals(nals), ScanNals(nals + [nal]);
            after.vcl == before.vcl + [nal] && (after.isKey <==> before.isKey || NalType(nal) == 5)
  {
    assert (nals + [nal])[..|nals|] == nals;
  }

  lemma IdrSnoc(nals: seq<bytes>, nal: bytes)
    requires IsSlice(nal)
    ensures HasIdr(nals + [nal]) <==> HasIdr(nals) || NalType(nal) == 5
  {
    assert forall n :: n in nals + [nal] <==> n in nals || n == nal;
  }

  predicate Scanned(s: Scan, nals: seq<bytes>)
  {
    s.vcl == nals && (s.isKey <==> HasIdr(nals))
  }

  lemma ScannedSnoc(lead: seq<bytes>, nals: seq<bytes>, nal: bytes)
    requires IsSlice(nal) && Scanned(ScanNals(lead + nals), nals)
    ensures Scanned(ScanNals(lead + (nals + [nal])), nals + [nal])
  {
    SliceNotEmpty(nal);
    ScanSlice(lead + nals, nal);
    IdrSnoc(nals, nal);
    hide ScanNals, HasIdr, IsSlice;
    assert lead + (nals + [nal]) == (lead + nals) + [nal];
  }

  lemma {:induction false} ScanSlices(lead: seq<bytes>, nals: seq<bytes>)
    requires forall n :: n in nals ==> IsSlice(n)
    requires ScanNals(lead).vcl == [] && !ScanNals(lead).isKey
    ensures Scanned(ScanNals(lead + nals), nals)
    decreases |nals|
  {
    hide ScanNals, IsSlice;
    if nals == [] {
      assert lead + nals == lead;
    } else {
      hide HasIdr, Scanned;
      var init, last := nals[..|nals| - 1], nals[|nals| - 1];
      assert last in nals && forall n :: n in init ==> n in nals;
      ScanSlices(lead, init);
      ScannedSnoc(lead, init, last);
      assert nals == init + [last];
    }
  }

  lemma SliceNotEmpty(nal: bytes)
    ensures IsSlice(nal) ==> |nal| > 0
  {
  }

  lemma ScanLead(m: M.State)
    requires ConfigOk(m) && |m.sps| > 0 && |m.pps| > 0
    ensures var s := ScanNals([m.sps, m.pps]); s.vcl == [] && !s.isKey
  {
    assert [m.sps, m.pps][..1] == [m.sps] && [m.sps][..0] == [];
    assert ScanNals([m.sps]) == ScanNal(NOTHING, m.sps);
  }

  lemma PictureFrame(m: M.State, x: Media)
    requires x.Picture? && MediaOk(m, x) && ConfigOk(m)
    ensures UnitOk(UnitFor(m, x)) && FramesOfUnit(UnitFor(m, x)) == [FrameOf(x)]
  {
    hide Packed, FlvVideoFrame, ScanNals, HasIdr, Clean;
    var lead := if HasIdr(x.nals) && |m.sps| > 0 && |m.pps| > 0 then [m.sps, m.pps] else [];
    assert ScanNals(lead).vcl == [] && !ScanNals(lead).isKey by {
      if lead != [] {
        ScanLead(m);
      } else {
        ScanNothing();
      }
    }
    ScanSlices(lead, x.nals);
    forall n | n in lead + x.nals ensures Clean(n) && (NalType(n) == 7 ==> |n| >= 4) {
      CleanNotEmpty(n);
      if n in x.nals {
        assert IsSlice(n);
      }
    }
  }

  lemma CleanNotEmpty(n: bytes)
    ensures Clean(n) ==> |n| > 0
  {
  }

  lemma ScanNothing()
    ensures ScanNals([]) == NOTHING
  {
  }

  lemma MediaFrame(m: M.State, x: Media)
    requires MediaOk(m, x) && ConfigOk(m)
    ensures UnitOk(UnitFor(m, x)) && FramesOfUnit(UnitFor(m, x)) == [FrameOf(x)] && PidOf(UnitFor(m, x)) == PidOfMedia(x)
    ensures Pts90(UnitFor(m, x)) == PtsOf(x) && Dts90(UnitFor(m, x)) == x.ts * 90
  {
    if x.Picture? {
      PictureFrame(m, x);
    }
  }

  // ----- one track -----

  lemma UnitsSnoc(m: M.State, run: seq<Media>, x: Media)
    ensures UnitsFor(m, run + [x]) == UnitsFor(m, run) + [UnitFor(m, x)]
  {
    hide UnitFor;
  }

  lemma TrackSnoc(run: seq<Media>, x: Media, pid: nat)
    ensures TrackOf(run + [x], pid) == if PidOfMedia(x) == pid then TrackOf(run, pid) + [x] else TrackOf(run, pid)
  {
    hide PidOfMedia;
    assert (run + [x])[..|run|] == run;
    assert TrackOf(run, pid) + [] == TrackOf(run, pid);
  }

  lemma {:induction false} TrackFromRun(run: seq<Media>, pid: nat)
    ensures forall x :: x in TrackOf(run, pid) ==> x in run
    decreases |run|
  {
    hide PidOfMedia;
    if run != [] {
      TrackFromRun(run[..|run| - 1], pid);
    }
  }

  lemma TrackUnitsSnoc(m: M.State, run: seq<Media>, x: Media, pid: nat)
    requires PidOf(UnitFor(m, x)) == PidOfMedia(x)
    requires Of(UnitsFor(m, run), pid) == UnitsFor(m, TrackOf(run, pid))
    ensures Of(UnitsFor(m, run + [x]), pid) == UnitsFor(m, TrackOf(run + [x], pid))
  {
    hide *;
    UnitsSnoc(m, run, x);
    UnitsSnoc(m, TrackOf(run, pid), x);
    OfSnoc(UnitsFor(m, run), UnitFor(m, x), pid);
    TrackSnoc(run, x, pid);
    var before := Of(UnitsFor(m, run), pid);
    assert before + [] == before;
  }

  ghost predicate AllMediaOk(m: M.State, run: seq<Media>)
  {
    forall x :: x in run ==> MediaOk(m, x)
  }

  lemma MediaOkFront(m: M.State, run: seq<Media>)
    requires AllMediaOk(m, run) && run != []
    ensures AllMediaOk(m, run[..|run| - 1]) && MediaOk(m, run[|run| - 1])
  {
    hide MediaOk;
    assert run[|run| - 1] in run;
  }

  lemma NoTrack(m: M.State, pid: nat)
    ensures Of(UnitsFor(m, []), pid) == UnitsFor(m, TrackOf([], pid))
  {
  }

  lemma TrackUnitsGrow(m: M.State, init: seq<Media>, last: Media, pid: nat)
    requires ConfigOk(m) && MediaOk(m, last)
    requires Of(UnitsFor(m, init), pid) == UnitsFor(m, TrackOf(init, pid))
    ensures Of(UnitsFor(m, init + [last]), pid) == UnitsFor(m, TrackOf(init + [last], pid))
  {
    hide *;
    MediaFrame(m, last);
    TrackUnitsSnoc(m, init, last, pid);
  }

  lemma {:induction false} TrackUnits(m: M.State, run: seq<Media>, pid: nat)
    requires ConfigOk(m) && AllMediaOk(m, run)
    ensures Of(UnitsFor(m, run), pid) == UnitsFor(m, TrackOf(run, pid))
    decreases |run|
  {
    hide *;
    if |run| == 0 {
      NoTrack(m, pid);
      assert run == [];
    } else {
      MediaOkFront(m, run);
      TrackUnits(m, run[..|run| - 1], pid);
      TrackUnitsGrow(m, run[..|run| - 1], run[|run| - 1], pid);
      assert run == run[..|run| - 1] + [run[|run| - 1]];
    }
  }

  lemma {:induction false} TrackFrames(m: M.State, track: seq<Media>)
    requires ConfigOk(m) && forall x :: x in track ==> MediaOk(m, x)
    ensures FramesOf(UnitsFor(m, track)) == FramesOfTrack(track)
    decreases |track|
  {
    hide MediaOk, UnitFor, FrameOf, FramesOfUnit, ConfigOk;
    if track != [] {
      var init, last := track[..|track| - 1], track[|track| - 1];
      assert last in track && forall x :: x in init ==> x in track;
      TrackFrames(m, init);
      MediaFrame(m, last);
      assert UnitsFor(m, track)[..|track| - 1] == UnitsFor(m, init);
      assert FramesOfTrack(track) == FramesOfTrack(init) + [FrameOf(last)];
    }
  }

  lemma TrackStamps(m: M.State, track: seq<Media>)
    requires ConfigOk(m) && ClocksOk(track) && forall x :: x in track ==> MediaOk(m, x)
    ensures StampsOk(UnitsFor(m, track))
  {
    hide MediaOk, UnitFor, PtsOf, Pts90, Dts90, ConfigOk, Tellable;
    var units := UnitsFor(m, track);
    forall i | 0 <= i < |track| ensures Pts90(units[i]) == PtsOf(track[i]) && Dts90(units[i]) == track[i].ts * 90 {
      assert track[i] in track;
      MediaFrame(m, track[i]);
    }
  }

  // ----- whole runs -----

  /** Every output slot was declared, and its media fit. */
  ghost predicate MediaRunOk(decl: seq<M.Tag>, run: seq<Media>)
  {
    && (forall t :: t in decl ==> Declares(t))
    && ConfigOk(After(decl))
    && (forall x :: x in run ==> MediaOk(After(decl), x))
    && (forall pid :: ClocksOk(TrackOf(run, pid)))
  }

  lemma MediaCarried(allVideo: bool, m: M.State, x: Media)
    requires MediaOk(m, x) && ConfigOk(m)
    ensures Carries(ProgramFor(allVideo, m.known), UnitFor(m, x))
  {
    MediaFrame(m, x);
    ProgramPids(allVideo, m.known, x);
    hide UnitOk, MediaOk, ConfigOk, ProgramFor;
  }

  lemma ProgramPids(allVideo: bool, known: set<nat>, x: Media)
    requires x.Sound? ==> x.slot in known && x.slot < Flv.MAX_AUDIO_SLOTS
    ensures var p := ProgramFor(allVideo, known);
            KnownStream(p, PidOfMedia(x)) && (x.Picture? <==> PidOfMedia(x) in p.videoRole)
  {
    hide M.SlotsFrom;
    SlotsInRange(known, 0);
    if x.Sound? {
      var slots := M.SlotsFrom(known, 0);
      var k :| 0 <= k < |slots| && slots[k] == x.slot;
      assert AudioPids(slots)[k] == PID_AUDIO_BASE + x.slot;
    }
  }

  lemma MediaRunIsRun(allVideo: bool, decl: seq<M.Tag>, run: seq<Media>)
    requires MediaRunOk(decl, run)
    ensures RunOk(allVideo, decl, TagsOf(run))
    ensures Units(After(decl), TagsOf(run)) == UnitsFor(After(decl), run)
  {
    var m := After(decl);
    hide MediaOk, UnitFor, ConfigOk, ProgramFor, Carries, NoNewSlot, TagOf, Declares, After, Units, Of, TrackOf, StampsOk,
      ClocksOk;
    RunUnits(m, run);
    forall t | t in TagsOf(run) ensures NoNewSlot(m.known, t) {
      var i :| 0 <= i < |run| && TagsOf(run)[i] == t;
      assert run[i] in run;
      TagUnit(m, run[i]);
    }
    forall u | u in UnitsFor(m, run) ensures Carries(ProgramFor(allVideo, m.known), u) {
      var i :| 0 <= i < |run| && UnitsFor(m, run)[i] == u;
      assert run[i] in run;
      MediaCarried(allVideo, m, run[i]);
    }
    forall pid ensures StampsOk(Of(UnitsFor(m, run), pid)) {
      TrackUnits(m, run, pid);
      TrackFromRun(run, pid);
      assert ClocksOk(TrackOf(run, pid));
      TrackStamps(m, TrackOf(run, pid));
    }
  }

  /** Writing a run of media and demultiplexing the stream, cut anywhere, returns every track's payloads in
      order, all timestamps shifted by one constant. */
  lemma MediaRoundTrip(allVideo: bool, decl: seq<M.Tag>, run: seq<Media>, pieces: seq<bytes>)
    requires MediaRunOk(decl, run)
    requires Concat(pieces) == Concat(M.TagSteps(M.FRESH, decl + TagsOf(run)).1)
    ensures var d := Flush(FeedAllPieces(Fresh(allVideo), pieces));
            var p := ProgramFor(allVideo, After(decl).known);
            && d.buf == [] && d.core.pes == map[] && !d.core.es.crashed && d.core.gaps == 0
            && forall pid :: KnownStream(p, pid) ==>
                 && MediaOf(d.core.es.out, RoleOf(p, pid)) == Shifted(FramesOfTrack(TrackOf(run, pid)), Origin(d.core.es))
                 && Announced(d.core.es, pid, RoleOf(p, pid), UnitsFor(After(decl), TrackOf(run, pid)))
  {
    var m := After(decl);
    hide *;
    MediaRunIsRun(allVideo, decl, run);
    MuxDemuxRoundTrip(allVideo, decl, TagsOf(run), pieces);
    var d := Flush(FeedAllPieces(Fresh(allVideo), pieces));
    var p := ProgramFor(allVideo, m.known);
    forall pid | KnownStream(p, pid)
      ensures MediaOf(d.core.es.out, RoleOf(p, pid)) == Shifted(FramesOfTrack(TrackOf(run, pid)), Origin(d.core.es))
      ensures Announced(d.core.es, pid, RoleOf(p, pid), UnitsFor(After(decl), TrackOf(run, pid)))
    {
      TrackIsReturned(decl, run, pid);
    }
  }

  lemma TrackIsReturned(decl: seq<M.Tag>, run: seq<Media>, pid: nat)
    requires MediaRunOk(decl, run)
    ensures FramesOf(Of(UnitsFor(After(decl), run), pid)) == FramesOfTrack(TrackOf(run, pid))
    ensures Of(UnitsFor(After(decl), run), pid) == UnitsFor(After(decl), TrackOf(run, pid))
  {
    hide MediaOk, ConfigOk, Declares, After, ClocksOk;
    TrackUnits(After(decl), run, pid);
    TrackFromRun(run, pid);
    TrackFrames(After(decl), TrackOf(run, pid));
  }

  /** Every medium has its stream: the round trip loses none. */
  lemma EveryMediumHasStream(allVideo: bool, decl: seq<M.Tag>, run: seq<Media>, x: Media)
    requires MediaRunOk(decl, run) && x in run
    ensures KnownStream(ProgramFor(allVideo, After(decl).known), PidOfMedia(x))
    ensures FrameOf(x) in FramesOfTrack(TrackOf(run, PidOfMedia(x)))
  {
    assert MediaOk(After(decl), x);
    ProgramPids(allVideo, After(decl).known, x);
    hide *;
    InTrack(run, x);
    var track := TrackOf(run, PidOfMedia(x));
    var i :| 0 <= i < |track| && track[i] == x;
    FrameAtIndex(track, i);
  }

  lemma FrameAtIndex(track: seq<Media>, i: nat)
    requires i < |track|
    ensures FrameOf(track[i]) in FramesOfTrack(track)
  {
    assert FramesOfTrack(track)[i] == FrameOf(track[i]);
  }

  lemma {:induction false} InTrack(run: seq<Media>, x: Media)
    requires x in run
    ensures x in TrackOf(run, PidOfMedia(x))
    decreases |run|
  {
    if run[|run| - 1] != x {
      assert x in run[..|run| - 1];
      InTrack(run[..|run| - 1], x);
    }
  }
}
