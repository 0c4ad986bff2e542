// The round trip and the written stream told by the tags a caller writes: its codec headers, pictures and AAC frames.
module TsResult {
  import opened Bytes
  import opened AnnexB
  import opened TsClock
  import opened TsPackets
  import opened TsDemux
  import opened TsAnnounce
  import opened TsStreams
  import opened TsTransport
  import opened TsRoundTrip
  import opened TsMedia
  import W = TsWriting
  import M = TsMux
  import Flv

  // ----- what fits, by the declarations -----

  /** Parameter sets a picture can be led by. */
  ghost predicate SetsFit(decl: seq<M.Tag>)
  {
    && (W.LastSps(decl) != [] ==> Clean(W.LastSps(decl)) && NalType(W.LastSps(decl)) == 7 && |W.LastSps(decl)| >= 4)
    && (W.LastPps(decl) != [] ==> Clean(W.LastPps(decl)) && NalType(W.LastPps(decl)) == 8)
  }

  ghost predicate MediaFits(decl: seq<M.Tag>, x: Media)
  {
    match x
    case Picture(_, cts, nals) =>
      && cts < 0x100_0000 && nals != []
      && forall n :: n in nals ==> IsSlice(n) && Clean(n) && |n| < 0x1_0000_0000
    case Sound(slot, _, raw) => slot < Flv.MAX_AUDIO_SLOTS && W.LastConfig(decl, slot).Some? && |raw| <= ADTS_MAX_FRAME
  }

  /** Codec headers first, then media of declared codecs, with clocks that can be told apart. */
  ghost predicate RunFits(decl: seq<M.Tag>, run: seq<Media>)
  {
    && (forall t :: t in decl ==> Declares(t))
    && SetsFit(decl)
    && (forall x :: x in run ==> MediaFits(decl, x))
    && (forall pid :: ClocksOk(TrackOf(run, pid)))
  }

  /** What an ADTS header says of a configuration. */
  function Carried(cfg: (nat, nat, nat)): (nat, nat, nat)
  {
    (if cfg.0 == 0 then 1 else (cfg.0 - 1) % 4 + 1, cfg.1 % 16, cfg.2 % 8)
  }

  function CodedOf(x: Media): Item
  {
    match x
    case Picture(_, _, nals) => Coded(if HasIdr(nals) then 0x17 else 0x27, Packed(nals))
    case Sound(_, _, raw) => Coded(0xAF, raw)
  }

  predicate HasSets(decl: seq<M.Tag>)
  {
    W.LastSps(decl) != [] && W.LastPps(decl) != []
  }

  predicate IsIdr(x: Media)
  {
    x.Picture? && HasIdr(x.nals)
  }

  /** The first medium of a track that can tell its codec: the first IDR picture, the first frame. */
  predicate Tells(decl: seq<M.Tag>, before: seq<Media>, x: Media)
  {
    match x
    case Picture(_, _, _) => HasSets(decl) && IsIdr(x) && forall y :: y in before ==> !IsIdr(y)
    case Sound(slot, _, _) => W.LastConfig(decl, slot).Some? && before == []
  }

  function CodecHeader(decl: seq<M.Tag>, x: Media): Item
    requires x.Sound? ==> W.LastConfig(decl, x.slot).Some?
  {
    match x
    case Picture(_, _, _) => Header(AvcPayload((W.LastSps(decl), W.LastPps(decl))))
    case Sound(slot, _, _) => Header(AscPayload(Carried(W.LastConfig(decl, slot).value)))
  }

  /** What comes out of a track: all its media, and before the first that tells its codec the header of what was
      declared last. */
  function TrackItems(decl: seq<M.Tag>, track: seq<Media>): seq<Item>
  {
    if track == [] then []
    else
      var before, x := track[..|track| - 1], track[|track| - 1];
      TrackItems(decl, before) + (if Tells(decl, before, x) then [CodecHeader(decl, x)] else []) + [CodedOf(x)]
  }

  // ----- the declarations and the multiplexer's state -----

  lemma {:induction false} ConfiguredIsSlot(tags: seq<M.Tag>, slot: nat)
    ensures W.LastConfig(tags, slot).Some? ==> slot in W.Slots(tags)
    decreases |tags|
  {
    if tags != [] {
      hide W.LastConfig, W.Slots, W.SlotIn, Flv.IsAacSeqHeader, ParseAsc;
      var init, last := tags[..|tags| - 1], tags[|tags| - 1];
      assert tags == init + [last];
      ConfiguredIsSlot(init, slot);
      W.LastsSnoc(init, last);
    } else {
      assert W.LastConfig(tags, slot).None?;
    }
  }

  lemma ToldConfig(m: M.State, tags: seq<M.Tag>, slot: nat)
    requires W.Told(m, tags)
    ensures W.LastConfig(tags, slot) == if slot in m.audioCfg then Some(m.audioCfg[slot]) else None
    ensures m.sps == W.LastSps(tags) && m.pps == W.LastPps(tags) && m.known == W.Slots(tags)
  {
    hide W.LastSps, W.LastPps, W.LastConfig, W.Slots, W.LastTables, M.CcOf;
  }

  lemma FitIsOk(decl: seq<M.Tag>, x: Media)
    requires MediaFits(decl, x) && SetsFit(decl)
    ensures MediaOk(After(decl), x) && ConfigOk(After(decl))
  {
    hide W.LastSps, W.LastPps, W.LastConfig, W.Slots, After, W.Told, Clean, IsSlice;
    W.StateIsTold(decl);
    var slot: nat := if x.Sound? then x.slot else 0;
    ToldConfig(After(decl), decl, slot);
    ConfiguredIsSlot(decl, slot);
  }

  lemma SetsFitOk(decl: seq<M.Tag>)
    requires SetsFit(decl)
    ensures ConfigOk(After(decl)) && After(decl).sps == W.LastSps(decl) && After(decl).pps == W.LastPps(decl)
    ensures After(decl).known == W.Slots(decl)
  {
    hide W.LastSps, W.LastPps, W.LastConfig, W.Slots, After, W.Told, Clean;
    W.StateIsTold(decl);
    ToldConfig(After(decl), decl, 0);
  }

  lemma RunIsOk(decl: seq<M.Tag>, run: seq<Media>)
    requires RunFits(decl, run)
    ensures MediaRunOk(decl, run)
  {
    hide W.LastSps, W.LastPps, W.LastConfig, After, MediaFits, MediaOk, SetsFit, ConfigOk, ClocksOk, Declares;
    SetsFitOk(decl);
    forall x | x in run ensures MediaOk(After(decl), x) {
      FitIsOk(decl, x);
    }
  }

  // ----- one picture -----

  lemma SliceSnoc(nals: seq<bytes>, nal: bytes)
    requires IsSlice(nal)
    ensures Slices(nals + [nal]) == Slices(nals) + [nal]
    ensures LastOf(nals + [nal], 7) == LastOf(nals, 7) && LastOf(nals + [nal], 8) == LastOf(nals, 8)
  {
    assert (nals + [nal])[..|nals|] == nals;
  }

  lemma {:induction false} AllSlices(lead: seq<bytes>, nals: seq<bytes>)
    requires (forall n :: n in nals ==> IsSlice(n)) && Slices(lead) == []
    ensures Slices(lead + nals) == nals
    ensures LastOf(lead + nals, 7) == LastOf(lead, 7) && LastOf(lead + nals, 8) == LastOf(lead, 8)
    decreases |nals|
  {
    hide Slices, LastOf, IsSlice;
    if nals == [] {
      assert lead + nals == lead;
    } else {
      var init, last := nals[..|nals| - 1], nals[|nals| - 1];
      assert last in nals && forall n :: n in init ==> n in nals;
      AllSlices(lead, init);
      SliceSnoc(lead + init, last);
      assert lead + nals == (lead + init) + [last];
    }
  }

  lemma IdrIn(lead: seq<bytes>, nals: seq<bytes>)
    requires !HasIdr(lead)
    ensures HasIdr(lead + nals) <==> HasIdr(nals)
  {
    assert forall n :: n in lead + nals <==> n in lead || n in nals;
  }

  lemma LeadIs(sps: bytes, pps: bytes)
    requires sps != [] && pps != [] && NalType(sps) == 7 && NalType(pps) == 8
    ensures Slices([sps, pps]) == [] && !HasIdr([sps, pps]) && LastOf([sps, pps], 7) == sps && LastOf([sps, pps], 8) == pps
  {
    assert [sps, pps][..1] == [sps] && [sps][..0] == [];
    assert Slices([sps]) == [] && LastOf([sps], 7) == sps;
  }

  /** The access unit a picture is sent as. */
  function Access(decl: seq<M.Tag>, x: Media): bytes
    requires x.Picture?
  {
    Annexed((if HasIdr(x.nals) && HasSets(decl) then [W.LastSps(decl), W.LastPps(decl)] else []) + x.nals)
  }

  lemma AccessIs(decl: seq<M.Tag>, x: Media)
    requires x.Picture? && MediaFits(decl, x) && SetsFit(decl)
    ensures EsOf(UnitFor(After(decl), x)) == Access(decl, x)
    ensures Pair(Access(decl, x)) == if HasIdr(x.nals) && HasSets(decl) then Some((W.LastSps(decl), W.LastPps(decl))) else None
    ensures Slices(NalUnits(Access(decl, x))) == x.nals && (HasIdr(NalUnits(Access(decl, x))) <==> HasIdr(x.nals))
  {
    hide W.LastSps, W.LastPps, After, NalUnits, Annexed, Slices, HasIdr, LastOf, IsSlice;
    SetsFitOk(decl);
    var lead := if HasIdr(x.nals) && HasSets(decl) then [W.LastSps(decl), W.LastPps(decl)] else [];
    NoLead();
    if lead != [] {
      LeadIs(W.LastSps(decl), W.LastPps(decl));
    }
    AllSlices(lead, x.nals);
    IdrIn(lead, x.nals);
    NalUnitsInvertAnnexed(lead + x.nals);
  }

  lemma NoLead()
    ensures Slices([]) == [] && !HasIdr([]) && LastOf([], 7) == [] && LastOf([], 8) == []
  {
  }

  function AccessAll(decl: seq<M.Tag>, track: seq<Media>): (r: seq<bytes>)
    requires forall x :: x in track ==> x.Picture?
    ensures |r| == |track|
  {
    seq(|track|, i requires 0 <= i < |track| => (assert track[i] in track; Access(decl, track[i])))
  }

  ghost predicate PicturesFit(decl: seq<M.Tag>, track: seq<Media>)
  {
    forall x :: x in track ==> x.Picture? && MediaFits(decl, x)
  }

  lemma PicturesFront(decl: seq<M.Tag>, track: seq<Media>)
    requires PicturesFit(decl, track) && track != []
    ensures PicturesFit(decl, track[..|track| - 1])
    ensures track[|track| - 1].Picture? && MediaFits(decl, track[|track| - 1])
  {
    hide MediaFits;
    assert track[|track| - 1] in track;
  }

  lemma ArePictures(decl: seq<M.Tag>, track: seq<Media>)
    requires PicturesFit(decl, track)
    ensures forall x :: x in track ==> x.Picture? && MediaFits(decl, x)
  {
    hide MediaFits;
  }

  lemma AccessSnoc(decl: seq<M.Tag>, track: seq<Media>)
    requires track != [] && forall x :: x in track ==> x.Picture?
    ensures var init, last := track[..|track| - 1], track[|track| - 1];
            && last.Picture? && (forall x :: x in init ==> x.Picture?)
            && AccessAll(decl, track) == AccessAll(decl, init) + [Access(decl, last)]
  {
    hide Access;
    assert track[|track| - 1] in track;
  }

  predicate AnyIdr(track: seq<Media>)
  {
    exists x :: x in track && IsIdr(x)
  }

  lemma AnySnoc(track: seq<Media>)
    ensures !AnyIdr([])
    ensures track != [] ==> (AnyIdr(track) <==> AnyIdr(track[..|track| - 1]) || IsIdr(track[|track| - 1]))
  {
    hide IsIdr;
    if track != [] {
      assert forall x :: x in track <==> x in track[..|track| - 1] || x == track[|track| - 1];
    }
  }

  lemma NoSets(decl: seq<M.Tag>)
    ensures LastPair(AccessAll(decl, [])) == None
  {
  }

  lemma {:induction false} SetsSoFar(decl: seq<M.Tag>, track: seq<Media>)
    requires SetsFit(decl) && forall x :: x in track ==> x.Picture?
    requires PicturesFit(decl, track)
    ensures LastPair(AccessAll(decl, track))
            == if HasSets(decl) && AnyIdr(track) then Some((W.LastSps(decl), W.LastPps(decl))) else None
    decreases |track|
  {
    hide *;
    AnySnoc(track);
    if |track| == 0 {
      NoSets(decl);
      assert track == [];
    } else {
      var init, last := track[..|track| - 1], track[|track| - 1];
      PicturesFront(decl, track);
      AccessSnoc(decl, track);
      SetsSoFar(decl, init);
      AccessIs(decl, last);
      IdrNals(last);
      PairSnoc(AccessAll(decl, init), Access(decl, last));
    }
  }

  lemma IdrNals(x: Media)
    requires x.Picture?
    ensures IsIdr(x) <==> HasIdr(x.nals)
  {
  }

  lemma NoPictures(decl: seq<M.Tag>)
    ensures VideoItems(AccessAll(decl, [])) == TrackItems(decl, [])
  {
  }

  lemma {:induction false} PicturesComeOut(decl: seq<M.Tag>, track: seq<Media>)
    requires SetsFit(decl) && forall x :: x in track ==> x.Picture?
    requires PicturesFit(decl, track)
    ensures VideoItems(AccessAll(decl, track)) == TrackItems(decl, track)
    decreases |track|
  {
    hide *;
    if |track| == 0 {
      NoPictures(decl);
      assert track == [];
    } else {
      var init, last := track[..|track| - 1], track[|track| - 1];
      PicturesFront(decl, track);
      AccessSnoc(decl, track);
      PicturesComeOut(decl, init);
      SetsSoFar(decl, init);
      PairSnoc(AccessAll(decl, init), Access(decl, last));
      PictureComesOut(decl, init, last, AccessAll(decl, init));
      ItemsAre(decl, track);
      AppendTwo(TrackItems(decl, init), if Tells(decl, init, last) then [CodecHeader(decl, last)] else [], [CodedOf(last)]);
    }
  }

  lemma AppendTwo(a: seq<Item>, b: seq<Item>, c: seq<Item>)
    ensures a + (b + c) == a + b + c
  {
  }

  lemma ItemsAre(decl: seq<M.Tag>, track: seq<Media>)
    requires track != []
    ensures var before, x := track[..|track| - 1], track[|track| - 1];
            TrackItems(decl, track)
            == TrackItems(decl, before) + (if Tells(decl, before, x) then [CodecHeader(decl, x)] else []) + [CodedOf(x)]
  {
  }

  lemma PictureComesOut(decl: seq<M.Tag>, before: seq<Media>, x: Media, units: seq<bytes>)
    requires SetsFit(decl) && x.Picture? && MediaFits(decl, x)
    requires LastPair(units)
             == if HasSets(decl) && AnyIdr(before) then Some((W.LastSps(decl), W.LastPps(decl))) else None
    ensures FromVideo(units, Access(decl, x)) == (if Tells(decl, before, x) then [CodecHeader(decl, x)] else []) + [CodedOf(x)]
  {
    AccessIs(decl, x);
    hide Access, Pair, LastPair, Slices, HasIdr, Packed, NalUnits, AvcPayload, W.LastSps, W.LastPps;
  }

  // ----- one frame -----

  function AacOf(decl: seq<M.Tag>, x: Media): Aac
    requires x.Sound? && W.LastConfig(decl, x.slot).Some?
  {
    Aac(Carried(W.LastConfig(decl, x.slot).value), x.raw)
  }

  lemma FrameSaid(cfg: (nat, nat, nat), raw: bytes)
    requires |raw| <= ADTS_MAX_FRAME
    ensures FramesIn(W.FrameEs(cfg, raw), 0) == [Aac(Carried(cfg), raw)]
  {
    hide BuildAdts, ParseAdts;
    OnlyFrame(cfg, raw);
    AdtsRoundTrips(cfg.0, cfg.1, cfg.2, raw);
    var es := W.FrameEs(cfg, raw);
    assert FramesIn(es, |es|) == [];
    assert es[7..|es|] == raw;
  }

  ghost predicate SoundsFit(decl: seq<M.Tag>, slot: nat, track: seq<Media>)
  {
    forall x :: x in track ==> x.Sound? && x.slot as nat == slot && MediaFits(decl, x)
  }

  function EsOfSound(decl: seq<M.Tag>, x: Media): bytes
    requires x.Sound? && W.LastConfig(decl, x.slot).Some?
  {
    W.FrameEs(W.LastConfig(decl, x.slot).value, x.raw)
  }

  lemma SoundIs(decl: seq<M.Tag>, x: Media)
    requires x.Sound? && MediaFits(decl, x)
    ensures EsOf(UnitFor(After(decl), x)) == EsOfSound(decl, x)
    ensures FramesIn(EsOfSound(decl, x), 0) == [AacOf(decl, x)]
  {
    hide W.LastConfig, After, BuildAdts, FramesIn, W.Told;
    W.StateIsTold(decl);
    ToldConfig(After(decl), decl, x.slot);
    FrameSaid(W.LastConfig(decl, x.slot).value, x.raw);
  }

  function SoundsAll(decl: seq<M.Tag>, track: seq<Media>): (r: seq<bytes>)
    requires forall x :: x in track ==> x.Sound? && W.LastConfig(decl, x.slot).Some?
    ensures |r| == |track|
  {
    seq(|track|, i requires 0 <= i < |track| => (assert track[i] in track; EsOfSound(decl, track[i])))
  }

  function AacAll(decl: seq<M.Tag>, track: seq<Media>): (r: seq<Aac>)
    requires forall x :: x in track ==> x.Sound? && W.LastConfig(decl, x.slot).Some?
    ensures |r| == |track|
  {
    seq(|track|, i requires 0 <= i < |track| => (assert track[i] in track; AacOf(decl, track[i])))
  }

  lemma NoSounds(decl: seq<M.Tag>)
    ensures AllFrames(SoundsAll(decl, [])) == AacAll(decl, [])
  {
  }

  lemma SoundsSnoc(decl: seq<M.Tag>, slot: nat, track: seq<Media>)
    requires SoundsFit(decl, slot, track) && track != []
    ensures var init, last := track[..|track| - 1], track[|track| - 1];
            && SoundsFit(decl, slot, init) && last.Sound? && W.LastConfig(decl, last.slot).Some? && MediaFits(decl, last)
            && SoundsAll(decl, track) == SoundsAll(decl, init) + [EsOfSound(decl, last)]
            && AacAll(decl, track) == AacAll(decl, init) + [AacOf(decl, last)]
  {
    hide AacOf, EsOfSound, W.LastConfig;
    assert track[|track| - 1] in track;
  }

  lemma {:induction false} FramesSaid(decl: seq<M.Tag>, slot: nat, track: seq<Media>)
    requires (forall x :: x in track ==> x.Sound? && W.LastConfig(decl, x.slot).Some?)
    requires SoundsFit(decl, slot, track)
    ensures AllFrames(SoundsAll(decl, track)) == AacAll(decl, track)
    decreases |track|
  {
    hide *;
    if |track| == 0 {
      NoSounds(decl);
      assert track == [];
    } else {
      var init, last := track[..|track| - 1], track[|track| - 1];
      SoundsSnoc(decl, slot, track);
      FramesSaid(decl, slot, init);
      SoundIs(decl, last);
      AllFramesSnoc(SoundsAll(decl, init), EsOfSound(decl, last));
    }
  }

  lemma {:induction false} FramesComeOut(decl: seq<M.Tag>, slot: nat, track: seq<Media>)
    requires SoundsFit(decl, slot, track)
    ensures AudioItems(AacAll(decl, track)) == TrackItems(decl, track)
    decreases |track|
  {
    hide AscPayload, W.LastConfig, Carried;
    if track != [] {
      hide AudioItems, TrackItems;
      var init, last := track[..|track| - 1], track[|track| - 1];
      assert last in track && forall x :: x in init ==> x in track;
      FramesComeOut(decl, slot, init);
      assert AacAll(decl, track) == AacAll(decl, init) + [AacOf(decl, last)];
      AudioSnoc(AacAll(decl, init), AacOf(decl, last));
      if init != [] {
        assert init[|init| - 1] in init;
      }
      ItemsAre(decl, track);
    }
  }

  // ----- one track -----

  lemma {:induction false} TrackIsOne(run: seq<Media>, pid: nat)
    ensures forall x :: x in TrackOf(run, pid) ==> PidOfMedia(x) == pid
    decreases |run|
  {
    hide PidOfMedia;
    if run != [] {
      TrackIsOne(run[..|run| - 1], pid);
    }
  }

  lemma OneKind(x: Media, pid: nat)
    requires PidOfMedia(x) == pid && (x.Sound? ==> x.slot < Flv.MAX_AUDIO_SLOTS)
    ensures if pid == PID_VIDEO then x.Picture? else x.Sound? && x.slot as nat == pid - PID_AUDIO_BASE
  {
  }

  lemma PicturesTold(decl: seq<M.Tag>, track: seq<Media>)
    requires SetsFit(decl) && PicturesFit(decl, track)
    ensures VideoItems(EsAll(UnitsFor(After(decl), track))) == TrackItems(decl, track)
  {
    hide VideoItems, TrackItems, UnitFor, EsOf, Access, After, MediaFits, SetsFit;
    forall i | 0 <= i < |track| ensures EsOf(UnitFor(After(decl), track[i])) == Access(decl, track[i]) {
      assert track[i] in track;
      AccessIs(decl, track[i]);
    }
    ArePictures(decl, track);
    assert EsAll(UnitsFor(After(decl), track)) == AccessAll(decl, track);
    PicturesComeOut(decl, track);
  }

  lemma SoundsTold(decl: seq<M.Tag>, slot: nat, track: seq<Media>)
    requires SoundsFit(decl, slot, track)
    ensures AudioItems(AllFrames(EsAll(UnitsFor(After(decl), track)))) == TrackItems(decl, track)
  {
    hide AudioItems, AllFrames, TrackItems, UnitFor, EsOf, EsOfSound, After, W.LastConfig;
    forall i | 0 <= i < |track| ensures EsOf(UnitFor(After(decl), track[i])) == EsOfSound(decl, track[i]) {
      assert track[i] in track;
      SoundIs(decl, track[i]);
    }
    assert EsAll(UnitsFor(After(decl), track)) == SoundsAll(decl, track);
    FramesSaid(decl, slot, track);
    FramesComeOut(decl, slot, track);
  }

  lemma KindOfUnit(m: M.State, track: seq<Media>)
    requires track != []
    ensures var units := UnitsFor(m, track);
            |units| == |track| && (units[|units| - 1].VideoUnit? <==> track[|track| - 1].Picture?)
  {
  }

  lemma PicturesAnnounced(es: Streams, pid: nat, role: Role, m: M.State, track: seq<Media>)
    requires Announced(es, pid, role, UnitsFor(m, track)) && track != [] && track[|track| - 1].Picture?
    ensures ItemsOf(es.out, role) == VideoItems(EsAll(UnitsFor(m, track)))
  {
    KindOfUnit(m, track);
    hide UnitsFor, ItemsOf, EsAll, VideoItems, StoredPair;
  }

  lemma SoundsAnnounced(es: Streams, pid: nat, role: Role, m: M.State, track: seq<Media>)
    requires Announced(es, pid, role, UnitsFor(m, track)) && track != [] && track[|track| - 1].Sound?
    ensures ItemsOf(es.out, role) == AudioItems(AllFrames(EsAll(UnitsFor(m, track))))
  {
    KindOfUnit(m, track);
    hide UnitsFor, ItemsOf, EsAll, AllFrames, AudioItems, StoredConfig;
  }

  lemma NothingAnnounced(es: Streams, pid: nat, role: Role, decl: seq<M.Tag>)
    requires Announced(es, pid, role, UnitsFor(After(decl), []))
    ensures ItemsOf(es.out, role) == [] == TrackItems(decl, [])
  {
    hide After, ItemsOf, UnitFor, StoredPair, AudioTold;
    assert UnitsFor(After(decl), []) == [];
  }

  lemma FitRun(decl: seq<M.Tag>, run: seq<Media>, pid: nat)
    requires RunFits(decl, run)
    ensures pid == PID_VIDEO ==> PicturesFit(decl, TrackOf(run, pid))
    ensures forall slot: nat :: pid == PID_AUDIO_BASE + slot && pid != PID_VIDEO ==> SoundsFit(decl, slot, TrackOf(run, pid))
    ensures pid != PID_VIDEO && TrackOf(run, pid) != [] ==> pid >= PID_AUDIO_BASE
    ensures SetsFit(decl)
  {
    hide ClocksOk, SetsFit, Declares, TrackOf, PidOfMedia;
    var track := TrackOf(run, pid);
    TrackIsOne(run, pid);
    TrackFromRun(run, pid);
    forall x | x in track ensures MediaFits(decl, x) && if pid == PID_VIDEO then x.Picture? else x.Sound? && x.slot as nat == pid - PID_AUDIO_BASE {
      assert x in run;
      OneKind(x, pid);
    }
    hide MediaFits;
    if track != [] {
      assert track[0] in track;
    }
  }

  lemma LastFits(decl: seq<M.Tag>, slot: nat, track: seq<Media>)
    requires track != []
    ensures PicturesFit(decl, track) ==> track[|track| - 1].Picture?
    ensures SoundsFit(decl, slot, track) ==> track[|track| - 1].Sound?
  {
    hide MediaFits;
    assert track[|track| - 1] in track;
  }

  lemma TrackComesOut(es: Streams, pid: nat, role: Role, decl: seq<M.Tag>, run: seq<Media>)
    requires RunFits(decl, run) && Announced(es, pid, role, UnitsFor(After(decl), TrackOf(run, pid)))
    ensures ItemsOf(es.out, role) == TrackItems(decl, TrackOf(run, pid))
  {
    var track := TrackOf(run, pid);
    FitRun(decl, run, pid);
    hide UnitsFor, ItemsOf, After, VideoItems, AudioItems, AllFrames, Announced, RunFits, SetsFit, EsAll, TrackOf, TrackItems, SoundsFit,
      PicturesFit;
    if track == [] {
      NothingAnnounced(es, pid, role, decl);
    } else if pid == PID_VIDEO {
      LastFits(decl, 0, track);
      PicturesAnnounced(es, pid, role, After(decl), track);
      PicturesTold(decl, track);
    } else {
      LastFits(decl, pid - PID_AUDIO_BASE, track);
      SoundsAnnounced(es, pid, role, After(decl), track);
      SoundsTold(decl, pid - PID_AUDIO_BASE, track);
    }
  }

  // ----- whole runs -----

  /** Declare codecs, write pictures and frames, demultiplex the stream, cut anywhere: no gap is counted and nothing is
      left over; and on the stream of every PID the pictures and frames come out in order, payload for payload, their
      times shifted by one constant, with the declared codec header before the first IDR picture or the first frame, and
      nothing else. */
  lemma StreamIsReturned(allVideo: bool, decl: seq<M.Tag>, run: seq<Media>, pieces: seq<bytes>)
    requires RunFits(decl, run)
    requires Concat(pieces) == Concat(M.TagSteps(M.FRESH, decl + TagsOf(run)).1)
    ensures var d := Flush(FeedAllPieces(Fresh(allVideo), pieces));
            var p := ProgramFor(allVideo, W.Slots(decl));
            && d.buf == [] && d.core.pes == map[] && !d.core.es.crashed && d.core.gaps == 0
            && forall pid :: KnownStream(p, pid) ==>
                 && MediaOf(d.core.es.out, RoleOf(p, pid)) == Shifted(FramesOfTrack(TrackOf(run, pid)), Origin(d.core.es))
                 && ItemsOf(d.core.es.out, RoleOf(p, pid)) == TrackItems(decl, TrackOf(run, pid))
  {
    hide *;
    RunIsOk(decl, run);
    MediaRoundTrip(allVideo, decl, run, pieces);
    FitSlots(decl, run);
    var d := Flush(FeedAllPieces(Fresh(allVideo), pieces));
    var p := ProgramFor(allVideo, W.Slots(decl));
    forall pid | KnownStream(p, pid)
      ensures ItemsOf(d.core.es.out, RoleOf(p, pid)) == TrackItems(decl, TrackOf(run, pid))
    {
      TrackComesOut(d.core.es, pid, RoleOf(p, pid), decl, run);
    }
  }

  lemma FitSlots(decl: seq<M.Tag>, run: seq<Media>)
    requires RunFits(decl, run)
    ensures After(decl).known == W.Slots(decl)
  {
    hide SetsFit, MediaFits, ClocksOk, Declares, After;
    SetsFitOk(decl);
  }

  /** Every medium has its stream, so none is lost. */
  lemma NoneIsLost(allVideo: bool, decl: seq<M.Tag>, run: seq<Media>, x: Media)
    requires RunFits(decl, run) && x in run
    ensures KnownStream(ProgramFor(allVideo, W.Slots(decl)), PidOfMedia(x))
    ensures FrameOf(x) in FramesOfTrack(TrackOf(run, PidOfMedia(x)))
  {
    hide *;
    RunIsOk(decl, run);
    FitSlots(decl, run);
    EveryMediumHasStream(allVideo, decl, run, x);
  }

  // ----- a keyframe after a codec header -----

  /** After an AVC codec header with parameter sets sps and pps, whatever was written before it and, short of another
      such header, since: a picture with an IDR slice is written as one PES whose NAL units are exactly sps, pps and its
      slices, at its own times. */
  lemma KeyframeIsLed(before: seq<M.Tag>, header: M.Tag, between: seq<M.Tag>, x: Media, sps: bytes, pps: bytes)
    requires W.SetsIn(header) == Some((sps, pps)) && Clean(sps) && Clean(pps) && forall t :: t in between ==> W.SetsIn(t).None?
    requires IsIdr(x) && x.cts < 0x100_0000 && forall n :: n in x.nals ==> Clean(n) && |n| < 0x1_0000_0000
    ensures var earlier := before + [header] + between;
            var packets := W.Written(earlier, TagOf(x));
            var n := if W.BeginsWithTables(packets) then 2 else 0;
            && n <= |packets| && W.CarryPes(packets[n..], PID_VIDEO, W.PicturePes(earlier, TagOf(x)))
            && ParsePes(W.PicturePes(earlier, TagOf(x)))
               == Some(Pes(Annexed([sps, pps] + x.nals), (x.ts + x.cts) * 90 % TWO_TO_33, x.ts * 90 % TWO_TO_33))
            && NalUnits(Annexed([sps, pps] + x.nals)) == [sps, pps] + x.nals
  {
    hide *;
    var earlier, tag := before + [header] + between, TagOf(x);
    CleanNotEmpty(sps);
    CleanNotEmpty(pps);
    W.SetsStay(before, header, between, sps, pps);
    IdrIsPicture(x);
    LedUnits(earlier, x, sps, pps);
    PictureTag(x);
    W.PictureIsWritten(earlier, tag);
    W.PictureParses(earlier, tag);
    LedClean(x, sps, pps);
    SentCarries(W.Written(earlier, tag), W.PicturePes(earlier, tag), Some(tag.ts * 90),
                W.Outdated(earlier, W.Slots(earlier)) || W.Overdue(earlier, tag.ts), W.Slots(earlier));
  }

  lemma IdrIsPicture(x: Media)
    ensures IsIdr(x) ==> x.Picture?
  {
  }

  lemma PictureTag(x: Media)
    requires x.Picture? && x.cts < 0x100_0000
    ensures var t := TagOf(x);
            && t.tagType == Flv.TAG_VIDEO && t.ts == x.ts && |t.payload| >= 5 && !Flv.IsAvcSeqHeader(t.payload) && M.CtsOf(t.payload) == x.cts
  {
    hide HasIdr, Packed, FlvVideoFrame, M.CtsOf, Flv.IsAvcSeqHeader;
    PictureBytes(HasIdr(x.nals), x.cts, Packed(x.nals));
  }

  lemma LedUnits(earlier: seq<M.Tag>, x: Media, sps: bytes, pps: bytes)
    requires W.LastSps(earlier) == sps != [] && W.LastPps(earlier) == pps != []
    requires IsIdr(x) && x.cts < 0x100_0000 && forall n :: n in x.nals ==> |n| < 0x1_0000_0000
    ensures |TagOf(x).payload| >= 5 && W.PictureUnits(earlier, TagOf(x)) == [sps, pps] + x.nals
  {
    hide HasIdr, Packed, FlvVideoFrame, M.CtsOf, M.IsKey, W.LastSps, W.LastPps, Unpacked;
    PictureBytes(HasIdr(x.nals), x.cts, Packed(x.nals));
    UnpackedInvertsPacked(x.nals);
  }

  lemma LedClean(x: Media, sps: bytes, pps: bytes)
    requires x.Picture? && Clean(sps) && Clean(pps) && forall n :: n in x.nals ==> Clean(n)
    ensures AllClean([sps, pps] + x.nals) && [sps, pps] + x.nals != []
  {
    hide Clean;
  }

  lemma SentCarries(packets: seq<bytes>, pes: bytes, pcr: Option<int>, tables: bool, slots: set<nat>)
    requires W.SentAs(packets, W.Sent(PID_VIDEO, pes, pcr, tables), slots) && (W.BeginsWithTables(packets) <==> tables)
    ensures var n := if W.BeginsWithTables(packets) then 2 else 0; n <= |packets| && W.CarryPes(packets[n..], PID_VIDEO, pes)
  {
    hide W.CarryPes, W.ClockFirst, W.TellProgram, W.BeginsWithTables;
  }
}
