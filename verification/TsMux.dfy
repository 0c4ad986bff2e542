// The transport stream multiplexer: FLV tags in, 188-octet packets out.
module TsMux {
  import opened Bytes
  import opened TsPackets
  import opened AnnexB
  import Flv

  const PSI_INTERVAL_MS := 100

  datatype Tag = Tag(tagType: byte, ts: int, payload: bytes)

  datatype State = State(cc: map<nat, nat>, sps: bytes, pps: bytes, audioCfg: map<nat, (nat, nat, nat)>,
                         known: set<nat>, pmtVersion: nat, pmtDirty: bool, lastPmt: Option<int>, pmtSection: Option<bytes>)

  const FRESH := State(map[], [], [], map[], {}, 0, true, None, None)

  ghost predicate Valid(m: State)
  {
    && (forall pid :: pid in m.cc ==> m.cc[pid] < 16)
    && (forall s :: s in m.known ==> s < Flv.MAX_AUDIO_SLOTS)
    && (m.pmtSection.Some? ==> m.pmtSection == Some(PmtSectionOf(m.known, m.pmtVersion)))
  }

  function CcOf(m: State, pid: nat): nat
  {
    if pid in m.cc then m.cc[pid] else 0
  }

  // ----- program tables -----

  /** The known slots in rising order, from one slot number on. */
  function SlotsFrom(known: set<nat>, from: nat): (r: seq<nat>)
    requires from <= Flv.MAX_AUDIO_SLOTS
    ensures |r| <= Flv.MAX_AUDIO_SLOTS - from
    decreases Flv.MAX_AUDIO_SLOTS - from
  {
    if from == Flv.MAX_AUDIO_SLOTS then []
    else (if from in known then [from] else []) + SlotsFrom(known, from + 1)
  }

  function AudioStreams(slots: seq<nat>): (r: seq<PmtStream>)
    ensures |r| == |slots|
  {
    seq(|slots|, i requires 0 <= i < |slots| => PmtStream(TYPE_AAC_ADTS, PID_AUDIO_BASE + slots[i]))
  }

  function PmtSectionOf(known: set<nat>, version: nat): (r: bytes)
    ensures |r| <= 51
  {
    BuildPmt(PID_VIDEO, [PmtStream(TYPE_H264, PID_VIDEO)] + AudioStreams(SlotsFrom(known, 0)), version)
  }

  function PsiPackets(m: State): seq<bytes>
  {
    [PsiPacket(PID_PAT, BuildPat(PID_PMT), CcOf(m, PID_PAT)), PsiPacket(PID_PMT, PmtSectionOf(m.known, m.pmtVersion), CcOf(m, PID_PMT))]
  }

  function BumpCc(m: State, pid: nat, step: nat): State
  {
    m.(cc := m.cc[pid := (CcOf(m, pid) + step) % 16])
  }

  function PsiStep(m: State, ts: int): (State, seq<bytes>)
  {
    (BumpCc(BumpCc(m, PID_PAT, 1), PID_PMT, 1)
     .(pmtDirty := false, lastPmt := Some(ts), pmtSection := Some(PmtSectionOf(m.known, m.pmtVersion))), PsiPackets(m))
  }

  function PesStep(m: State, pid: nat, pes: bytes, pcr: int, hasPcr: bool): (State, seq<bytes>)
  {
    var packets := PacketsFrom(pid, pes, CcOf(m, pid), true, pcr, hasPcr);
    (BumpCc(m, pid, |packets|), packets)
  }

  // ----- video -----

  function TakeAvcConfig(m: State, config: bytes): State
  {
    var (sps, pps) := ParseAvcConfig(config);
    m.(sps := if |sps| > 0 then sps else m.sps, pps := if |pps| > 0 then pps else m.pps)
  }

  predicate IsKey(payload: bytes)
    requires |payload| >= 1
  {
    payload[0] as int / 16 == 1
  }

  function CtsOf(payload: bytes): nat
    requires |payload| >= 5
  {
    payload[2] as int * 0x1_0000 + payload[3] as int * 256 + payload[4] as int
  }

  /** The NAL units an access unit is sent with: a keyframe is led by the parameter sets. */
  function UnitsOf(m: State, payload: bytes): seq<bytes>
    requires |payload| >= 5
  {
    (if IsKey(payload) && |m.sps| > 0 && |m.pps| > 0 then [m.sps, m.pps] else []) + Unpacked(payload[5..])
  }

  predicate PsiDue(m: State, ts: int)
  {
    m.pmtDirty || m.lastPmt.None? || ts - m.lastPmt.value >= PSI_INTERVAL_MS
  }

  function VideoPes(m: State, ts: int, payload: bytes): bytes
    requires |payload| >= 5
  {
    BuildPes(STREAM_VIDEO, Annexed(UnitsOf(m, payload)), (ts + CtsOf(payload)) * 90, ts * 90, true)
  }

  function VideoStep(m: State, ts: int, payload: bytes): (State, seq<bytes>)
  {
    if |payload| < 5 then (m, [])
    else if Flv.IsAvcSeqHeader(payload) then (TakeAvcConfig(m, payload[5..]), [])
    else if |UnitsOf(m, payload)| == 0 then (m, [])
    else
      var (m1, psi) := if PsiDue(m, ts) then PsiStep(m, ts) else (m, []);
      var (m2, packets) := PesStep(m1, PID_VIDEO, VideoPes(m, ts, payload), ts * 90, true);
      (m2, psi + packets)
  }

  // ----- audio -----

  function RegisterSlot(m: State, slot: nat): State
  {
    if slot in m.known then m
    else m.(known := m.known + {slot}, pmtVersion := (m.pmtVersion + 1) % 32, pmtDirty := true, pmtSection := None)
  }

  /** Output slot and legacy payload of an audio tag. */
  function SlotOf(payload: bytes): (nat, bytes)
  {
    match Flv.UnwrapMultitrackAudio(payload)
    case Some((id, legacy)) => (id, legacy)
    case None => (0, payload)
  }

  function TakeAsc(m: State, slot: nat, asc: bytes): State
  {
    match ParseAsc(asc)
    case None => m
    case Some(cfg) => m.(audioCfg := m.audioCfg[slot := cfg])
  }

  function AudioPes(cfg: (nat, nat, nat), ts: int, raw: bytes): bytes
  {
    BuildPes(STREAM_AUDIO, BuildAdts(cfg.0, cfg.1, cfg.2, |raw|) + raw, ts * 90, 0, false)
  }

  function AudioStep(m: State, ts: int, payload: bytes): (State, seq<bytes>)
  {
    var (slot, raw) := SlotOf(payload);
    if slot >= Flv.MAX_AUDIO_SLOTS || |raw| < 2 then (m, [])
    else if Flv.IsAacSeqHeader(raw) then (RegisterSlot(TakeAsc(m, slot, raw[2..]), slot), [])
    else if slot !in m.audioCfg then (m, [])
    else
      var m0 := RegisterSlot(m, slot);
      var (m1, psi) := if m0.pmtDirty then PsiStep(m0, ts) else (m0, []);
      var (m2, packets) := PesStep(m1, PID_AUDIO_BASE + slot, AudioPes(m.audioCfg[slot], ts, raw[2..]), 0, false);
      (m2, psi + packets)
  }

  function TagStep(m: State, tag: Tag): (State, seq<bytes>)
  {
    if tag.tagType == Flv.TAG_VIDEO then VideoStep(m, tag.ts, tag.payload)
    else if tag.tagType == Flv.TAG_AUDIO then AudioStep(m, tag.ts, tag.payload)
    else (m, [])
  }

  function TagSteps(m: State, tags: seq<Tag>): (State, seq<bytes>)
    decreases |tags|
  {
    if tags == [] then (m, [])
    else
      var (m1, p1) := TagStep(m, tags[0]);
      var (m2, p2) := TagSteps(m1, tags[1..]);
      (m2, p1 + p2)
  }

  // ----- the output object -----

  class MuxOutput {
    var written: bytes
    var cc: map<nat, nat>
    var sps: bytes
    var pps: bytes
    var audioCfg: map<nat, (nat, nat, nat)>
    var knownAudioSlots: set<nat>
    var pmtVersion: nat
    var pmtDirty: bool
    var lastPmtTs: Option<int>
    var pmtSection: Option<bytes>

    ghost function Abs(): State
      reads this
    {
      State(cc, sps, pps, audioCfg, knownAudioSlots, pmtVersion, pmtDirty, lastPmtTs, pmtSection)
    }

    constructor ()
      ensures Abs() == FRESH && written == []
    {
      written := [];
      cc, sps, pps, audioCfg, knownAudioSlots := map[], [], [], map[], {};
      pmtVersion, pmtDirty, lastPmtTs, pmtSection := 0, true, None, None;
    }

    /** A new connection: all state starts over, what was written stays written. */
    method WriteHeader()
      modifies this
      ensures Abs() == FRESH && written == old(written)
    {
      cc, sps, pps, audioCfg, knownAudioSlots := map[], [], [], map[], {};
      pmtVersion, pmtDirty, lastPmtTs, pmtSection := 0, true, None, None;
    }

    method WriteTag(tag: Tag)
      requires Valid(Abs())
      modifies this
      ensures Valid(Abs())
      ensures Abs() == TagStep(old(Abs()), tag).0
      ensures written == old(written) + Concat(TagStep(old(Abs()), tag).1)
    {
      TagStepKeepsValid(Abs(), tag);
      if tag.tagType == Flv.TAG_VIDEO {
        WriteVideo(tag.ts, tag.payload);
      } else if tag.tagType == Flv.TAG_AUDIO {
        WriteAudio(tag.ts, tag.payload);
      }
    }

    method WriteVideo(ts: int, payload: bytes)
      requires Valid(Abs())
      modifies this
      ensures Abs() == VideoStep(old(Abs()), ts, payload).0
      ensures written == old(written) + Concat(VideoStep(old(Abs()), ts, payload).1)
    {
      hide PmtSectionOf, PsiPackets, PacketsFrom, BuildPes, ParseAvcConfig;
      if |payload| < 5 {
        return;
      }
      if Flv.IsAvcSeqHeader(payload) {
        var (newSps, newPps) := ParseAvcConfig(payload[5..]);
        if |newSps| > 0 {
          sps := newSps;
        }
        if |newPps| > 0 {
          pps := newPps;
        }
        return;
      }
      var annexb := Annex(payload);
      if |annexb| == 0 {
        return;
      }
      PsiStepKeepsValid(Abs(), ts);
      ghost var before, start := Abs(), written;
      ghost var m1, psi := before, [];
      if pmtDirty || lastPmtTs.None? || ts - lastPmtTs.value >= PSI_INTERVAL_MS {
        EmitPatPmt(ts);
        m1, psi := PsiStep(before, ts).0, PsiPackets(before);
      }
      assert Concat<byte>([]) == [];
      var pes := BuildPes(STREAM_VIDEO, annexb, (ts + CtsOf(payload)) * 90, ts * 90, true);
      assert Abs() == m1 && written == start + Concat(psi);
      EmitPesPackets(PID_VIDEO, pes, ts * 90, true);
      ConcatAppend(psi, PesStep(m1, PID_VIDEO, pes, ts * 90, true).1);
    }

    /** The access unit as Annex B. */
    method Annex(payload: bytes) returns (annexb: bytes)
      requires |payload| >= 5
      ensures annexb == Annexed(UnitsOf(Abs(), payload))
      ensures |annexb| == 0 <==> |UnitsOf(Abs(), payload)| == 0
    {
      annexb := [];
      var lead: seq<bytes> := [];
      if IsKey(payload) && |sps| > 0 && |pps| > 0 {
        annexb := [0, 0, 0, 1] + sps + [0, 0, 0, 1] + pps;
        lead := [sps, pps];
        assert Annexed([pps]) == [0, 0, 0, 1] + pps && lead[1..] == [pps];
        assert Annexed(lead) == [0, 0, 0, 1] + sps + Annexed([pps]);
      }
      var nals := SplitPacked(payload[5..]);
      assert lead + nals[..0] == lead;
      for i := 0 to |nals|
        invariant annexb == Annexed(lead + nals[..i])
      {
        AnnexedSnoc(lead + nals[..i], nals[i]);
        assert lead + nals[..i + 1] == (lead + nals[..i]) + [nals[i]];
        annexb := annexb + [0, 0, 0, 1] + nals[i];
      }
      assert nals[..|nals|] == nals;
    }

    method WriteAudio(ts: int, payload: bytes)
      requires Valid(Abs())
      modifies this
      ensures Abs() == AudioStep(old(Abs()), ts, payload).0
      ensures written == old(written) + Concat(AudioStep(old(Abs()), ts, payload).1)
    {
      hide PmtSectionOf, PsiPackets, PacketsFrom, BuildPes, BuildAdts, ParseAsc, Flv.UnwrapMultitrackAudio;
      var (slot, raw) := SlotOf(payload);
      if slot >= Flv.MAX_AUDIO_SLOTS || |raw| < 2 {
        return;
      }
      if Flv.IsAacSeqHeader(raw) {
        var asc := ParseAsc(raw[2..]);
        if asc.Some? {
          audioCfg := audioCfg[slot := asc.value];
        }
        Register(slot);
        return;
      }
      if slot !in audioCfg {
        return;
      }
      var cfg := audioCfg[slot];
      Register(slot);
      assert Valid(Abs());
      PsiStepKeepsValid(Abs(), ts);
      ghost var m0, start := Abs(), written;
      ghost var m1, psi := m0, [];
      if pmtDirty {
        EmitPatPmt(ts);
        m1, psi := PsiStep(m0, ts).0, PsiPackets(m0);
      }
      assert Concat<byte>([]) == [];
      var pes := BuildPes(STREAM_AUDIO, BuildAdts(cfg.0, cfg.1, cfg.2, |raw| - 2) + raw[2..], ts * 90, 0, false);
      assert pes == AudioPes(cfg, ts, raw[2..]);
      assert Abs() == m1 && written == start + Concat(psi);
      EmitPesPackets(PID_AUDIO_BASE + slot, pes, 0, false);
      ConcatAppend(psi, PesStep(m1, PID_AUDIO_BASE + slot, pes, 0, false).1);
    }

    method Register(slot: nat)
      modifies this
      ensures Abs() == RegisterSlot(old(Abs()), slot) && written == old(written)
    {
      if slot !in knownAudioSlots {
        knownAudioSlots := knownAudioSlots + {slot};
        pmtVersion := (pmtVersion + 1) % 32;
        pmtDirty := true;
        pmtSection := None;
      }
    }

    method NextCc(pid: nat) returns (r: nat)
      modifies this`cc
      ensures r == CcOf(old(Abs()), pid) && Abs() == BumpCc(old(Abs()), pid, 1)
    {
      r := if pid in cc then cc[pid] else 0;
      cc := cc[pid := (r + 1) % 16];
    }

    method EmitPatPmt(ts: int)
      requires Valid(Abs())
      modifies this
      ensures Abs() == PsiStep(old(Abs()), ts).0
      ensures written == old(written) + Concat(PsiPackets(old(Abs())))
    {
      hide PmtSectionOf, BuildPat, PsiPacket, Concat;
      pmtDirty := false;
      lastPmtTs := Some(ts);
      if pmtSection.None? {
        pmtSection := Some(PmtSectionOf(knownAudioSlots, pmtVersion));
      }
      WriteTables(pmtSection.value);
    }

    method WriteTables(section: bytes)
      requires |section| <= 183
      modifies this`cc, this`written
      ensures Abs() == BumpCc(BumpCc(old(Abs()), PID_PAT, 1), PID_PMT, 1)
      ensures written == old(written) + Concat([PsiPacket(PID_PAT, BuildPat(PID_PMT), CcOf(old(Abs()), PID_PAT)),
                                                PsiPacket(PID_PMT, section, CcOf(old(Abs()), PID_PMT))])
    {
      hide BuildPat, PsiPacket, Concat;
      var patCc := NextCc(PID_PAT);
      var pmtCc := NextCc(PID_PMT);
      var pat, pmt := PsiPacket(PID_PAT, BuildPat(PID_PMT), patCc), PsiPacket(PID_PMT, section, pmtCc);
      written := written + (pat + pmt);
      ConcatPair(pat, pmt);
    }

    method EmitPesPackets(pid: nat, pes: bytes, pcr: int, hasPcr: bool)
      requires CcOf(Abs(), pid) < 16
      modifies this
      ensures Abs() == PesStep(old(Abs()), pid, pes, pcr, hasPcr).0
      ensures written == old(written) + Concat(PesStep(old(Abs()), pid, pes, pcr, hasPcr).1)
    {
      hide PacketsFrom;
      var packets, next := PesToPackets(pid, pes, if pid in cc then cc[pid] else 0, pcr, hasPcr);
      cc := cc[pid := next];
      var out := Join(packets);
      written := written + out;
    }
  }

  /** One buffer for all packets. */
  method Join(packets: seq<bytes>) returns (out: bytes)
    ensures out == Concat(packets)
  {
    out := [];
    for i := 0 to |packets|
      invariant out == Concat(packets[..i])
    {
      ConcatSnoc(packets[..i], packets[i]);
      assert packets[..i + 1] == packets[..i] + [packets[i]];
      out := out + packets[i];
    }
    assert packets[..|packets|] == packets;
  }

  lemma ConcatSnoc(parts: seq<bytes>, part: bytes)
    ensures Concat(parts + [part]) == Concat(parts) + part
  {
    ConcatAppend(parts, [part]);
    assert [part][1..] == [];
    assert Concat([part]) == part + [];
  }

  lemma ConcatPair(a: bytes, b: bytes)
    ensures Concat([a, b]) == a + b
  {
    ConcatSnoc([], a);
    ConcatSnoc([a], b);
    assert [] + [a] == [a] && [a] + [b] == [a, b];
  }

  lemma {:induction false} AnnexedSnoc(nals: seq<bytes>, nal: bytes)
    ensures Annexed(nals + [nal]) == Annexed(nals) + [0, 0, 0, 1] + nal
  {
    if nals == [] {
      assert [nal][1..] == [];
      assert nals + [nal] == [nal];
    } else {
      assert (nals + [nal])[1..] == nals[1..] + [nal];
      AnnexedSnoc(nals[1..], nal);
    }
  }

  lemma PsiStepKeepsValid(m: State, ts: int)
    requires Valid(m)
    ensures Valid(PsiStep(m, ts).0)
  {
    hide PmtSectionOf, PsiPackets;
  }

  lemma PesStepKeepsValid(m: State, pid: nat, pes: bytes, pcr: int, hasPcr: bool)
    requires Valid(m)
    ensures Valid(PesStep(m, pid, pes, pcr, hasPcr).0)
  {
    hide PmtSectionOf, PacketsFrom;
  }

  lemma VideoStepKeepsValid(m: State, ts: int, payload: bytes)
    requires Valid(m)
    ensures Valid(VideoStep(m, ts, payload).0)
  {
    hide PmtSectionOf, PsiStep, PesStep, VideoPes, ParseAvcConfig;
    PsiStepKeepsValid(m, ts);
    if |payload| >= 5 {
      PesStepKeepsValid(if PsiDue(m, ts) then PsiStep(m, ts).0 else m, PID_VIDEO, VideoPes(m, ts, payload), ts * 90, true);
    }
  }

  lemma AudioStepKeepsValid(m: State, ts: int, payload: bytes)
    requires Valid(m)
    ensures Valid(AudioStep(m, ts, payload).0)
  {
    hide PmtSectionOf, PsiStep, PesStep, AudioPes, ParseAsc;
    var (slot, raw) := SlotOf(payload);
    if slot < Flv.MAX_AUDIO_SLOTS && |raw| >= 2 && !Flv.IsAacSeqHeader(raw) && slot in m.audioCfg {
      var m0 := RegisterSlot(m, slot);
      PsiStepKeepsValid(m0, ts);
      PesStepKeepsValid(if m0.pmtDirty then PsiStep(m0, ts).0 else m0, PID_AUDIO_BASE + slot,
                        AudioPes(m.audioCfg[slot], ts, raw[2..]), 0, false);
    }
  }

  /** The cached PMT section always is the one the known slots and the version call for. */
  lemma TagStepKeepsValid(m: State, tag: Tag)
    requires Valid(m)
    ensures Valid(TagStep(m, tag).0)
  {
    hide VideoStep, AudioStep;
    VideoStepKeepsValid(m, tag.ts, tag.payload);
    AudioStepKeepsValid(m, tag.ts, tag.payload);
  }
}
