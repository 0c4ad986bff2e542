// What a connection is written for every tag, in terms of the tags written before it: the declared codecs, when the
// program tables are repeated, and the one PES a picture or a frame becomes.
module TsWriting {
  import opened Bytes
  import opened AnnexB
  import opened TsClock
  import opened TsPackets
  import opened TsDemux
  import opened TsTransport
  import opened TsRoundTrip
  import M = TsMux
  import Flv

  // ----- what has been declared -----

  /** The parameter sets in an AVC codec header. */
  function SetsIn(tag: M.Tag): Option<(bytes, bytes)>
  {
    if tag.tagType == Flv.TAG_VIDEO && |tag.payload| >= 5 && Flv.IsAvcSeqHeader(tag.payload)
    then Some(ParseAvcConfig(tag.payload[5..])) else None
  }

  /** The last sequence parameter set declared, if it was not empty. */
  function LastSps(tags: seq<M.Tag>): bytes
  {
    if tags == [] then []
    else
      match SetsIn(tags[|tags| - 1])
      case None => LastSps(tags[..|tags| - 1])
      case Some((sps, _)) => if sps == [] then LastSps(tags[..|tags| - 1]) else sps
  }

  function LastPps(tags: seq<M.Tag>): bytes
  {
    if tags == [] then []
    else
      match SetsIn(tags[|tags| - 1])
      case None => LastPps(tags[..|tags| - 1])
      case Some((_, pps)) => if pps == [] then LastPps(tags[..|tags| - 1]) else pps
  }

  /** The output slot an audio tag is for, and its legacy payload, if there is such a slot and anything in it. */
  function SlotIn(tag: M.Tag): Option<(nat, bytes)>
  {
    var (slot, raw) := M.SlotOf(tag.payload);
    if tag.tagType == Flv.TAG_AUDIO && slot < Flv.MAX_AUDIO_SLOTS && |raw| >= 2 then Some((slot, raw)) else None
  }

  /** The AAC configuration a tag declares for a slot. */
  function ConfigIn(tag: M.Tag, slot: nat): Option<(nat, nat, nat)>
  {
    match SlotIn(tag)
    case None => None
    case Some((s, raw)) => if s == slot && Flv.IsAacSeqHeader(raw) then ParseAsc(raw[2..]) else None
  }

  function LastConfig(tags: seq<M.Tag>, slot: nat): Option<(nat, nat, nat)>
  {
    if tags == [] then None
    else
      match ConfigIn(tags[|tags| - 1], slot)
      case None => LastConfig(tags[..|tags| - 1], slot)
      case Some(cfg) => Some(cfg)
  }

  /** The slots the program has: those with a codec header, or a frame of a declared codec. */
  function Slots(tags: seq<M.Tag>): set<nat>
  {
    if tags == [] then {}
    else
      var before, last := tags[..|tags| - 1], tags[|tags| - 1];
      match SlotIn(last)
      case None => Slots(before)
      case Some((slot, raw)) =>
        if Flv.IsAacSeqHeader(raw) || LastConfig(before, slot).Some? then Slots(before) + {slot} else Slots(before)
  }

  /** The packets a connection gets for a tag. */
  function Written(before: seq<M.Tag>, tag: M.Tag): seq<bytes>
  {
    M.TagStep(After(before), tag).1
  }

  predicate OnPid(pkt: bytes, pid: nat)
  {
    |pkt| == PACKET_SIZE && ParseTsPacket(pkt).Packet? && ParseTsPacket(pkt).pid == pid
  }

  predicate BeginsWithTables(packets: seq<bytes>)
  {
    packets != [] && OnPid(packets[0], PID_PAT)
  }

  /** When the tables were written last, and what program they told. */
  function LastTables(tags: seq<M.Tag>): Option<(int, set<nat>)>
  {
    if tags == [] then None
    else if BeginsWithTables(Written(tags[..|tags| - 1], tags[|tags| - 1])) then Some((tags[|tags| - 1].ts, Slots(tags)))
    else LastTables(tags[..|tags| - 1])
  }

  /** The tables have never been written, or the program has changed since. */
  predicate Outdated(before: seq<M.Tag>, slots: set<nat>)
  {
    match LastTables(before)
    case None => true
    case Some((_, told)) => told != slots
  }

  /** A tenth of a second has passed since they were. */
  predicate Overdue(before: seq<M.Tag>, ts: int)
  {
    match LastTables(before)
    case None => true
    case Some((at, _)) => ts - at >= 100
  }

  // ----- the state, told by the tags -----

  /** Every change of the program has its own version, as far as five bits go. */
  predicate VersionCounts(m: M.State)
  {
    m.pmtVersion == |m.known| % 32
  }

  ghost predicate Told(m: M.State, tags: seq<M.Tag>)
  {
    && m.sps == LastSps(tags) && m.pps == LastPps(tags)
    && (forall slot :: LastConfig(tags, slot) == if slot in m.audioCfg then Some(m.audioCfg[slot]) else None)
    && m.known == Slots(tags)
    && (m.lastPmt == match LastTables(tags) case None => None case Some((at, _)) => Some(at))
    && (m.pmtDirty <==> Outdated(tags, Slots(tags)))
    && (forall pid :: M.CcOf(m, pid) < 16) && VersionCounts(m)
  }

  /** The codec state after a tag; tables and packets leave it alone. */
  function Declared(m: M.State, tag: M.Tag): M.State
  {
    match SetsIn(tag)
    case Some((sps, pps)) => m.(sps := if sps != [] then sps else m.sps, pps := if pps != [] then pps else m.pps)
    case None =>
      match SlotIn(tag)
      case None => m
      case Some((slot, raw)) =>
        if Flv.IsAacSeqHeader(raw) then
          M.RegisterSlot(match ParseAsc(raw[2..]) case None => m case Some(cfg) => m.(audioCfg := m.audioCfg[slot := cfg]), slot)
        else if slot in m.audioCfg then M.RegisterSlot(m, slot)
        else m
  }

  /** The one PES a tag becomes: its PID, its octets, its clock reference if it carries one, and whether the tables go
      before it. */
  datatype Sent = Sent(pid: nat, pes: bytes, pcr: Option<int>, tables: bool)

  function UnitsFor(m: M.State, payload: bytes): seq<bytes>
    requires |payload| >= 5
  {
    (if M.IsKey(payload) && m.sps != [] && m.pps != [] then [m.sps, m.pps] else []) + Unpacked(payload[5..])
  }

  function SentFor(m: M.State, tag: M.Tag): Option<Sent>
  {
    if tag.tagType == Flv.TAG_VIDEO then
      if |tag.payload| < 5 || Flv.IsAvcSeqHeader(tag.payload) || UnitsFor(m, tag.payload) == [] then None
      else
        Some(Sent(PID_VIDEO, BuildPes(STREAM_VIDEO, Annexed(UnitsFor(m, tag.payload)), (tag.ts + M.CtsOf(tag.payload)) * 90, tag.ts * 90, true),
                  Some(tag.ts * 90), m.pmtDirty || m.lastPmt.None? || tag.ts - m.lastPmt.value >= 100))
    else
      match SlotIn(tag)
      case None => None
      case Some((slot, raw)) =>
        if Flv.IsAacSeqHeader(raw) || slot !in m.audioCfg then None
        else
          Some(Sent(PID_AUDIO_BASE + slot, M.AudioPes(m.audioCfg[slot], tag.ts, raw[2..]), None, m.pmtDirty || slot !in m.known))
  }

  /** What a tag writes and leaves, all cases in one form. */
  lemma TagIs(m: M.State, tag: M.Tag)
    ensures var m0 := Declared(m, tag);
            M.TagStep(m, tag) ==
            match SentFor(m, tag)
            case None => (m0, [])
            case Some(x) =>
              var (m1, psi) := if x.tables then M.PsiStep(m0, tag.ts) else (m0, []);
              var (m2, ps) := M.PesStep(m1, x.pid, x.pes, if x.pcr.Some? then x.pcr.value else 0, x.pcr.Some?);
              (m2, psi + ps)
  {
    hide M.PsiStep, M.PesStep, BuildPes, M.AudioPes, ParseAvcConfig, ParseAsc, M.SlotOf, Annexed, Unpacked, Flv.IsAvcSeqHeader,
      Flv.IsAacSeqHeader;
    if tag.tagType == Flv.TAG_VIDEO {
      VideoIs(m, tag);
    } else if tag.tagType == Flv.TAG_AUDIO {
      AudioIs(m, tag);
    }
  }

  lemma VideoIs(m: M.State, tag: M.Tag)
    requires tag.tagType == Flv.TAG_VIDEO
    ensures var m0 := Declared(m, tag);
            M.TagStep(m, tag) ==
            match SentFor(m, tag)
            case None => (m0, [])
            case Some(x) =>
              var (m1, psi) := if x.tables then M.PsiStep(m0, tag.ts) else (m0, []);
              var (m2, ps) := M.PesStep(m1, x.pid, x.pes, if x.pcr.Some? then x.pcr.value else 0, x.pcr.Some?);
              (m2, psi + ps)
  {
    hide M.PsiStep, M.PesStep, BuildPes, ParseAvcConfig, M.SlotOf, Annexed, Unpacked, Flv.IsAvcSeqHeader, M.CtsOf, M.IsKey;
  }

  lemma AudioIs(m: M.State, tag: M.Tag)
    requires tag.tagType == Flv.TAG_AUDIO
    ensures var m0 := Declared(m, tag);
            M.TagStep(m, tag) ==
            match SentFor(m, tag)
            case None => (m0, [])
            case Some(x) =>
              var (m1, psi) := if x.tables then M.PsiStep(m0, tag.ts) else (m0, []);
              var (m2, ps) := M.PesStep(m1, x.pid, x.pes, if x.pcr.Some? then x.pcr.value else 0, x.pcr.Some?);
              (m2, psi + ps)
  {
    hide M.PsiStep, M.PesStep, ParseAsc, M.SlotOf, Flv.IsAacSeqHeader, M.AudioPes;
  }

  // ----- packets -----

  lemma TablesBegin(m: M.State, ts: int)
    requires forall pid :: M.CcOf(m, pid) < 16
    ensures var psi := M.PsiStep(m, ts).1; |psi| == 2 && OnPid(psi[0], PID_PAT) && OnPid(psi[1], PID_PMT)
  {
    hide ParseTsPacket, M.PmtSectionOf, BuildPat, PsiPacket;
    assert M.CcOf(m, PID_PAT) < 16 && M.CcOf(m, PID_PMT) < 16;
    PsiPacketParses(PID_PAT, BuildPat(PID_PMT), M.CcOf(m, PID_PAT));
    PsiPacketParses(PID_PMT, M.PmtSectionOf(m.known, m.pmtVersion), M.CcOf(m, PID_PMT));
  }

  /** These packets are one PES: on its PID, the unit start on the first alone, consecutive counters. */
  ghost predicate CarryPes(packets: seq<bytes>, pid: nat, pes: bytes)
  {
    packets != [] && PayloadsOf(packets) == pes && exists cc: nat :: RunOn(packets, pid, cc)
  }

  ghost predicate RunOn(packets: seq<bytes>, pid: nat, cc: nat)
  {
    forall i :: 0 <= i < |packets| ==> PacketOf(packets[i], pid, i == 0, (cc + i) % 16)
  }

  lemma RunIsCarried(ps: seq<bytes>, pid: nat, pes: bytes, cc: nat)
    requires ps != [] && PayloadsOf(ps) == pes && RunOn(ps, pid, cc)
    ensures CarryPes(ps, pid, pes)
  {
    hide PayloadsOf, RunOn;
  }

  lemma PacketsRunOn(pid: nat, pes: bytes, cc: nat, pcr: int, hasPcr: bool)
    requires pid < NULL_PID && cc < 16 && |pes| > 0
    ensures var ps := PacketsFrom(pid, pes, cc, true, pcr, hasPcr); ps != [] && PayloadsOf(ps) == pes && RunOn(ps, pid, cc)
  {
    PacketsCarryPes(pid, pes, cc, pcr, hasPcr);
    hide PacketOf, PacketsFrom, PayloadsOf;
  }

  lemma PesCarried(m: M.State, pid: nat, pes: bytes, pcr: int, hasPcr: bool)
    requires M.CcOf(m, pid) < 16 && pid < NULL_PID && |pes| > 0
    ensures var ps := M.PesStep(m, pid, pes, pcr, hasPcr).1; CarryPes(ps, pid, pes) && OnPid(ps[0], pid)
  {
    hide ParseTsPacket, PacketsFrom, PayloadsOf, PacketOf, RunOn, OnPid;
    var ps := M.PesStep(m, pid, pes, pcr, hasPcr).1;
    PacketsRunOn(pid, pes, M.CcOf(m, pid), pcr, hasPcr);
    RunIsCarried(ps, pid, pes, M.CcOf(m, pid));
    FirstOnPid(ps, pid, M.CcOf(m, pid));
  }

  lemma FirstOnPid(packets: seq<bytes>, pid: nat, cc: nat)
    requires RunOn(packets, pid, cc) && packets != []
    ensures OnPid(packets[0], pid)
  {
    assert PacketOf(packets[0], pid, true, (cc + 0) % 16);
    hide ParseTsPacket;
  }

  /** The version a table's packet says (ISO/IEC 13818-1, section 2.4.4.8). */
  function TableVersion(pkt: bytes): nat
    requires |pkt| == PACKET_SIZE
  {
    pkt[10] as int / 2 % 32
  }

  /** The tables a receiver that has seen none understands as the program with these slots, and one that has seen another
      program takes for new ones. */
  ghost predicate TellProgram(packets: seq<bytes>, slots: set<nat>)
  {
    && |packets| == 2 && OnPid(packets[0], PID_PAT) && OnPid(packets[1], PID_PMT) && TableVersion(packets[1]) == |slots| % 32
    && ReadAs(packets, slots)
  }

  ghost predicate ReadAs(packets: seq<bytes>, slots: set<nat>)
  {
    Sized(packets) && forall allVideo: bool :: FeedPackets(Fresh(allVideo).core, packets).program == ProgramFor(allVideo, slots)
  }

  lemma VersionIs(pid: nat, known: set<nat>, version: nat, cc: nat)
    ensures TableVersion(PsiPacket(pid, M.PmtSectionOf(known, version), cc)) == version % 32
  {
    hide StreamEntries, M.AudioStreams, M.SlotsFrom;
    var section := M.PmtSectionOf(known, version);
    assert section[5] as int == 0xC1 + version % 32 * 2;
    hide PsiSection, M.PmtSectionOf;
    assert PsiPacket(pid, section, cc)[10] == section[5];
  }

  lemma TablesRead(m: M.State, ts: int, allVideo: bool)
    requires forall pid :: M.CcOf(m, pid) < 16
    ensures Sized(M.PsiStep(m, ts).1) && FeedPackets(Fresh(allVideo).core, M.PsiStep(m, ts).1).program == ProgramFor(allVideo, m.known)
  {
    hide ParseTsPacket, M.PmtSectionOf, BuildPat, PsiPacket, ProgramFor, FeedPackets, SetCc;
    assert M.CcOf(m, PID_PAT) < 16 && M.CcOf(m, PID_PMT) < 16;
    TablesAreRead(Fresh(allVideo).core, m);
    SetCcKeepsProgram(AfterTables(Fresh(allVideo).core, m.known), PID_PAT, M.CcOf(m, PID_PAT), PID_PMT, M.CcOf(m, PID_PMT));
  }

  lemma TablesVersion(m: M.State, ts: int)
    ensures var psi := M.PsiStep(m, ts).1; |psi| == 2 && |psi[1]| == PACKET_SIZE && TableVersion(psi[1]) == m.pmtVersion % 32
  {
    VersionIs(PID_PMT, m.known, m.pmtVersion, M.CcOf(m, PID_PMT));
    hide M.PmtSectionOf, BuildPat, PsiPacket, TableVersion;
  }

  lemma TablesTell(m: M.State, ts: int)
    requires (forall pid :: M.CcOf(m, pid) < 16) && VersionCounts(m)
    ensures TellProgram(M.PsiStep(m, ts).1, m.known)
  {
    hide *;
    TablesBegin(m, ts);
    TablesVersion(m, ts);
    TablesReadAs(m, ts);
    Tells(M.PsiStep(m, ts).1, m.known, m.pmtVersion);
    CountsMod(m);
  }

  lemma CountsMod(m: M.State)
    requires VersionCounts(m)
    ensures m.pmtVersion % 32 == |m.known| % 32
  {
  }

  lemma Tells(packets: seq<bytes>, slots: set<nat>, version: nat)
    requires |packets| == 2 && OnPid(packets[0], PID_PAT) && OnPid(packets[1], PID_PMT) && |packets[1]| == PACKET_SIZE
    requires TableVersion(packets[1]) == version % 32 && ReadAs(packets, slots)
    ensures version % 32 == |slots| % 32 ==> TellProgram(packets, slots)
  {
    hide OnPid, TableVersion, ReadAs;
  }

  lemma TablesReadAs(m: M.State, ts: int)
    requires forall pid :: M.CcOf(m, pid) < 16
    ensures ReadAs(M.PsiStep(m, ts).1, m.known)
  {
    TablesRead(m, ts, true);
    hide M.PsiStep, ProgramFor, FeedPackets, M.CcOf, Sized;
    forall allVideo: bool ensures FeedPackets(Fresh(allVideo).core, M.PsiStep(m, ts).1).program == ProgramFor(allVideo, m.known) {
      TablesRead(m, ts, allVideo);
    }
  }

  lemma SetCcKeepsProgram(c: Core, pid: nat, cc: nat, pid2: nat, cc2: nat)
    ensures SetCc(SetCc(c, pid, cc), pid2, cc2).program == c.program
  {
  }

  /** The program clock reference in a packet's adaptation field (ISO/IEC 13818-1, section 2.4.3.4). */
  function PcrIn(pkt: bytes): Option<bytes>
    requires |pkt| == PACKET_SIZE
  {
    if pkt[3] as int / 16 % 4 >= 2 && pkt[4] >= 7 && pkt[5] as int / 16 % 2 == 1 then Some(pkt[6..12]) else None
  }

  lemma PacketPcr(pid: nat, cc: nat, pusi: bool, chunk: bytes, pcr: int, hasPcr: bool)
    requires 0 < |chunk| <= if hasPcr then 176 else 184
    ensures var pkt := BuildTsPacket(pid, cc, pusi, chunk, pcr, hasPcr);
            |pkt| == PACKET_SIZE && PcrIn(pkt) == if hasPcr then Some(EncodePcr(pcr)) else None
  {
    hide EncodePcr;
    var pkt := BuildTsPacket(pid, cc, pusi, chunk, pcr, hasPcr);
    assert (0x10 + cc % 16) / 16 == 1 && (0x30 + cc % 16) / 16 == 3;
    if hasPcr {
      assert pkt[6..12] == EncodePcr(pcr);
    }
  }

  /** The clock is on the first packet, if any, and on no other. */
  ghost predicate ClockFirst(packets: seq<bytes>, pcr: Option<int>)
  {
    && Sized(packets) && packets != []
    && (match pcr
        case None => PcrIn(packets[0]).None?
        case Some(v) => PcrIn(packets[0]).Some? && PcrBase(PcrIn(packets[0]).value) == v % TWO_TO_33)
    && forall i :: 0 < i < |packets| ==> PcrIn(packets[i]).None?
  }

  lemma {:induction false} LaterHaveNoClock(pid: nat, pes: bytes, cc: nat, pcr: int, hasPcr: bool)
    ensures forall p :: p in PacketsFrom(pid, pes, cc, false, pcr, hasPcr) ==> |p| == PACKET_SIZE && PcrIn(p).None?
    decreases |pes|
  {
    hide BuildTsPacket, PcrIn;
    if |pes| > 0 {
      var n := Take(pes, false);
      PacketPcr(pid, cc, false, pes[..n], pcr, false);
      LaterHaveNoClock(pid, pes[n..], (cc + 1) % 16, pcr, hasPcr);
    }
  }

  lemma PesClock(m: M.State, pid: nat, pes: bytes, pcr: int, hasPcr: bool)
    requires |pes| > 0
    ensures ClockFirst(M.PesStep(m, pid, pes, pcr, hasPcr).1, if hasPcr then Some(pcr) else None)
  {
    var cc, n := M.CcOf(m, pid), Take(pes, hasPcr);
    PacketsUnfold(pid, pes, cc, true, pcr, hasPcr);
    PacketPcr(pid, cc, true, pes[..n], pcr, hasPcr);
    PcrRoundTrips(pcr);
    LaterHaveNoClock(pid, pes[n..], (cc + 1) % 16, pcr, hasPcr);
    hide BuildTsPacket, PcrIn, PacketsFrom, EncodePcr, PcrBase, PcrExtension;
    var rest := PacketsFrom(pid, pes[n..], (cc + 1) % 16, false, pcr, hasPcr);
    assert forall i :: 0 <= i < |rest| ==> rest[i] in rest;
  }

  /** One tag's packets: the tables if they are due, then the PES. */
  ghost predicate SentAs(packets: seq<bytes>, x: Sent, slots: set<nat>)
  {
    var n := if x.tables then 2 else 0;
    && |packets| >= n && CarryPes(packets[n..], x.pid, x.pes) && ClockFirst(packets[n..], x.pcr)
    && (x.tables ==> TellProgram(packets[..2], slots))
  }

  lemma SentPid(m: M.State, tag: M.Tag)
    requires SentFor(m, tag).Some?
    ensures var x := SentFor(m, tag).value; PID_PAT < x.pid < NULL_PID && |x.pes| > 0 && x.pid != PID_PMT
  {
    hide BuildPes, Annexed, Unpacked, ParseAsc, M.SlotOf, BuildAdts, Flv.IsAvcSeqHeader, Flv.IsAacSeqHeader, M.CtsOf, M.IsKey;
    if tag.tagType != Flv.TAG_VIDEO {
      AudioPesNotEmpty(m.audioCfg[SlotIn(tag).value.0], tag.ts, SlotIn(tag).value.1[2..]);
      hide M.AudioPes;
    }
  }

  lemma AudioPesNotEmpty(cfg: (nat, nat, nat), ts: int, raw: bytes)
    ensures |M.AudioPes(cfg, ts, raw)| > 0
  {
    hide BuildAdts, BuildPes;
  }

  lemma BumpKeepsCounters(m: M.State, pid: nat, n: nat, m': M.State)
    requires (forall p :: M.CcOf(m, p) < 16) && m'.cc == M.BumpCc(m, pid, n).cc
    ensures forall p :: M.CcOf(m', p) < 16
  {
    forall p ensures M.CcOf(m', p) < 16 {
      assert M.CcOf(m, p) < 16;
    }
  }

  lemma PsiKeepsCounters(m: M.State, ts: int)
    requires forall pid :: M.CcOf(m, pid) < 16
    ensures forall pid :: M.CcOf(M.PsiStep(m, ts).0, pid) < 16
  {
    var m1 := M.BumpCc(m, PID_PAT, 1);
    BumpKeepsCounters(m, PID_PAT, 1, m1);
    hide M.PmtSectionOf, M.PsiPackets, M.BumpCc, M.CcOf;
    BumpKeepsCounters(m1, PID_PMT, 1, M.PsiStep(m, ts).0);
  }

  lemma PesKeepsCounters(m: M.State, pid: nat, pes: bytes, pcr: int, hasPcr: bool)
    requires forall p :: M.CcOf(m, p) < 16
    ensures forall p :: M.CcOf(M.PesStep(m, pid, pes, pcr, hasPcr).0, p) < 16
  {
    hide PacketsFrom, M.BumpCc;
    var (m1, ps) := M.PesStep(m, pid, pes, pcr, hasPcr);
    BumpKeepsCounters(m, pid, |ps|, m1);
  }

  lemma DeclaredKeepsRest(m: M.State, tag: M.Tag)
    ensures var m0 := Declared(m, tag); m0.cc == m.cc && m0.lastPmt == m.lastPmt
    ensures VersionCounts(m) ==> VersionCounts(Declared(m, tag))
  {
    if SlotIn(tag).Some? {
      RegisterCounts(m, SlotIn(tag).value.0);
    }
    hide ParseAvcConfig, ParseAsc, SlotIn, SetsIn, Flv.IsAacSeqHeader, M.RegisterSlot;
    RegisterKeeps(m);
  }

  lemma RegisterCounts(m: M.State, slot: nat)
    ensures VersionCounts(m) ==> VersionCounts(M.RegisterSlot(m, slot))
    ensures VersionCounts(m) ==> forall cfg :: VersionCounts(M.RegisterSlot(m.(audioCfg := cfg), slot))
  {
    assert slot !in m.known ==> |m.known + {slot}| == |m.known| + 1;
  }

  lemma RegisterKeeps(m: M.State)
    ensures forall slot: nat, cfg :: var m1 := M.RegisterSlot(m.(audioCfg := cfg), slot); m1.cc == m.cc && m1.lastPmt == m.lastPmt
    ensures forall slot: nat :: var m1 := M.RegisterSlot(m, slot); m1.cc == m.cc && m1.lastPmt == m.lastPmt
  {
  }

  /** The packets of a tag and the state it leaves, without looking inside. */
  lemma TagSends(m: M.State, tag: M.Tag)
    requires (forall pid :: M.CcOf(m, pid) < 16) && VersionCounts(m)
    ensures var (m', ps) := M.TagStep(m, tag);
            var m0 := Declared(m, tag);
            && (forall pid :: M.CcOf(m', pid) < 16) && VersionCounts(m')
            && m'.sps == m0.sps && m'.pps == m0.pps && m'.audioCfg == m0.audioCfg && m'.known == m0.known
            && (match SentFor(m, tag)
                case None => ps == [] && m' == m0
                case Some(x) =>
                  && SentAs(ps, x, m0.known) && (BeginsWithTables(ps) <==> x.tables)
                  && m'.lastPmt == (if x.tables then Some(tag.ts) else m.lastPmt)
                  && m'.pmtDirty == (m0.pmtDirty && !x.tables))
  {
    TagIs(m, tag);
    DeclaredKeepsRest(m, tag);
    var m0 := Declared(m, tag);
    assert forall pid :: M.CcOf(m0, pid) == M.CcOf(m, pid);
    if SentFor(m, tag).Some? {
      SentPid(m, tag);
      var x := SentFor(m, tag).value;
      hide SentFor, Declared, M.TagStep;
      PacketsSent(m0, tag.ts, x);
    }
  }

  lemma PacketsSent(m0: M.State, ts: int, x: Sent)
    requires (forall pid :: M.CcOf(m0, pid) < 16) && VersionCounts(m0) && PID_PAT < x.pid < NULL_PID && |x.pes| > 0
    ensures var (m1, psi) := if x.tables then M.PsiStep(m0, ts) else (m0, []);
            var (m2, ps) := M.PesStep(m1, x.pid, x.pes, if x.pcr.Some? then x.pcr.value else 0, x.pcr.Some?);
            && (forall pid :: M.CcOf(m2, pid) < 16) && VersionCounts(m2)
            && m2.sps == m0.sps && m2.pps == m0.pps && m2.audioCfg == m0.audioCfg && m2.known == m0.known
            && SentAs(psi + ps, x, m0.known) && (BeginsWithTables(psi + ps) <==> x.tables)
            && m2.lastPmt == (if x.tables then Some(ts) else m0.lastPmt) && m2.pmtDirty == (m0.pmtDirty && !x.tables)
  {
    hide ParseTsPacket, PacketsFrom, M.PsiPackets, M.PmtSectionOf, CarryPes, TellProgram, M.CcOf, OnPid, ClockFirst;
    var (m1, psi) := if x.tables then M.PsiStep(m0, ts) else (m0, []);
    if x.tables {
      TablesTell(m0, ts);
      TablesBegin(m0, ts);
      PsiKeepsCounters(m0, ts);
    }
    var pcr := if x.pcr.Some? then x.pcr.value else 0;
    var ps := M.PesStep(m1, x.pid, x.pes, pcr, x.pcr.Some?).1;
    PesCarried(m1, x.pid, x.pes, pcr, x.pcr.Some?);
    PesKeepsCounters(m1, x.pid, x.pes, pcr, x.pcr.Some?);
    PesClock(m1, x.pid, x.pes, pcr, x.pcr.Some?);
    NotEmpty(ps, x.pid, x.pes);
    assert (psi + ps)[|psi|..] == ps && (psi + ps)[..|psi|] == psi;
    OnePid(ps[0], x.pid);
  }

  lemma NotEmpty(packets: seq<bytes>, pid: nat, pes: bytes)
    requires CarryPes(packets, pid, pes)
    ensures packets != []
  {
    hide PayloadsOf, RunOn;
  }

  lemma OnePid(pkt: bytes, pid: nat)
    requires OnPid(pkt, pid) && pid != PID_PAT
    ensures !OnPid(pkt, PID_PAT)
  {
    hide ParseTsPacket;
  }

  // ----- whole connections -----

  lemma LastsSnoc(tags: seq<M.Tag>, tag: M.Tag)
    ensures var all := tags + [tag];
            && LastSps(all) == (match SetsIn(tag) case None => LastSps(tags) case Some((sps, _)) => if sps == [] then LastSps(tags) else sps)
            && LastPps(all) == (match SetsIn(tag) case None => LastPps(tags) case Some((_, pps)) => if pps == [] then LastPps(tags) else pps)
            && (forall slot :: LastConfig(all, slot) == if ConfigIn(tag, slot).Some? then ConfigIn(tag, slot) else LastConfig(tags, slot))
            && Slots(all) == if SlotIn(tag).Some?
                                && (Flv.IsAacSeqHeader(SlotIn(tag).value.1) || LastConfig(tags, SlotIn(tag).value.0).Some?)
                             then Slots(tags) + {SlotIn(tag).value.0} else Slots(tags)
  {
    hide SetsIn, ConfigIn, SlotIn, Flv.IsAacSeqHeader;
    assert (tags + [tag])[..|tags|] == tags;
  }

  lemma TablesSnoc(tags: seq<M.Tag>, tag: M.Tag)
    ensures LastTables(tags + [tag])
            == if BeginsWithTables(Written(tags, tag)) then Some((tag.ts, Slots(tags + [tag]))) else LastTables(tags)
  {
    hide BeginsWithTables, Written, Slots;
    assert (tags + [tag])[..|tags|] == tags;
  }

  lemma {:induction false} ToldWithin(tags: seq<M.Tag>)
    ensures LastTables(tags).Some? ==> LastTables(tags).value.1 <= Slots(tags)
    decreases |tags|
  {
    if tags != [] {
      hide BeginsWithTables, Written, LastTables, Slots;
      var init, last := tags[..|tags| - 1], tags[|tags| - 1];
      assert tags == init + [last];
      ToldWithin(init);
      TablesSnoc(init, last);
      LastsSnoc(init, last);
    }
  }

  lemma OneTag(tag: M.Tag)
    ensures SetsIn(tag).Some? ==> tag.tagType == Flv.TAG_VIDEO && SlotIn(tag).None?
    ensures SlotIn(tag).Some? ==> SetsIn(tag).None?
  {
    hide M.SlotOf, ParseAvcConfig, Flv.IsAvcSeqHeader;
  }

  lemma DeclaredTells(m: M.State, tags: seq<M.Tag>, tag: M.Tag)
    requires Told(m, tags)
    ensures var m0, all := Declared(m, tag), tags + [tag];
            && m0.sps == LastSps(all) && m0.pps == LastPps(all)
            && (forall slot :: LastConfig(all, slot) == if slot in m0.audioCfg then Some(m0.audioCfg[slot]) else None)
            && m0.known == Slots(all) && (m0.pmtDirty <==> Outdated(tags, Slots(all)))
  {
    LastsSnoc(tags, tag);
    OneTag(tag);
    ToldWithin(tags);
    ConfigFor(tag);
    if SlotIn(tag).Some? {
      AudioDeclares(m, tags, tag);
    } else {
      hide LastSps, LastPps, LastConfig, Slots, LastTables, SetsIn, SlotIn, ConfigIn, Flv.IsAacSeqHeader, ParseAsc, M.CcOf;
    }
  }

  lemma AudioDeclares(m: M.State, tags: seq<M.Tag>, tag: M.Tag)
    requires Told(m, tags) && SlotIn(tag).Some?
    ensures var m0, all := Declared(m, tag), tags + [tag];
            && m0.sps == LastSps(all) && m0.pps == LastPps(all)
            && (forall slot :: LastConfig(all, slot) == if slot in m0.audioCfg then Some(m0.audioCfg[slot]) else None)
            && m0.known == Slots(all) && (m0.pmtDirty <==> Outdated(tags, Slots(all)))
  {
    LastsSnoc(tags, tag);
    OneTag(tag);
    AudioConfigs(m, tags, tag);
    AudioSlots(m, tags, tag);
    AudioKeepsSets(m, tag);
    hide LastSps, LastPps, LastConfig, Slots, LastTables, SetsIn, SlotIn, ConfigIn, Flv.IsAacSeqHeader, ParseAsc, M.CcOf, Declared, Outdated;
  }

  lemma AudioKeepsSets(m: M.State, tag: M.Tag)
    requires SlotIn(tag).Some?
    ensures Declared(m, tag).sps == m.sps && Declared(m, tag).pps == m.pps
  {
    OneTag(tag);
    hide SetsIn, SlotIn, Flv.IsAacSeqHeader, ParseAsc;
  }

  lemma AudioConfigs(m: M.State, tags: seq<M.Tag>, tag: M.Tag)
    requires Told(m, tags) && SlotIn(tag).Some?
    ensures forall slot :: LastConfig(tags + [tag], slot)
                           == if slot in Declared(m, tag).audioCfg then Some(Declared(m, tag).audioCfg[slot]) else None
  {
    LastsSnoc(tags, tag);
    OneTag(tag);
    ConfigFor(tag);
    hide LastSps, LastPps, LastConfig, Slots, LastTables, SetsIn, SlotIn, ConfigIn, Flv.IsAacSeqHeader, ParseAsc, M.CcOf;
  }

  /** A header or a frame of a declared codec brings its slot in. */
  predicate BringsSlot(m: M.State, slot: nat, raw: bytes)
    requires |raw| >= 2
  {
    Flv.IsAacSeqHeader(raw) || slot in m.audioCfg
  }

  lemma AudioRegisters(m: M.State, tag: M.Tag)
    requires SlotIn(tag).Some?
    ensures var (m0, slot, raw) := (Declared(m, tag), SlotIn(tag).value.0, SlotIn(tag).value.1);
            if BringsSlot(m, slot, raw) then m0.known == m.known + {slot} && (m0.pmtDirty <==> m.pmtDirty || slot !in m.known)
            else m0.known == m.known && m0.pmtDirty == m.pmtDirty
  {
    OneTag(tag);
    hide SetsIn, SlotIn, Flv.IsAacSeqHeader, ParseAsc;
  }

  lemma SlotsWith(m: M.State, tags: seq<M.Tag>, tag: M.Tag)
    requires Told(m, tags) && SlotIn(tag).Some?
    ensures var (slot, raw) := (SlotIn(tag).value.0, SlotIn(tag).value.1);
            Slots(tags + [tag]) == if BringsSlot(m, slot, raw) then m.known + {slot} else m.known
  {
    LastsSnoc(tags, tag);
    var slot := SlotIn(tag).value.0;
    assert LastConfig(tags, slot) == if slot in m.audioCfg then Some(m.audioCfg[slot]) else None;
    hide LastSps, LastPps, LastConfig, Slots, LastTables, SetsIn, SlotIn, ConfigIn, Flv.IsAacSeqHeader, M.CcOf, Outdated;
  }

  lemma OutdatedBy(m: M.State, tags: seq<M.Tag>, slot: nat)
    requires Told(m, tags)
    ensures Outdated(tags, m.known + {slot}) <==> m.pmtDirty || slot !in m.known
    ensures Outdated(tags, m.known) <==> m.pmtDirty
  {
    ToldWithin(tags);
    hide LastSps, LastPps, LastConfig, Slots, LastTables, M.CcOf;
    assert slot in m.known ==> m.known + {slot} == m.known;
  }

  lemma AudioSlots(m: M.State, tags: seq<M.Tag>, tag: M.Tag)
    requires Told(m, tags) && SlotIn(tag).Some?
    ensures Declared(m, tag).known == Slots(tags + [tag])
    ensures Declared(m, tag).pmtDirty <==> Outdated(tags, Slots(tags + [tag]))
  {
    AudioRegisters(m, tag);
    SlotsWith(m, tags, tag);
    OutdatedBy(m, tags, SlotIn(tag).value.0);
    hide Told, Slots, SlotIn, Declared, Outdated, BringsSlot;
  }

  lemma ConfigFor(tag: M.Tag)
    ensures forall slot :: ConfigIn(tag, slot) ==
                           if SlotIn(tag).Some? && SlotIn(tag).value.0 == slot && Flv.IsAacSeqHeader(SlotIn(tag).value.1)
                           then ParseAsc(SlotIn(tag).value.1[2..]) else None
  {
    hide SlotIn, Flv.IsAacSeqHeader, ParseAsc;
  }

  lemma AfterSnoc(tags: seq<M.Tag>, tag: M.Tag)
    ensures After(tags + [tag]) == M.TagStep(After(tags), tag).0
  {
    hide M.TagStep;
    TagStepsAppend(M.FRESH, tags, [tag]);
    assert [tag][1..] == [];
    assert M.TagSteps(M.TagStep(After(tags), tag).0, []).0 == M.TagStep(After(tags), tag).0;
  }

  lemma {:induction false} StateIsTold(tags: seq<M.Tag>)
    ensures Told(After(tags), tags)
    decreases |tags|
  {
    hide *;
    if |tags| == 0 {
      NothingTold();
      assert tags == [];
    } else {
      var init, last := tags[..|tags| - 1], tags[|tags| - 1];
      StateIsTold(init);
      assert tags == init + [last];
      TagTells(init, last);
    }
  }

  lemma NothingTold()
    ensures Told(After([]), [])
  {
  }

  lemma TagTells(tags: seq<M.Tag>, tag: M.Tag)
    requires Told(After(tags), tags)
    ensures Told(After(tags + [tag]), tags + [tag])
  {
    hide After, LastSps, LastPps, LastConfig, Slots, Declared, SentFor, SentAs, BeginsWithTables, M.TagStep, LastTables, M.CcOf;
    var m := After(tags);
    AfterSnoc(tags, tag);
    DeclaredTells(m, tags, tag);
    TablesSnoc(tags, tag);
    TagSends(m, tag);
    NothingBegins();
    DeclaredKeepsRest(m, tag);
  }

  lemma NothingBegins()
    ensures !BeginsWithTables([])
  {
  }

  // ----- what every tag writes -----

  /** The NAL units a picture is sent with: a keyframe's are led by the last parameter sets declared. */
  function PictureUnits(before: seq<M.Tag>, tag: M.Tag): seq<bytes>
    requires |tag.payload| >= 5
  {
    (if M.IsKey(tag.payload) && LastSps(before) != [] && LastPps(before) != [] then [LastSps(before), LastPps(before)] else [])
    + Unpacked(tag.payload[5..])
  }

  function PicturePes(before: seq<M.Tag>, tag: M.Tag): bytes
    requires |tag.payload| >= 5
  {
    BuildPes(STREAM_VIDEO, Annexed(PictureUnits(before, tag)), (tag.ts + M.CtsOf(tag.payload)) * 90, tag.ts * 90, true)
  }

  lemma PictureSent(m: M.State, before: seq<M.Tag>, tag: M.Tag)
    requires Told(m, before) && tag.tagType == Flv.TAG_VIDEO && |tag.payload| >= 5 && !Flv.IsAvcSeqHeader(tag.payload)
    ensures SentFor(m, tag) ==
            if PictureUnits(before, tag) == [] then None
            else Some(Sent(PID_VIDEO, PicturePes(before, tag), Some(tag.ts * 90), Outdated(before, Slots(before)) || Overdue(before, tag.ts)))
  {
    hide LastSps, LastPps, LastConfig, Slots, LastTables, BuildPes, Annexed, Unpacked, M.CtsOf, M.IsKey, M.CcOf, Flv.IsAvcSeqHeader;
    assert UnitsFor(m, tag.payload) == PictureUnits(before, tag);
  }

  /** A picture is written as one PES of exactly those units, with both its stamps and a clock reference at its decoding
      time; and both tables stand before it if and only if they were never written, tell another program, or are a tenth
      of a second old. A picture without units writes nothing. */
  lemma PictureIsWritten(before: seq<M.Tag>, tag: M.Tag)
    requires tag.tagType == Flv.TAG_VIDEO && |tag.payload| >= 5 && !Flv.IsAvcSeqHeader(tag.payload)
    ensures var units, ps := PictureUnits(before, tag), Written(before, tag);
            var x := Sent(PID_VIDEO, PicturePes(before, tag), Some(tag.ts * 90), Outdated(before, Slots(before)) || Overdue(before, tag.ts));
            && (units == [] ==> ps == [])
            && (units != [] ==> SentAs(ps, x, Slots(before)) && (BeginsWithTables(ps) <==> x.tables))
  {
    StateIsTold(before);
    PictureSent(After(before), before, tag);
    ToldCounters(After(before), before);
    ToldSlots(After(before), before);
    hide *;
    TagSends(After(before), tag);
    PictureDeclaresNothing(After(before), tag);
    WrittenIs(before, tag);
  }

  lemma WrittenIs(before: seq<M.Tag>, tag: M.Tag)
    ensures Written(before, tag) == M.TagStep(After(before), tag).1
  {
    hide M.TagStep;
  }

  lemma ToldSlots(m: M.State, tags: seq<M.Tag>)
    requires Told(m, tags)
    ensures m.known == Slots(tags)
  {
    hide LastSps, LastPps, LastConfig, Slots, LastTables, M.CcOf;
  }

  /** That PES parses back to the picture's units and stamps. */
  lemma PictureParses(before: seq<M.Tag>, tag: M.Tag)
    requires |tag.payload| >= 5
    ensures var units := PictureUnits(before, tag);
            && ParsePes(PicturePes(before, tag))
               == Some(Pes(Annexed(units), (tag.ts + M.CtsOf(tag.payload)) * 90 % TWO_TO_33, tag.ts * 90 % TWO_TO_33))
            && (AllClean(units) ==> NalUnits(Annexed(units)) == units)
  {
    var units := PictureUnits(before, tag);
    PesRoundTrips(STREAM_VIDEO, Annexed(units), (tag.ts + M.CtsOf(tag.payload)) * 90, tag.ts * 90, true);
    if AllClean(units) {
      NalUnitsInvertAnnexed(units);
    }
    hide PictureUnits, Annexed, BuildPes, ParsePes, NalUnits, AllClean, M.CtsOf;
  }

  lemma PictureDeclaresNothing(m: M.State, tag: M.Tag)
    requires tag.tagType == Flv.TAG_VIDEO && !Flv.IsAvcSeqHeader(tag.payload)
    ensures Declared(m, tag) == m
  {
    hide M.SlotOf, ParseAvcConfig, Flv.IsAvcSeqHeader;
  }

  function FrameEs(cfg: (nat, nat, nat), raw: bytes): bytes
  {
    BuildAdts(cfg.0, cfg.1, cfg.2, |raw|) + raw
  }

  /** An AAC frame is written as one PES behind an ADTS header for its slot's last declared configuration; and the tables
      stand before it if and only if they were never written or tell other slots. A frame of no declared configuration
      writes nothing. */
  lemma FrameIsWritten(before: seq<M.Tag>, tag: M.Tag, slot: nat, raw: bytes)
    requires SlotIn(tag) == Some((slot, raw)) && !Flv.IsAacSeqHeader(raw)
    ensures var ps := Written(before, tag);
            match LastConfig(before, slot)
            case None => ps == []
            case Some(cfg) =>
              var x := Sent(PID_AUDIO_BASE + slot, M.AudioPes(cfg, tag.ts, raw[2..]), None, Outdated(before, Slots(before) + {slot}));
              SentAs(ps, x, Slots(before) + {slot}) && (BeginsWithTables(ps) <==> x.tables)
  {
    StateIsTold(before);
    LastsSnoc(before, tag);
    SlotIsAudio(tag);
    FrameSent(After(before), before, tag, slot, raw);
    ToldCounters(After(before), before);
    DeclaredTells(After(before), before, tag);
    hide *;
    TagSends(After(before), tag);
    WrittenIs(before, tag);
  }

  /** That PES parses back to the frame at its time, and its header says the configuration, as far as the header's
      fields can, and counts the frame. */
  lemma FrameParses(cfg: (nat, nat, nat), ts: int, raw: bytes)
    ensures ParsePes(M.AudioPes(cfg, ts, raw)) == Some(Pes(FrameEs(cfg, raw), ts * 90 % TWO_TO_33, ts * 90 % TWO_TO_33))
    ensures FrameEs(cfg, raw)[7..] == raw
    ensures ParseAdts(FrameEs(cfg, raw), 0)
            == Some(Adts(if cfg.0 == 0 then 1 else (cfg.0 - 1) % 4 + 1, cfg.1 % 16, cfg.2 % 8, (|raw| + 7) % 8192, 7))
  {
    AdtsRoundTrips(cfg.0, cfg.1, cfg.2, raw);
    PesRoundTrips(STREAM_AUDIO, FrameEs(cfg, raw), ts * 90, 0, false);
    hide BuildPes, BuildAdts, ParsePes, ParseAdts;
  }

  lemma SlotIsAudio(tag: M.Tag)
    ensures SlotIn(tag).Some? ==> tag.tagType == Flv.TAG_AUDIO
  {
    hide M.SlotOf;
  }

  lemma FrameSent(m: M.State, before: seq<M.Tag>, tag: M.Tag, slot: nat, raw: bytes)
    requires Told(m, before) && SlotIn(tag) == Some((slot, raw)) && !Flv.IsAacSeqHeader(raw) && tag.tagType == Flv.TAG_AUDIO
    ensures SentFor(m, tag) ==
            match LastConfig(before, slot)
            case None => None
            case Some(cfg) => Some(Sent(PID_AUDIO_BASE + slot, M.AudioPes(cfg, tag.ts, raw[2..]), None, Outdated(before, Slots(before) + {slot})))
  {
    ToldWithin(before);
    hide LastSps, LastPps, LastConfig, Slots, LastTables, M.AudioPes, Flv.IsAacSeqHeader, SlotIn, M.CcOf;
    assert LastConfig(before, slot) == if slot in m.audioCfg then Some(m.audioCfg[slot]) else None;
  }

  /** Nothing else is written: codec headers, metadata and tags too short to be media leave no packet. */
  lemma NothingElseIsWritten(before: seq<M.Tag>, tag: M.Tag)
    requires tag.tagType == Flv.TAG_VIDEO ==> |tag.payload| < 5 || Flv.IsAvcSeqHeader(tag.payload)
    requires SlotIn(tag).Some? ==> Flv.IsAacSeqHeader(SlotIn(tag).value.1)
    ensures Written(before, tag) == []
  {
    StateIsTold(before);
    hide After, Told, Declared, SentAs, BeginsWithTables, M.TagStep, Flv.IsAacSeqHeader, Flv.IsAvcSeqHeader, SlotIn;
    ToldCounters(After(before), before);
    TagSends(After(before), tag);
  }

  lemma ToldCounters(m: M.State, tags: seq<M.Tag>)
    requires Told(m, tags)
    ensures (forall pid :: M.CcOf(m, pid) < 16) && VersionCounts(m)
  {
    hide LastSps, LastPps, LastConfig, Slots, LastTables, M.CcOf;
  }

  /** The parameter sets of an AVC codec header are the last ones until another such header comes. */
  lemma {:induction false} SetsStay(before: seq<M.Tag>, header: M.Tag, between: seq<M.Tag>, sps: bytes, pps: bytes)
    requires SetsIn(header) == Some((sps, pps)) && sps != [] && pps != [] && forall t :: t in between ==> SetsIn(t).None?
    ensures LastSps(before + [header] + between) == sps && LastPps(before + [header] + between) == pps
    decreases |between|
  {
    hide SetsIn, LastSps, LastPps;
    if between == [] {
      assert before + [header] + between == before + [header];
      LastsSnoc(before, header);
    } else {
      var init, last := between[..|between| - 1], between[|between| - 1];
      assert last in between && before + [header] + between == (before + [header] + init) + [last];
      SetsStay(before, header, init, sps, pps);
      LastsSnoc(before + [header] + init, last);
    }
  }
}
