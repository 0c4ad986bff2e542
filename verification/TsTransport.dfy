// From the multiplexer's packets to the demultiplexer's state: program tables are understood, PES packets
// are reassembled, and no continuity counter ever skips.
module TsTransport {
  import opened Bytes
  import opened Crc
  import opened TsPackets
  import opened TsDemux
  import M = TsMux
  import Flv

  // ----- packets one by one -----

  ghost predicate Sized(packets: seq<bytes>)
  {
    forall p :: p in packets ==> |p| == PACKET_SIZE
  }

  function FeedPackets(c: Core, packets: seq<bytes>): Core
    requires Sized(packets)
    decreases |packets|
  {
    if packets == [] then c else FeedPackets(FeedPacket(c, packets[0]), packets[1..])
  }

  lemma {:induction false} FeedPacketsAppend(c: Core, a: seq<bytes>, b: seq<bytes>)
    requires Sized(a) && Sized(b)
    ensures Sized(a + b) && FeedPackets(c, a + b) == FeedPackets(FeedPackets(c, a), b)
    decreases |a|
  {
    hide FeedPacket;
    if a == [] {
      assert a + b == b;
    } else {
      assert (a + b)[0] == a[0] && (a + b)[1..] == a[1..] + b;
      FeedPacketsAppend(FeedPacket(c, a[0]), a[1..], b);
    }
  }

  lemma {:induction false} FeedBytesIsFeedPackets(c: Core, packets: seq<bytes>)
    requires Sized(packets)
    ensures FeedBytes(c, Concat(packets)) == State([], FeedPackets(c, packets))
    decreases |packets|
  {
    hide FeedPacket;
    if packets != [] {
      var data := Concat(packets);
      assert packets[0] in packets;
      assert data[..PACKET_SIZE] == packets[0] && data[PACKET_SIZE..] == Concat(packets[1..]);
      FeedBytesIsFeedPackets(FeedPacket(c, packets[0]), packets[1..]);
    }
  }

  // ----- one PES -----

  /** The PID carries an elementary stream and nothing else. */
  predicate StreamPid(p: Program, pid: nat)
  {
    KnownStream(p, pid) && 0 < pid < NULL_PID && p.pmtPid != Some(pid)
  }

  predicate Expects(c: Core, pid: nat, cc: nat)
  {
    pid in c.cc ==> cc == (c.cc[pid] + 1) % 16
  }

  function SetCc(c: Core, pid: nat, cc: nat): Core
  {
    c.(cc := c.cc[pid := cc])
  }

  lemma FeedStreamPacket(c: Core, pid: nat, cc: nat, pusi: bool, chunk: bytes, pcr: int, hasPcr: bool)
    requires StreamPid(c.program, pid) && !c.es.crashed && cc < 16 && Expects(c, pid, cc)
    requires 0 < |chunk| <= if hasPcr then 176 else 184
    ensures var pkt := BuildTsPacket(pid, cc, pusi, chunk, pcr, hasPcr);
            |pkt| == PACKET_SIZE && FeedPacket(c, pkt) == FeedPes(SetCc(c, pid, cc), pid, chunk, pusi)
  {
    hide BuildTsPacket, ParseTsPacket, FeedPes;
    TsPacketRoundTrips(pid, cc, pusi, chunk, pcr, hasPcr);
  }

  lemma FeedCons(c: Core, p: bytes, rest: seq<bytes>)
    requires |p| == PACKET_SIZE && Sized(rest)
    ensures Sized([p] + rest) && FeedPackets(c, [p] + rest) == FeedPackets(FeedPacket(c, p), rest)
  {
    hide FeedPacket;
    assert ([p] + rest)[1..] == rest;
  }

  lemma PacketsUnfold(pid: nat, pes: bytes, cc: nat, first: bool, pcr: int, hasPcr: bool)
    requires |pes| > 0
    ensures var n := Take(pes, hasPcr && first);
            PacketsFrom(pid, pes, cc, first, pcr, hasPcr)
            == [BuildTsPacket(pid, cc, first, pes[..n], pcr, hasPcr && first)]
               + PacketsFrom(pid, pes[n..], (cc + 1) % 16, false, pcr, hasPcr)
  {
    hide BuildTsPacket;
  }

  /** The state after n further packets of a pending unit brought these octets. */
  function Grown(c: Core, pid: nat, data: bytes, cc: nat, n: nat): Core
    requires pid in c.pes
  {
    c.(pes := c.pes[pid := c.pes[pid] + data], cc := if n == 0 then c.cc else c.cc[pid := (cc + n - 1) % 16])
  }

  lemma GrownTwice(c: Core, pid: nat, a: bytes, b: bytes, cc: nat, n: nat)
    requires pid in c.pes && cc < 16
    ensures Grown(Grown(c, pid, a, cc, 1), pid, b, (cc + 1) % 16, n) == Grown(c, pid, a + b, cc, n + 1)
  {
    var d := Grown(c, pid, a, cc, 1);
    assert (c.pes[pid] + a) + b == c.pes[pid] + (a + b);
    assert d.pes[pid := d.pes[pid] + b] == c.pes[pid := c.pes[pid] + (a + b)];
    if n > 0 {
      assert ((cc + 1) % 16 + n - 1) % 16 == (cc + n) % 16;
      assert d.cc[pid := (cc + n) % 16] == c.cc[pid := (cc + n) % 16];
    }
  }

  lemma {:induction false} FeedRest(c: Core, pid: nat, pes: bytes, cc: nat, pcr: int, hasPcr: bool)
    requires StreamPid(c.program, pid) && !c.es.crashed && cc < 16 && Expects(c, pid, cc) && pid in c.pes
    ensures var ps := PacketsFrom(pid, pes, cc, false, pcr, hasPcr);
            Sized(ps) && FeedPackets(c, ps) == Grown(c, pid, pes, cc, |ps|)
    decreases |pes|
  {
    hide BuildTsPacket, FeedPacket;
    if |pes| == 0 {
      assert c.pes[pid] + pes == c.pes[pid];
    } else {
      hide PacketsFrom, FeedPackets, Take, Grown;
      var n := Take(pes, false);
      FeedStreamPacket(c, pid, cc, false, pes[..n], pcr, false);
      var c1 := FeedPacket(c, BuildTsPacket(pid, cc, false, pes[..n], pcr, false));
      FeedPesGrows(c, pid, pes[..n], cc);
      FeedRest(c1, pid, pes[n..], (cc + 1) % 16, pcr, hasPcr);
      PacketsUnfold(pid, pes, cc, false, pcr, hasPcr);
      var rest := PacketsFrom(pid, pes[n..], (cc + 1) % 16, false, pcr, hasPcr);
      FeedCons(c, BuildTsPacket(pid, cc, false, pes[..n], pcr, false), rest);
      GrownTwice(c, pid, pes[..n], pes[n..], cc, |rest|);
      assert pes[..n] + pes[n..] == pes;
    }
  }

  lemma FeedPesGrows(c: Core, pid: nat, chunk: bytes, cc: nat)
    requires pid in c.pes && cc < 16
    ensures var d := FeedPes(SetCc(c, pid, cc), pid, chunk, false);
            && d == Grown(c, pid, chunk, cc, 1) && pid in d.pes
            && d.program == c.program && d.es == c.es && Expects(d, pid, (cc + 1) % 16)
  {
    hide FinalizePes;
  }

  lemma FinalizeIgnoresCc(c: Core, pid: nat, cc: map<nat, nat>)
    ensures FinalizePes(c.(cc := cc), pid) == FinalizePes(c, pid).(cc := cc)
  {
    hide ParsePes, HandleEs;
  }

  lemma FeedPesIgnoresCc(c: Core, pid: nat, data: bytes, cc: map<nat, nat>)
    ensures FeedPes(c.(cc := cc), pid, data, true) == FeedPes(c, pid, data, true).(cc := cc)
  {
    hide FinalizePes;
    FinalizeIgnoresCc(c, pid, cc);
  }

  lemma FinalizeKeepsProgram(c: Core, pid: nat)
    ensures var d := FinalizePes(c, pid); d.program == c.program && d.cc == c.cc && d.gaps == c.gaps && pid !in d.pes
  {
    hide ParsePes, HandleEs;
  }

  lemma FeedPesStarts(c: Core, pid: nat, data: bytes)
    requires |data| > 0
    ensures var d := FeedPes(c, pid, data, true);
            && d.program == c.program && d.gaps == c.gaps && d.cc == c.cc
            && (!d.es.crashed ==> pid in d.pes && d.pes[pid] == data)
  {
    FinalizeKeepsProgram(c, pid);
    hide FinalizePes;
  }

  /** The first part of a unit and the rest of it, or the whole unit at once. */
  lemma FeedPesInParts(c: Core, pid: nat, a: bytes, b: bytes)
    requires !FeedPes(c, pid, a + b, true).es.crashed
    ensures var d := FeedPes(c, pid, a, true);
            && !d.es.crashed && pid in d.pes
            && FeedPes(c, pid, a + b, true) == d.(pes := d.pes[pid := d.pes[pid] + b])
  {
    hide FinalizePes;
    var d := FeedPes(c, pid, a, true);
    assert d.pes[pid := a + b] == FeedPes(c, pid, a + b, true).pes;
  }

  lemma GrownFromStart(c: Core, pid: nat, d: Core, rest: bytes, cc: nat, n: nat)
    requires d == SetCc(c, pid, cc) && pid in c.pes && cc < 16
    requires n == 0 ==> rest == []
    ensures Grown(d, pid, rest, (cc + 1) % 16, n)
            == SetCc(c.(pes := c.pes[pid := c.pes[pid] + rest]), pid, (cc + n) % 16)
  {
    if n > 0 {
      assert ((cc + 1) % 16 + n - 1) % 16 == (cc + n) % 16;
      assert d.cc[pid := (cc + n) % 16] == c.cc[pid := (cc + n) % 16];
    }
  }

  /** A multiplexed PES is reassembled whole, without a counter gap, whatever was pending on its PID before. */
  lemma PesReassembled(c: Core, pid: nat, pes: bytes, cc: nat, pcr: int, hasPcr: bool)
    requires StreamPid(c.program, pid) && !c.es.crashed && cc < 16 && Expects(c, pid, cc)
    requires |pes| > 0 && !FeedPes(c, pid, pes, true).es.crashed
    ensures var ps := PacketsFrom(pid, pes, cc, true, pcr, hasPcr);
            && |ps| > 0 && Sized(ps)
            && FeedPackets(c, ps) == SetCc(FeedPes(c, pid, pes, true), pid, (cc + |ps| - 1) % 16)
  {
    hide BuildTsPacket, FeedPacket, FeedPes, PacketsFrom, FeedPackets, Grown;
    var n := Take(pes, hasPcr);
    var a, b := pes[..n], pes[n..];
    var first := BuildTsPacket(pid, cc, true, a, pcr, hasPcr);
    FeedStreamPacket(c, pid, cc, true, a, pcr, hasPcr);
    assert a + b == pes;
    FeedPesInParts(c, pid, a, b);
    FeedPesIgnoresCc(c, pid, a, c.cc[pid := cc]);
    FeedPesStarts(c, pid, a);
    var d := FeedPes(c, pid, a, true);
    assert FeedPacket(c, first) == SetCc(d, pid, cc);
    FeedRest(SetCc(d, pid, cc), pid, b, (cc + 1) % 16, pcr, hasPcr);
    PacketsUnfold(pid, pes, cc, true, pcr, hasPcr);
    var rest := PacketsFrom(pid, b, (cc + 1) % 16, false, pcr, hasPcr);
    NoPacketsOfNothing(pid, b, (cc + 1) % 16, pcr, hasPcr);
    FeedCons(c, first, rest);
    GrownFromStart(d, pid, SetCc(d, pid, cc), b, cc, |rest|);
  }

  lemma NoPacketsOfNothing(pid: nat, pes: bytes, cc: nat, pcr: int, hasPcr: bool)
    ensures |PacketsFrom(pid, pes, cc, false, pcr, hasPcr)| == 0 ==> pes == []
  {
  }

  // ----- program tables -----

  function AddAll(p: Program, allVideo: bool, streams: seq<PmtStream>): Program
    decreases |streams|
  {
    if streams == [] then p
    else AddAll(AddStream(p, allVideo, streams[0].streamType, streams[0].pid), allVideo, streams[1..])
  }

  lemma {:induction false} AddStreamsReadsEntries(p: Program, allVideo: bool, sec: bytes, i: nat, streams: seq<PmtStream>)
    requires i + 5 * |streams| <= |sec| && sec[i..i + 5 * |streams|] == StreamEntries(streams)
    requires forall s :: s in streams ==> s.pid < 0x2000
    ensures AddStreams(p, allVideo, sec, i, i + 5 * |streams|) == AddAll(p, allVideo, streams)
    decreases |streams|
  {
    if streams == [] {
    } else {
      hide *;
      var s, rest := streams[0], streams[1..];
      FirstEntry(sec, i, streams);
      OneStreamAdded(p, allVideo, sec, i, i + 5 * |streams|);
      assert i + 5 + 5 * |rest| == i + 5 * |streams|;
      AddStreamsReadsEntries(AddStream(p, allVideo, s.streamType, s.pid), allVideo, sec, i + 5, rest);
      FirstAdded(p, allVideo, streams);
    }
  }

  lemma FirstAdded(p: Program, allVideo: bool, streams: seq<PmtStream>)
    requires streams != []
    ensures AddAll(p, allVideo, streams)
            == AddAll(AddStream(p, allVideo, streams[0].streamType, streams[0].pid), allVideo, streams[1..])
  {
  }

  lemma FirstEntry(sec: bytes, i: nat, streams: seq<PmtStream>)
    requires streams != [] && i + 5 * |streams| <= |sec| && sec[i..i + 5 * |streams|] == StreamEntries(streams)
    requires streams[0].pid < 0x2000
    ensures sec[i] == streams[0].streamType && PidAt(sec, i + 1) == streams[0].pid
    ensures sec[i + 3] == 0xF0 && sec[i + 4] == 0
    ensures sec[i + 5..i + 5 * |streams|] == StreamEntries(streams[1..])
  {
    hide *;
    var part := sec[i..i + 5 * |streams|];
    EntriesSplit(streams);
    EntryReads(sec, i, part, streams[0]);
    SliceOfSlice(sec, i, 5 * |streams|, 5);
  }

  lemma SliceOfSlice(s: bytes, i: nat, n: nat, k: nat)
    requires k <= n && i + n <= |s|
    ensures s[i..i + n][k..] == s[i + k..i + n]
  {
  }

  lemma EntriesSplit(streams: seq<PmtStream>)
    requires streams != []
    ensures StreamEntries(streams)[..5] == [streams[0].streamType] + TablePid(streams[0].pid) + [0xF0, 0]
    ensures StreamEntries(streams)[5..] == StreamEntries(streams[1..])
  {
    hide TablePid;
    var entry := [streams[0].streamType] + TablePid(streams[0].pid) + [0xF0, 0];
    assert StreamEntries(streams) == entry + StreamEntries(streams[1..]);
  }

  /** An entry without descriptors is five bytes long. */
  lemma OneStreamAdded(p: Program, allVideo: bool, sec: bytes, i: nat, end: nat)
    requires i + 5 <= end <= |sec| && sec[i + 3] == 0xF0 && sec[i + 4] == 0
    ensures AddStreams(p, allVideo, sec, i, end)
            == AddStreams(AddStream(p, allVideo, sec[i], PidAt(sec, i + 1)), allVideo, sec, i + 5, end)
  {
    hide AddStream, PidAt;
  }

  lemma EntryReads(sec: bytes, i: nat, part: bytes, s: PmtStream)
    requires i + |part| <= |sec| && part == sec[i..i + |part|] && |part| >= 5 && s.pid < 0x2000
    requires part[..5] == [s.streamType] + TablePid(s.pid) + [0xF0, 0]
    ensures sec[i] == s.streamType && PidAt(sec, i + 1) == s.pid && sec[i + 3] == 0xF0 && sec[i + 4] == 0
  {
    var entry := [s.streamType] + TablePid(s.pid) + [0xF0, 0];
    assert forall k :: 0 <= k < 5 ==> sec[i + k] == part[k] == part[..5][k] == entry[k];
    assert entry[1] == TablePid(s.pid)[0] && entry[2] == TablePid(s.pid)[1];
    assert sec[i + 1] == entry[1] && sec[i + 2] == entry[2] && sec[i + 0] == entry[0];
    TablePidReads(s.pid);
  }

  lemma TablePidReads(pid: nat)
    requires pid < 0x2000
    ensures var t := TablePid(pid); t[0] as int % 32 * 256 + t[1] as int == pid
  {
    assert pid / 256 % 32 == pid / 256;
  }

  lemma {:induction false} AddAudioStreams(p: Program, allVideo: bool, slots: seq<nat>)
    ensures AddAll(p, allVideo, M.AudioStreams(slots)) == p.(audioPids := p.audioPids + AudioPids(slots))
    decreases |slots|
  {
    if slots == [] {
      assert p.audioPids + AudioPids(slots) == p.audioPids;
    } else {
      var pid := PID_AUDIO_BASE + slots[0];
      assert M.AudioStreams(slots)[1..] == M.AudioStreams(slots[1..]);
      AddAudioStreams(p.(audioPids := p.audioPids + [pid]), allVideo, slots[1..]);
      assert (p.audioPids + [pid]) + AudioPids(slots[1..]) == p.audioPids + AudioPids(slots);
    }
  }

  function AudioPids(slots: seq<nat>): (r: seq<nat>)
    ensures |r| == |slots|
  {
    seq(|slots|, i requires 0 <= i < |slots| => PID_AUDIO_BASE + slots[i])
  }

  function VideoRole(allVideo: bool): Role
  {
    if allVideo then VideoTrack(0) else SingleVideo
  }

  /** The program a demultiplexer reads from the tables of a multiplexer that knows these slots. */
  function ProgramFor(allVideo: bool, known: set<nat>): Program
  {
    Program(Some(PID_PMT), true, [PID_VIDEO], [PID_VIDEO], map[PID_VIDEO := VideoRole(allVideo)],
            AudioPids(M.SlotsFrom(known, 0)), [])
  }

  lemma {:induction false} SlotsInRange(known: set<nat>, from: nat)
    requires from <= Flv.MAX_AUDIO_SLOTS
    ensures forall s :: s in M.SlotsFrom(known, from) <==> s in known && from <= s < Flv.MAX_AUDIO_SLOTS
    decreases Flv.MAX_AUDIO_SLOTS - from
  {
    if from < Flv.MAX_AUDIO_SLOTS {
      SlotsInRange(known, from + 1);
    }
  }

  lemma PatIsRead(p: Program)
    requires p.pmtPid.None?
    ensures FeedPat(p, [0] + BuildPat(PID_PMT) + Fill(183 - |BuildPat(PID_PMT)|), true) == p.(pmtPid := Some(PID_PMT))
  {
    hide Crc32Mpeg;
    var payload := [0] + BuildPat(PID_PMT) + Fill(183 - |BuildPat(PID_PMT)|);
    var sec := payload[1..];
    assert sec[1] == 0xB0 && sec[2] == 13 && sec[8] == 0 && sec[9] == 1 && sec[10] == 0xF0 && sec[11] == 0;
    assert FindPmtPid(sec, 8, 12) == Some(PID_PMT);
  }

  lemma SectionLayout(tableId: byte, body: bytes, version: nat)
    requires |body| <= 171
    ensures var section := PsiSection(tableId, 1, body, version);
            var sec := section + Fill(183 - |section|);
            && |sec| == 183 && SectionEnd(sec) == 8 + |body| && sec[8..8 + |body|] == body
  {
    hide Crc32Mpeg;
    var section := PsiSection(tableId, 1, body, version);
    assert section[8..8 + |body|] == body;
  }

  lemma PmtLayout(known: set<nat>, version: nat, streams: seq<PmtStream>)
    requires streams == [PmtStream(TYPE_H264, PID_VIDEO)] + M.AudioStreams(M.SlotsFrom(known, 0))
    ensures var section := M.PmtSectionOf(known, version);
            var sec := section + Fill(183 - |section|);
            && |sec| == 183 && SectionEnd(sec) == 12 + 5 * |streams|
            && sec[10] == 0xF0 && sec[11] == 0 && sec[12..12 + 5 * |streams|] == StreamEntries(streams)
  {
    hide PsiSection, StreamEntries, SectionEnd, M.AudioStreams, M.SlotsFrom;
    var entries := StreamEntries(streams);
    var body := TablePid(PID_VIDEO) + [0xF0, 0] + entries;
    SectionLayout(2, body, version);
    var section := M.PmtSectionOf(known, version);
    var sec := section + Fill(183 - |section|);
    assert sec[10] == sec[8..8 + |body|][2] && sec[11] == sec[8..8 + |body|][3];
    assert sec[12..12 + 5 * |streams|] == sec[8..8 + |body|][4..] == entries;
  }

  lemma PmtSections(p: Program, allVideo: bool, section: bytes, n: nat)
    requires |section| <= 183 && !p.parsed
    requires var sec := section + Fill(183 - |section|); SectionEnd(sec) == 12 + n && sec[10] == 0xF0 && sec[11] == 0
    ensures var sec := section + Fill(183 - |section|);
            FeedPmt(p, allVideo, [0] + section + Fill(183 - |section|), true)
            == AddStreams(p, allVideo, sec, 12, 12 + n).(parsed := true)
  {
    hide AddStreams, Fill;
    var sec := section + Fill(183 - |section|);
    assert ([0] + section + Fill(183 - |section|))[1..] == sec;
  }

  lemma PmtIsRead(p: Program, allVideo: bool, known: set<nat>, version: nat)
    requires p == NO_PROGRAM.(pmtPid := Some(PID_PMT))
    ensures var section := M.PmtSectionOf(known, version);
            FeedPmt(p, allVideo, [0] + section + Fill(183 - |section|), true) == ProgramFor(allVideo, known)
  {
    hide M.PmtSectionOf, AddStreams, AddAll, StreamEntries, FeedPmt, SectionEnd, M.SlotsFrom, Fill;
    var streams := [PmtStream(TYPE_H264, PID_VIDEO)] + M.AudioStreams(M.SlotsFrom(known, 0));
    var section := M.PmtSectionOf(known, version);
    var sec := section + Fill(183 - |section|);
    PmtLayout(known, version, streams);
    PmtSections(p, allVideo, section, 5 * |streams|);
    ProgramPidsFit(known, streams);
    AddStreamsReadsEntries(p, allVideo, sec, 12, streams);
    AddProgramStreams(p, allVideo, M.SlotsFrom(known, 0));
  }

  lemma ProgramPidsFit(known: set<nat>, streams: seq<PmtStream>)
    requires streams == [PmtStream(TYPE_H264, PID_VIDEO)] + M.AudioStreams(M.SlotsFrom(known, 0))
    ensures forall s :: s in streams ==> s.pid < 0x2000
  {
    hide M.SlotsFrom;
    var slots := M.SlotsFrom(known, 0);
    SlotsInRange(known, 0);
    assert forall s :: s in slots ==> s < Flv.MAX_AUDIO_SLOTS;
    AudioPidsFit(slots);
  }

  lemma AudioPidsFit(slots: seq<nat>)
    requires forall s :: s in slots ==> s < Flv.MAX_AUDIO_SLOTS
    ensures forall s :: s in M.AudioStreams(slots) ==> s.pid < 0x2000
  {
    forall i | 0 <= i < |slots| ensures M.AudioStreams(slots)[i].pid < 0x2000 {
      assert slots[i] in slots;
    }
  }

  lemma AddProgramStreams(p: Program, allVideo: bool, slots: seq<nat>)
    requires p == NO_PROGRAM.(pmtPid := Some(PID_PMT))
    ensures AddAll(p, allVideo, [PmtStream(TYPE_H264, PID_VIDEO)] + M.AudioStreams(slots))
            == Program(Some(PID_PMT), false, [PID_VIDEO], [PID_VIDEO], map[PID_VIDEO := VideoRole(allVideo)],
                       AudioPids(slots), [])
  {
    var streams := [PmtStream(TYPE_H264, PID_VIDEO)] + M.AudioStreams(slots);
    assert streams[1..] == M.AudioStreams(slots);
    var p1 := AddStream(p, allVideo, TYPE_H264, PID_VIDEO);
    AddAudioStreams(p1, allVideo, slots);
    assert p1.audioPids + AudioPids(slots) == AudioPids(slots);
  }

  /** The tables have been read, or none has come yet. */
  ghost predicate TablesReadOrAbsent(p: Program)
  {
    p == NO_PROGRAM || (p.pmtPid == Some(PID_PMT) && p.parsed)
  }

  function AfterTables(c: Core, known: set<nat>): Core
  {
    if c.program.parsed then c else c.(program := ProgramFor(c.allVideo, known))
  }

  lemma FeedTablePacket(c: Core, pid: nat, section: bytes, cc: nat)
    requires pid < NULL_PID && |section| <= 183 && cc < 16 && !c.es.crashed && Expects(c, pid, cc)
    ensures FeedPacket(c, PsiPacket(pid, section, cc))
            == RoutePayload(SetCc(c, pid, cc), pid, [0] + section + Fill(183 - |section|), true)
  {
    PsiPacketParses(pid, section, cc);
    hide PsiPacket, ParseTsPacket, RoutePayload;
  }

  lemma FeedPatPacket(c: Core, cc: nat)
    requires !c.es.crashed && TablesReadOrAbsent(c.program) && cc < 16 && Expects(c, PID_PAT, cc)
    ensures FeedPacket(c, PsiPacket(PID_PAT, BuildPat(PID_PMT), cc))
            == SetCc(c.(program := c.program.(pmtPid := Some(PID_PMT))), PID_PAT, cc)
  {
    FeedTablePacket(c, PID_PAT, BuildPat(PID_PMT), cc);
    if c.program == NO_PROGRAM {
      PatIsRead(c.program);
    }
    hide PsiPacket, FeedPacket, BuildPat, FindPmtPid, FeedPmt;
  }

  lemma FeedFirstPmtPacket(c: Core, known: set<nat>, version: nat, cc: nat)
    requires !c.es.crashed && cc < 16 && Expects(c, PID_PMT, cc)
    requires c.program == NO_PROGRAM.(pmtPid := Some(PID_PMT))
    ensures FeedPacket(c, PsiPacket(PID_PMT, M.PmtSectionOf(known, version), cc)) == SetCc(AfterTables(c, known), PID_PMT, cc)
  {
    hide PsiPacket, FeedPacket, M.PmtSectionOf, FeedPmt, FeedPat, FeedPes, ProgramFor;
    FeedTablePacket(c, PID_PMT, M.PmtSectionOf(known, version), cc);
    PmtIsRead(c.program, c.allVideo, known, version);
  }

  lemma FeedLaterPmtPacket(c: Core, section: bytes, cc: nat)
    requires !c.es.crashed && cc < 16 && Expects(c, PID_PMT, cc) && |section| <= 183
    requires c.program.pmtPid == Some(PID_PMT) && c.program.parsed
    ensures FeedPacket(c, PsiPacket(PID_PMT, section, cc)) == SetCc(c, PID_PMT, cc)
  {
    hide PsiPacket, FeedPacket, FeedPat, FeedPes, AddStreams, Fill;
    FeedTablePacket(c, PID_PMT, section, cc);
  }

  /** The two table packets are understood the first time and change nothing afterwards. */
  lemma TablesAreRead(c: Core, m: M.State)
    requires !c.es.crashed && TablesReadOrAbsent(c.program)
    requires M.CcOf(m, PID_PAT) < 16 && M.CcOf(m, PID_PMT) < 16
    requires Expects(c, PID_PAT, M.CcOf(m, PID_PAT)) && Expects(c, PID_PMT, M.CcOf(m, PID_PMT))
    ensures Sized(M.PsiPackets(m))
    ensures FeedPackets(c, M.PsiPackets(m))
            == SetCc(SetCc(AfterTables(c, m.known), PID_PAT, M.CcOf(m, PID_PAT)), PID_PMT, M.CcOf(m, PID_PMT))
  {
    hide PsiPacket, FeedPacket, M.PmtSectionOf, BuildPat, M.CcOf, FeedPackets, ProgramFor;
    var patCc, pmtCc := M.CcOf(m, PID_PAT), M.CcOf(m, PID_PMT);
    var pat := PsiPacket(PID_PAT, BuildPat(PID_PMT), patCc);
    var pmt := PsiPacket(PID_PMT, M.PmtSectionOf(m.known, m.pmtVersion), pmtCc);
    FeedPatPacket(c, patCc);
    var c1 := FeedPacket(c, pat);
    if c1.program.parsed {
      FeedLaterPmtPacket(c1, M.PmtSectionOf(m.known, m.pmtVersion), pmtCc);
    } else {
      FeedFirstPmtPacket(c1, m.known, m.pmtVersion, pmtCc);
    }
    FeedCons(c, pat, [pmt]);
    FeedOne(c1, pmt);
    assert [pat] + [pmt] == M.PsiPackets(m);
  }

  lemma FeedOne(c: Core, p: bytes)
    requires |p| == PACKET_SIZE
    ensures Sized([p]) && FeedPackets(c, [p]) == FeedPacket(c, p)
  {
    hide FeedPacket;
    assert [p][1..] == [];
  }
}
