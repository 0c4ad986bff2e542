// The transport stream demultiplexer: a stream of octets in pieces of any size becomes FLV tags.
module TsDemux {
  import opened Bytes
  import opened TsClock
  import opened TsPackets
  import opened AnnexB
  import Flv

  /** The roles, written "video", "video0", "video1", ..., "audio0", "audio1", ... */
  datatype Role = SingleVideo | VideoTrack(index: nat) | AudioTrack(index: nat)

  datatype Tag = Tag(role: Role, tagType: byte, ts: int, payload: bytes)

  datatype ClockKey = VideoPts(pid: nat) | VideoDts(pid: nat) | AudioPts(pid: nat)

  /** What the program tables said. */
  datatype Program = Program(pmtPid: Option<nat>, parsed: bool, videoTracks: seq<nat>, videoPids: seq<nat>,
                             videoRole: map<nat, Role>, audioPids: seq<nat>, unsupported: seq<byte>)

  /** What the elementary streams left behind. A sequence parameter set under four octets long crashes the
      process, because its profile octets are read unchecked. */
  datatype Streams = Streams(sps: map<nat, bytes>, pps: map<nat, bytes>, aac: map<nat, (nat, nat, nat)>,
                             clocks: map<ClockKey, Unwrap>, base: Option<int>, out: seq<Tag>, crashed: bool)

  datatype Core = Core(allVideo: bool, program: Program, pes: map<nat, bytes>, pesOrder: seq<nat>,
                       es: Streams, cc: map<nat, nat>, gaps: nat)

  datatype State = State(buf: bytes, core: Core)

  const NO_PROGRAM := Program(None, false, [], [], map[], [], [])

  function Fresh(allVideo: bool): State
  {
    State([], Core(allVideo, NO_PROGRAM, map[], [], Streams(map[], map[], map[], map[], None, [], false), map[], 0))
  }

  // ----- tags -----

  function FlvVideoSeqHeader(config: bytes): bytes
  {
    [0x17, 0, 0, 0, 0] + config
  }

  function FlvVideoFrame(isKey: bool, ctsMs: int, avcc: bytes): bytes
  {
    [if isKey then 0x17 else 0x27, 1] + Be24((if ctsMs < 0 then 0 else ctsMs) % 0x100_0000) + avcc
  }

  function FlvAudioSeqHeader(asc: bytes): bytes
  {
    [0xAF, 0] + asc
  }

  function FlvAudioFrame(raw: bytes): bytes
  {
    [0xAF, 1] + raw
  }

  // ----- program tables -----

  function PsiSectionOf(payload: bytes, pusi: bool): Option<bytes>
  {
    if !pusi || |payload| == 0 || 1 + payload[0] as int > |payload| then None
    else
      var sec := payload[1 + payload[0] as int..];
      if |sec| < 8 then None else Some(sec)
  }

  function SectionEnd(sec: bytes): int
    requires |sec| >= 3
  {
    3 + (sec[1] as int % 16 * 256 + sec[2] as int) - 4
  }

  function PidAt(sec: bytes, i: nat): nat
    requires i + 2 <= |sec|
  {
    sec[i] as int % 32 * 256 + sec[i + 1] as int
  }

  /** The PMT's PID: that of the first program whose number is not 0. */
  function FindPmtPid(sec: bytes, i: nat, end: int): Option<nat>
    decreases |sec| - i
  {
    if i + 4 > end || i + 4 > |sec| then None
    else if sec[i] != 0 || sec[i + 1] != 0 then Some(PidAt(sec, i + 2))
    else FindPmtPid(sec, i + 4, end)
  }

  function FeedPat(p: Program, payload: bytes, pusi: bool): Program
  {
    var sec := PsiSectionOf(payload, pusi);
    if p.pmtPid.Some? || sec.None? then p
    else
      var found := FindPmtPid(sec.value, 8, SectionEnd(sec.value));
      if found.Some? then p.(pmtPid := found) else p
  }

  predicate IsVideoType(streamType: byte)
  {
    streamType == TYPE_H264 || streamType == 0x24 || streamType == 0x10 || streamType == 0x02 || streamType == 0x01
  }

  function AddStream(p: Program, allVideo: bool, streamType: byte, pid: nat): Program
  {
    if IsVideoType(streamType) then
      var p1 := p.(videoTracks := p.videoTracks + [pid]);
      if streamType == TYPE_H264 && (allVideo || p.videoPids == []) then
        p1.(videoPids := p.videoPids + [pid],
            videoRole := p.videoRole[pid := if allVideo then VideoTrack(|p.videoTracks|) else SingleVideo])
      else p1
    else if streamType == TYPE_AAC_ADTS || streamType == TYPE_AAC_LATM then
      p.(audioPids := p.audioPids + [pid])
    else p.(unsupported := p.unsupported + [streamType])
  }

  function AddStreams(p: Program, allVideo: bool, sec: bytes, i: nat, end: int): Program
    decreases |sec| - i
  {
    if i + 5 > end || i + 5 > |sec| then p
    else
      AddStreams(AddStream(p, allVideo, sec[i], PidAt(sec, i + 1)), allVideo, sec,
                 i + 5 + (sec[i + 3] as int % 16 * 256 + sec[i + 4] as int), end)
  }

  function FeedPmt(p: Program, allVideo: bool, payload: bytes, pusi: bool): Program
  {
    var sec := PsiSectionOf(payload, pusi);
    if p.parsed || sec.None? || |sec.value| < 12 then p
    else
      var s := sec.value;
      AddStreams(p, allVideo, s, 12 + (s[10] as int % 16 * 256 + s[11] as int), SectionEnd(s)).(parsed := true)
  }

  // ----- elementary streams -----

  function ClockAt(es: Streams, key: ClockKey): Unwrap
  {
    if key in es.clocks then es.clocks[key] else FRESH
  }

  function Tick(es: Streams, key: ClockKey, raw: int): Streams
  {
    es.(clocks := es.clocks[key := UnwrapStep(ClockAt(es, key), raw)])
  }

  /** The first clock converted becomes the origin of all timestamps. */
  function Anchor(es: Streams, clock: int): (r: Streams)
    ensures r.base.Some?
  {
    if es.base.Some? then es else es.(base := Some(clock))
  }

  function Milliseconds(es: Streams, clock: int): int
    requires es.base.Some?
  {
    RoundHalfEven(clock - es.base.value, 90)
  }

  function Emit(es: Streams, tag: Tag): Streams
  {
    es.(out := es.out + [tag])
  }

  function GetOr(m: map<nat, bytes>, pid: nat): bytes
  {
    if pid in m then m[pid] else []
  }

  function NalType(nal: bytes): nat
    requires |nal| > 0
  {
    nal[0] as int % 32
  }

  /** What one access unit brings: the last parameter sets, the coded slices, and whether one is an IDR slice. */
  datatype Scan = Scan(sps: bytes, pps: bytes, vcl: seq<bytes>, isKey: bool)

  function ScanNal(s: Scan, nal: bytes): Scan
  {
    if |nal| == 0 then s
    else
      var t := NalType(nal);
      if t == 7 then s.(sps := nal)
      else if t == 8 then s.(pps := nal)
      else if t == 1 || t == 5 then s.(vcl := s.vcl + [nal], isKey := s.isKey || t == 5)
      else s
  }

  const NOTHING := Scan([], [], [], false)

  function ScanNals(nals: seq<bytes>): Scan
  {
    if nals == [] then NOTHING else ScanNal(ScanNals(nals[..|nals| - 1]), nals[|nals| - 1])
  }

  /** New parameter sets become a codec header tag. */
  function TakeParameterSets(es: Streams, pid: nat, role: Role, s: Scan, dtsMs: int): Streams
  {
    if s.sps == [] || s.pps == [] || (GetOr(es.sps, pid) == s.sps && GetOr(es.pps, pid) == s.pps) then es
    else if |s.sps| < 4 then es.(crashed := true)
    else
      Emit(es.(sps := es.sps[pid := s.sps], pps := es.pps[pid := s.pps]),
           Tag(role, Flv.TAG_VIDEO, dtsMs, FlvVideoSeqHeader(BuildAvcConfig(s.sps, s.pps))))
  }

  function HandleVideo(es: Streams, pid: nat, role: Role, payload: bytes, ptsRaw: int, dtsRaw: int): Streams
  {
    var es1 := Tick(Tick(es, VideoPts(pid), ptsRaw), VideoDts(pid), dtsRaw);
    var dts := ClockAt(es1, VideoDts(pid)).prevUnwrapped;
    var es2 := Anchor(es1, dts);
    var dtsMs := Milliseconds(es2, dts);
    var ctsMs := Milliseconds(es2, ClockAt(es2, VideoPts(pid)).prevUnwrapped) - dtsMs;
    var s := ScanNals(NalUnits(payload));
    var es3 := TakeParameterSets(es2, pid, role, s, dtsMs);
    if es3.crashed || s.vcl == [] then es3
    else Emit(es3, Tag(role, Flv.TAG_VIDEO, dtsMs, FlvVideoFrame(s.isKey, ctsMs, Packed(s.vcl))))
  }

  const SAMPLE_RATES := [96000, 88200, 64000, 48000, 44100, 32000, 24000, 22050, 16000, 12000, 11025, 8000, 7350]

  function SampleRate(sfi: nat): (r: nat)
    ensures r > 0
  {
    if sfi < |SAMPLE_RATES| then SAMPLE_RATES[sfi] else 48000
  }

  function AacParams(es: Streams, pid: nat): (nat, nat, nat)
  {
    if pid in es.aac then es.aac[pid] else (0, 0, 0)
  }

  /** The header of the frame at offset, if the whole frame is there. */
  function FrameAt(payload: bytes, offset: nat): (r: Option<Adts>)
    ensures r.Some? ==> 7 <= r.value.headerLen <= r.value.frameLength && offset + r.value.frameLength <= |payload|
  {
    var h := ParseAdts(payload, offset);
    if h.None? || h.value.frameLength < h.value.headerLen || offset + h.value.frameLength > |payload| then None else h
  }

  function AudioFrame(es: Streams, pid: nat, role: Role, payload: bytes, offset: nat, h: Adts, ts: int): Streams
    requires FrameAt(payload, offset) == Some(h)
  {
    var params := (h.aot, h.sfi, h.channels);
    var es1 :=
      if AacParams(es, pid) == params then es
      else Emit(es.(aac := es.aac[pid := params]),
                Tag(role, Flv.TAG_AUDIO, ts, FlvAudioSeqHeader(BuildAsc(h.aot, h.sfi, h.channels))));
    Emit(es1, Tag(role, Flv.TAG_AUDIO, ts, FlvAudioFrame(payload[offset + h.headerLen..offset + h.frameLength])))
  }

  function FrameTs(baseMs: int, frameNo: nat, h: Adts): int
  {
    baseMs + RoundHalfEven(frameNo * 1024 * 1000, SampleRate(h.sfi))
  }

  function AudioFrames(es: Streams, pid: nat, role: Role, payload: bytes, offset: nat, frameNo: nat, baseMs: int): Streams
    decreases |payload| - offset
  {
    if offset >= |payload| then es
    else
      match FrameAt(payload, offset)
      case None => es
      case Some(h) =>
        AudioFrames(AudioFrame(es, pid, role, payload, offset, h, FrameTs(baseMs, frameNo, h)),
                    pid, role, payload, offset + h.frameLength, frameNo + 1, baseMs)
  }

  function HandleAudio(es: Streams, pid: nat, role: Role, payload: bytes, ptsRaw: int): Streams
  {
    var es1 := Tick(es, AudioPts(pid), ptsRaw);
    var pts := ClockAt(es1, AudioPts(pid)).prevUnwrapped;
    var es2 := Anchor(es1, pts);
    AudioFrames(es2, pid, role, payload, 0, 0, Milliseconds(es2, pts))
  }

  function IndexOf(pids: seq<nat>, pid: nat): (r: Option<nat>)
    ensures r.Some? ==> r.value < |pids| && pids[r.value] == pid
    ensures r.None? <==> pid !in pids
  {
    if pids == [] then None
    else if pids[0] == pid then Some(0)
    else
      match IndexOf(pids[1..], pid)
      case None => None
      case Some(i) => Some(i + 1)
  }

  function HandleEs(p: Program, es: Streams, pid: nat, unit: Pes): Streams
  {
    if pid in p.videoRole then HandleVideo(es, pid, p.videoRole[pid], unit.es, unit.ptsRaw, unit.dtsRaw)
    else
      match IndexOf(p.audioPids, pid)
      case None => es
      case Some(i) => HandleAudio(es, pid, AudioTrack(i), unit.es, unit.ptsRaw)
  }

  // ----- PES assembly -----

  /** The order without the first occurrence of a PID. */
  function Without(order: seq<nat>, pid: nat): seq<nat>
  {
    if order == [] then []
    else if order[0] == pid then order[1..]
    else [order[0]] + Without(order[1..], pid)
  }

  function FinalizePes(c: Core, pid: nat): Core
  {
    if pid !in c.pes then c
    else
      var c1 := c.(pes := c.pes - {pid}, pesOrder := Without(c.pesOrder, pid));
      match ParsePes(c.pes[pid])
      case None => c1
      case Some(unit) => c1.(es := HandleEs(c.program, c.es, pid, unit))
  }

  function SetPes(c: Core, pid: nat, data: bytes): Core
  {
    c.(pesOrder := if pid in c.pes then c.pesOrder else c.pesOrder + [pid], pes := c.pes[pid := data])
  }

  /** A unit start closes the PES before it on the same PID. */
  function FeedPes(c: Core, pid: nat, payload: bytes, pusi: bool): Core
  {
    if pusi then
      var c1 := if pid in c.pes && |c.pes[pid]| > 0 then FinalizePes(c, pid) else c;
      if c1.es.crashed then c1 else SetPes(c1, pid, payload)
    else if pid in c.pes then c.(pes := c.pes[pid := c.pes[pid] + payload])
    else c
  }

  predicate KnownStream(p: Program, pid: nat)
  {
    pid in p.videoRole || pid in p.audioPids
  }

  function CountPacket(c: Core, p: Packet): Core
    requires p.Packet?
  {
    var gap := p.pid in c.cc && p.control % 2 == 1 && p.cc != (c.cc[p.pid] + 1) % 16;
    c.(cc := c.cc[p.pid := p.cc], gaps := c.gaps + if gap then 1 else 0)
  }

  function RoutePayload(c: Core, pid: nat, payload: bytes, pusi: bool): Core
  {
    if pid == 0 then c.(program := FeedPat(c.program, payload, pusi))
    else if c.program.pmtPid == Some(pid) then c.(program := FeedPmt(c.program, c.allVideo, payload, pusi))
    else if KnownStream(c.program, pid) then FeedPes(c, pid, payload, pusi)
    else c
  }

  function FeedPacket(c: Core, pkt: bytes): Core
    requires |pkt| == PACKET_SIZE
  {
    var p := ParseTsPacket(pkt);
    if c.es.crashed || p.NoSync? || p.pid == NULL_PID then c
    else
      var c1 := CountPacket(c, p);
      if p.payload.None? then c1 else RoutePayload(c1, p.pid, p.payload.value, p.pusi)
  }

  /** All whole packets of the data; the rest waits for the next call. */
  function FeedBytes(c: Core, data: bytes): State
    decreases |data|
  {
    if |data| < PACKET_SIZE then State(data, c)
    else FeedBytes(FeedPacket(c, data[..PACKET_SIZE]), data[PACKET_SIZE..])
  }

  function Feed(d: State, data: bytes): State
  {
    FeedBytes(d.core, d.buf + data)
  }

  function FinalizeAll(c: Core, order: seq<nat>): Core
    decreases |order|
  {
    if order == [] || c.es.crashed then c else FinalizeAll(FinalizePes(c, order[0]), order[1..])
  }

  function Flush(d: State): State
  {
    d.(core := FinalizeAll(d.core, d.core.pesOrder))
  }

  // ----- the cut of the data into calls does not matter -----

  lemma {:induction false} FeedBytesSplits(c: Core, a: bytes, b: bytes)
    ensures FeedBytes(c, a + b) == Feed(FeedBytes(c, a), b)
    decreases |a|
  {
    if |a| >= PACKET_SIZE {
      assert (a + b)[..PACKET_SIZE] == a[..PACKET_SIZE] && (a + b)[PACKET_SIZE..] == a[PACKET_SIZE..] + b;
      FeedBytesSplits(FeedPacket(c, a[..PACKET_SIZE]), a[PACKET_SIZE..], b);
    }
  }

  function FeedAllPieces(d: State, pieces: seq<bytes>): State
    decreases |pieces|
  {
    if pieces == [] then d else FeedAllPieces(Feed(d, pieces[0]), pieces[1..])
  }

  /** However the data is cut into Feed calls, the demuxer ends in the same state. */
  lemma {:induction false} FeedIgnoresCuts(d: State, pieces: seq<bytes>)
    requires |d.buf| < PACKET_SIZE
    ensures FeedAllPieces(d, pieces) == Feed(d, Concat(pieces))
    decreases |pieces|
  {
    if pieces == [] {
      assert d.buf + [] == d.buf;
    } else {
      FeedLeavesLessThanPacket(d.core, d.buf + pieces[0]);
      FeedIgnoresCuts(Feed(d, pieces[0]), pieces[1..]);
      FeedBytesSplits(d.core, d.buf + pieces[0], Concat(pieces[1..]));
      assert d.buf + pieces[0] + Concat(pieces[1..]) == d.buf + Concat(pieces);
    }
  }

  lemma {:induction false} FeedLeavesLessThanPacket(c: Core, data: bytes)
    ensures |FeedBytes(c, data).buf| < PACKET_SIZE
    decreases |data|
  {
    if |data| >= PACKET_SIZE {
      FeedLeavesLessThanPacket(FeedPacket(c, data[..PACKET_SIZE]), data[PACKET_SIZE..]);
    }
  }
}
