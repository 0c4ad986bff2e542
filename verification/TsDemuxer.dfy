// The demultiplexer object. Every method is proved to take the step its function in TsDemux describes.
module TsDemuxer {
  import opened Bytes
  import opened TsClock
  import opened TsPackets
  import opened AnnexB
  import D = TsDemux
  import Flv

  lemma PackedSnoc(nals: seq<bytes>, nal: bytes)
    ensures Packed(nals + [nal]) == Packed(nals) + Be32(|nal|) + nal
  {
    if nals == [] {
      assert [nal][1..] == [] && nals + [nal] == [nal];
    } else {
      assert (nals + [nal])[1..] == nals[1..] + [nal];
      PackedSnoc(nals[1..], nal);
    }
  }

  /** What the index search over the audio PIDs still has to find. */
  function SearchFrom(pids: seq<nat>, pid: nat, k: nat): Option<nat>
    requires k <= |pids|
  {
    match D.IndexOf(pids[k..], pid)
    case None => None
    case Some(i) => Some(k + i)
  }

  lemma SearchStep(pids: seq<nat>, pid: nat, k: nat)
    requires k < |pids|
    ensures SearchFrom(pids, pid, k) == if pids[k] == pid then Some(k) else SearchFrom(pids, pid, k + 1)
  {
    assert pids[k..][1..] == pids[k + 1..];
  }

  /** Without, one position of its search at a time. */
  lemma WithoutStep(order: seq<nat>, pid: nat, k: nat)
    requires k < |order|
    ensures order[..k] + D.Without(order[k..], pid)
            == if order[k] == pid then order[..k] + order[k + 1..]
               else order[..k + 1] + D.Without(order[k + 1..], pid)
  {
    assert order[k..][1..] == order[k + 1..];
  }

  /** Removes the first occurrence of a PID. */
  method Delist(order: seq<nat>, pid: nat) returns (r: seq<nat>)
    ensures r == D.Without(order, pid)
  {
    assert order[0..] == order && order[..0] + D.Without(order, pid) == D.Without(order, pid);
    for i := 0 to |order|
      invariant order[..i] + D.Without(order[i..], pid) == D.Without(order, pid)
    {
      WithoutStep(order, pid, i);
      if order[i] == pid {
        return order[..i] + order[i + 1..];
      }
    }
    assert order[..|order|] == order && D.Without(order[|order|..], pid) == [];
    return order;
  }

  /** The place of a PID among the audio tracks. */
  method FindTrack(pids: seq<nat>, pid: nat) returns (r: Option<nat>)
    ensures r == D.IndexOf(pids, pid)
  {
    hide D.IndexOf;
    assert pids[0..] == pids;
    for k := 0 to |pids|
      invariant SearchFrom(pids, pid, k) == D.IndexOf(pids, pid)
    {
      SearchStep(pids, pid, k);
      if pids[k] == pid {
        return Some(k);
      }
    }
    return None;
  }

  class Demuxer {
    const allVideo: bool
    var buf: bytes
    var patPmtPid: Option<nat>
    var pmtParsed: bool
    var videoTracks: seq<nat>
    var videoPids: seq<nat>
    var videoRole: map<nat, D.Role>
    var audioPids: seq<nat>
    var unsupported: seq<byte>
    var pes: map<nat, bytes>
    var pesOrder: seq<nat>
    var sps: map<nat, bytes>
    var pps: map<nat, bytes>
    var aacParams: map<nat, (nat, nat, nat)>
    var ptsUnwrap: map<D.ClockKey, Unwrap>
    var base90k: Option<int>
    var cc: map<nat, nat>
    var gapsLogged: nat
    var emitted: seq<D.Tag>
    var crashed: bool

    function Tables(): D.Program
      reads this
    {
      D.Program(patPmtPid, pmtParsed, videoTracks, videoPids, videoRole, audioPids, unsupported)
    }

    function Es(): D.Streams
      reads this
    {
      D.Streams(sps, pps, aacParams, ptsUnwrap, base90k, emitted, crashed)
    }

    function Now(): D.Core
      reads this
    {
      D.Core(allVideo, Tables(), pes, pesOrder, Es(), cc, gapsLogged)
    }

    function Abs(): D.State
      reads this
    {
      D.State(buf, Now())
    }

    constructor (allVideoTracks: bool)
      ensures Abs() == D.Fresh(allVideoTracks)
    {
      allVideo := allVideoTracks;
      buf, patPmtPid, pmtParsed := [], None, false;
      videoTracks, videoPids, videoRole, audioPids, unsupported := [], [], map[], [], [];
      pes, pesOrder, sps, pps, aacParams := map[], [], map[], map[], map[];
      ptsUnwrap, base90k, cc, gapsLogged, emitted, crashed := map[], None, map[], 0, [], false;
    }

    method Feed(data: bytes)
      modifies this
      ensures Abs() == D.Feed(old(Abs()), data)
    {
      hide D.FeedPacket;
      buf := buf + data;
      var n := |buf| / PACKET_SIZE * PACKET_SIZE;
      var i := 0;
      ghost var all, before := buf, old(Now());
      assert all[0..] == all;
      while i < n
        invariant 0 <= i <= n && i % PACKET_SIZE == 0 && buf == all
        invariant D.FeedBytes(Now(), all[i..]) == D.FeedBytes(before, all)
      {
        assert all[i..][..PACKET_SIZE] == all[i..i + PACKET_SIZE] && all[i..][PACKET_SIZE..] == all[i + PACKET_SIZE..];
        FeedPacket(buf[i..i + PACKET_SIZE]);
        i := i + PACKET_SIZE;
      }
      buf := buf[n..];
    }

    method FeedPacket(pkt: bytes)
      requires |pkt| == PACKET_SIZE
      modifies this
      ensures Abs() == old(Abs()).(core := D.FeedPacket(old(Now()), pkt))
    {
      hide D.RoutePayload, ParseTsPacket;
      var p := ParseTsPacket(pkt);
      if crashed || p.NoSync? || p.pid == NULL_PID {
        return;
      }
      if p.pid in cc && p.control % 2 == 1 && p.cc != (cc[p.pid] + 1) % 16 {
        gapsLogged := gapsLogged + 1;
      }
      cc := cc[p.pid := p.cc];
      if p.payload.Some? {
        RoutePayload(p.pid, p.payload.value, p.pusi);
      }
    }

    method RoutePayload(pid: nat, payload: bytes, pusi: bool)
      modifies this
      ensures Now() == D.RoutePayload(old(Now()), pid, payload, pusi) && buf == old(buf)
    {
      hide D.FeedPat, D.FeedPmt, D.FeedPes;
      if pid == 0 {
        FeedPat(payload, pusi);
        assert Now() == old(Now()).(program := Tables());
      } else if patPmtPid == Some(pid) {
        FeedPmt(payload, pusi);
        assert Now() == old(Now()).(program := Tables());
      } else if pid in videoRole || pid in audioPids {
        FeedPes(pid, payload, pusi);
      }
    }

    method FeedPat(payload: bytes, pusi: bool)
      modifies `patPmtPid
      ensures Tables() == D.FeedPat(old(Tables()), payload, pusi)
    {
      if patPmtPid.Some? {
        return;
      }
      var section := D.PsiSectionOf(payload, pusi);
      if section.None? {
        return;
      }
      var sec := section.value;
      var end := D.SectionEnd(sec);
      var i := 8;
      while i + 4 <= end && i + 4 <= |sec|
        invariant 8 <= i
        invariant D.FindPmtPid(sec, i, end) == D.FindPmtPid(sec, 8, end)
        invariant patPmtPid.None?
        decreases |sec| - i
      {
        if sec[i] != 0 || sec[i + 1] != 0 {
          patPmtPid := Some(D.PidAt(sec, i + 2));
          return;
        }
        i := i + 4;
      }
    }

    method FeedPmt(payload: bytes, pusi: bool)
      modifies `pmtParsed, `videoTracks, `videoPids, `videoRole, `audioPids, `unsupported
      ensures Tables() == D.FeedPmt(old(Tables()), allVideo, payload, pusi)
    {
      hide D.AddStream;
      if pmtParsed {
        return;
      }
      var section := D.PsiSectionOf(payload, pusi);
      if section.None? || |section.value| < 12 {
        return;
      }
      var sec := section.value;
      var end := D.SectionEnd(sec);
      var i := 12 + (sec[10] as int % 16 * 256 + sec[11] as int);
      ghost var start := i;
      while i + 5 <= end && i + 5 <= |sec|
        invariant i >= 12
        invariant D.AddStreams(Tables(), allVideo, sec, i, end) == D.AddStreams(old(Tables()), allVideo, sec, start, end)
        decreases |sec| - i
      {
        AddStream(sec[i], D.PidAt(sec, i + 1));
        i := i + 5 + (sec[i + 3] as int % 16 * 256 + sec[i + 4] as int);
      }
      pmtParsed := true;
    }

    method AddStream(streamType: byte, pid: nat)
      modifies `videoTracks, `videoPids, `videoRole, `audioPids, `unsupported
      ensures Tables() == D.AddStream(old(Tables()), allVideo, streamType, pid)
    {
      if D.IsVideoType(streamType) {
        var index := |videoTracks|;
        videoTracks := videoTracks + [pid];
        if streamType == TYPE_H264 && (allVideo || |videoPids| == 0) {
          videoPids := videoPids + [pid];
          if allVideo {
            videoRole := videoRole[pid := D.VideoTrack(index)];
          } else {
            videoRole := videoRole[pid := D.SingleVideo];
          }
        }
      } else if streamType == TYPE_AAC_ADTS || streamType == TYPE_AAC_LATM {
        audioPids := audioPids + [pid];
      } else {
        unsupported := unsupported + [streamType];
      }
    }

    method FeedPes(pid: nat, payload: bytes, pusi: bool)
      modifies `pes, `pesOrder, `sps, `pps, `aacParams, `ptsUnwrap, `base90k, `emitted, `crashed
      ensures Now() == D.FeedPes(old(Now()), pid, payload, pusi)
    {
      hide D.FinalizePes;
      if pusi {
        if pid in pes && |pes[pid]| > 0 {
          FinalizePes(pid);
        }
        if crashed {
          return;
        }
        if pid !in pes {
          pesOrder := pesOrder + [pid];
        }
        pes := pes[pid := payload];
      } else if pid in pes {
        pes := pes[pid := pes[pid] + payload];
      }
    }

    /** Takes an assembly out of the table and out of the order. */
    method RemovePes(pid: nat) returns (data: Option<bytes>)
      modifies `pes, `pesOrder
      ensures data == if pid in old(pes) then Some(old(pes)[pid]) else None
      ensures pid in old(pes) ==> Now() == old(Now()).(pes := old(pes) - {pid}, pesOrder := D.Without(old(pesOrder), pid))
      ensures pid !in old(pes) ==> Now() == old(Now())
    {
      if pid !in pes {
        return None;
      }
      data := Some(pes[pid]);
      pes := pes - {pid};
      pesOrder := Delist(pesOrder, pid);
    }

    method FinalizePes(pid: nat)
      modifies `pes, `pesOrder, `sps, `pps, `aacParams, `ptsUnwrap, `base90k, `emitted, `crashed
      ensures Now() == D.FinalizePes(old(Now()), pid)
    {
      hide ParsePes, D.HandleEs, D.Without;
      var data := RemovePes(pid);
      if data.None? {
        return;
      }
      var unit := ParsePes(data.value);
      if unit.Some? {
        HandleEs(pid, unit.value);
      }
    }

    method HandleEs(pid: nat, unit: Pes)
      modifies `sps, `pps, `aacParams, `ptsUnwrap, `base90k, `emitted, `crashed
      ensures Es() == D.HandleEs(Tables(), old(Es()), pid, unit)
    {
      hide D.HandleVideo, D.HandleAudio, D.IndexOf;
      if pid in videoRole {
        HandleVideo(pid, unit.es, unit.ptsRaw, unit.dtsRaw);
        return;
      }
      var idx := FindTrack(audioPids, pid);
      if idx.Some? {
        HandleAudio(pid, idx.value, unit.es, unit.ptsRaw);
      }
    }

    method Tick(key: D.ClockKey, raw: int) returns (unwrapped: int)
      modifies `ptsUnwrap
      ensures Es() == D.Tick(old(Es()), key, raw) && unwrapped == D.ClockAt(Es(), key).prevUnwrapped
    {
      if key !in ptsUnwrap {
        ptsUnwrap := ptsUnwrap[key := FRESH];
      }
      ptsUnwrap := ptsUnwrap[key := UnwrapStep(ptsUnwrap[key], raw)];
      unwrapped := ptsUnwrap[key].prevUnwrapped;
    }

    method ToMs(clock: int) returns (ms: int)
      modifies `base90k
      ensures Es() == D.Anchor(old(Es()), clock) && ms == D.Milliseconds(Es(), clock)
    {
      if base90k.None? {
        base90k := Some(clock);
      }
      ms := RoundHalfEven(clock - base90k.value, 90);
    }

    method HandleVideo(pid: nat, payload: bytes, ptsRaw: int, dtsRaw: int)
      requires pid in videoRole
      modifies `sps, `pps, `ptsUnwrap, `base90k, `emitted, `crashed
      ensures Es() == D.HandleVideo(old(Es()), pid, videoRole[pid], payload, ptsRaw, dtsRaw)
    {
      hide NalUnits, D.Tick, D.ScanNals, D.Milliseconds, D.ClockAt, D.TakeParameterSets, D.FlvVideoFrame, Packed;
      var pts := Tick(D.VideoPts(pid), ptsRaw);
      var dts := Tick(D.VideoDts(pid), dtsRaw);
      TicksApart(old(Es()), pid, ptsRaw, dtsRaw);
      ghost var es1 := Es();
      var dtsMs := ToMs(dts);
      ghost var es2 := Es();
      AnchorKeepsClock(es1, dts, D.VideoPts(pid));
      var ptsMs := ToMs(pts);
      assert Es() == es2;
      var newSps, newPps, vcl, isKey := ScanUnit(payload);
      EmitVideo(pid, videoRole[pid], newSps, newPps, vcl, isKey, dtsMs, ptsMs - dtsMs);
    }

    method EmitVideo(pid: nat, role: D.Role, newSps: bytes, newPps: bytes, vcl: seq<bytes>, isKey: bool, dtsMs: int, ctsMs: int)
      modifies `sps, `pps, `emitted, `crashed
      ensures var es3 := D.TakeParameterSets(old(Es()), pid, role, D.Scan(newSps, newPps, vcl, isKey), dtsMs);
              Es() == if es3.crashed || vcl == [] then es3
                      else D.Emit(es3, D.Tag(role, Flv.TAG_VIDEO, dtsMs, D.FlvVideoFrame(isKey, ctsMs, Packed(vcl))))
    {
      hide D.TakeParameterSets, D.FlvVideoFrame, Packed;
      ghost var s := D.Scan(newSps, newPps, vcl, isKey);
      NoParameterSets(Es(), pid, role, s, dtsMs);
      if |newSps| > 0 && |newPps| > 0 {
        TakeParameterSets(pid, role, newSps, newPps, dtsMs, s);
      }
      if crashed || |vcl| == 0 {
        return;
      }
      var avcc := Pack(vcl);
      emitted := emitted + [D.Tag(role, Flv.TAG_VIDEO, dtsMs, D.FlvVideoFrame(isKey, ctsMs, avcc))];
    }

    method ScanUnit(payload: bytes) returns (newSps: bytes, newPps: bytes, vcl: seq<bytes>, isKey: bool)
      ensures D.Scan(newSps, newPps, vcl, isKey) == D.ScanNals(NalUnits(payload))
    {
      var nals := SplitNalUnits(payload);
      hide NalUnits;
      newSps, newPps, vcl, isKey := [], [], [], false;
      for i := 0 to |nals|
        invariant D.Scan(newSps, newPps, vcl, isKey) == D.ScanNals(nals[..i])
      {
        assert nals[..i + 1][..i] == nals[..i];
        var nal := nals[i];
        if |nal| > 0 {
          var t := D.NalType(nal);
          if t == 7 {
            newSps := nal;
          } else if t == 8 {
            newPps := nal;
          } else if t == 1 || t == 5 {
            vcl := vcl + [nal];
            isKey := isKey || t == 5;
          }
        }
      }
      assert nals[..|nals|] == nals;
    }

    method TakeParameterSets(pid: nat, role: D.Role, newSps: bytes, newPps: bytes, dtsMs: int, ghost s: D.Scan)
      requires |newSps| > 0 && |newPps| > 0 && s.sps == newSps && s.pps == newPps
      modifies `sps, `pps, `emitted, `crashed
      ensures Es() == D.TakeParameterSets(old(Es()), pid, role, s, dtsMs)
    {
      hide BuildAvcConfig;
      if D.GetOr(sps, pid) == newSps && D.GetOr(pps, pid) == newPps {
        return;
      }
      if |newSps| < 4 {
        crashed := true;
        return;
      }
      sps := sps[pid := newSps];
      pps := pps[pid := newPps];
      emitted := emitted + [D.Tag(role, Flv.TAG_VIDEO, dtsMs, D.FlvVideoSeqHeader(BuildAvcConfig(newSps, newPps)))];
    }

    method Pack(nals: seq<bytes>) returns (avcc: bytes)
      ensures avcc == Packed(nals)
    {
      avcc := [];
      for i := 0 to |nals|
        invariant avcc == Packed(nals[..i])
      {
        PackedSnoc(nals[..i], nals[i]);
        assert nals[..i + 1] == nals[..i] + [nals[i]];
        avcc := avcc + Be32(|nals[i]|) + nals[i];
      }
      assert nals[..|nals|] == nals;
    }

    method HandleAudio(pid: nat, idx: nat, payload: bytes, ptsRaw: int)
      modifies `aacParams, `ptsUnwrap, `base90k, `emitted
      ensures Es() == D.HandleAudio(old(Es()), pid, D.AudioTrack(idx), payload, ptsRaw)
    {
      hide D.FrameAt, D.AudioFrame, D.FrameTs, D.Milliseconds, D.Tick;
      var pts := Tick(D.AudioPts(pid), ptsRaw);
      var baseMs := ToMs(pts);
      var role := D.AudioTrack(idx);
      var offset, frameNo := 0, 0;
      ghost var es2 := Es();
      while offset < |payload|
        invariant D.AudioFrames(Es(), pid, role, payload, offset, frameNo, baseMs)
                  == D.AudioFrames(es2, pid, role, payload, 0, 0, baseMs)
        decreases |payload| - offset
      {
        var hdr := D.FrameAt(payload, offset);
        if hdr.None? {
          break;
        }
        EmitAudio(pid, role, payload, offset, hdr.value, D.FrameTs(baseMs, frameNo, hdr.value));
        offset := offset + hdr.value.frameLength;
        frameNo := frameNo + 1;
      }
    }

    method EmitAudio(pid: nat, role: D.Role, payload: bytes, offset: nat, hdr: Adts, ts: int)
      requires D.FrameAt(payload, offset) == Some(hdr)
      modifies `aacParams, `emitted
      ensures Es() == D.AudioFrame(old(Es()), pid, role, payload, offset, hdr, ts)
    {
      hide D.FrameAt, BuildAsc;
      var params := (hdr.aot, hdr.sfi, hdr.channels);
      var current := if pid in aacParams then aacParams[pid] else (0, 0, 0);
      if current != params {
        aacParams := aacParams[pid := params];
        emitted := emitted + [D.Tag(role, Flv.TAG_AUDIO, ts, D.FlvAudioSeqHeader(BuildAsc(hdr.aot, hdr.sfi, hdr.channels)))];
      }
      emitted := emitted + [D.Tag(role, Flv.TAG_AUDIO, ts, D.FlvAudioFrame(payload[offset + hdr.headerLen..offset + hdr.frameLength]))];
    }

    /** Closes every unfinished unit, in the order the units began. */
    method Flush()
      modifies this
      ensures Abs() == D.Flush(old(Abs()))
    {
      hide D.FinalizePes;
      var order := pesOrder;
      var k := 0;
      while k < |order| && !crashed
        invariant 0 <= k <= |order| && buf == old(buf)
        invariant D.FinalizeAll(Now(), order[k..]) == D.FinalizeAll(old(Now()), old(pesOrder))
      {
        assert order[k..][1..] == order[k + 1..];
        FinalizePes(order[k]);
        k := k + 1;
      }
    }
  }

  lemma TicksApart(es: D.Streams, pid: nat, ptsRaw: int, dtsRaw: int)
    ensures var es1 := D.Tick(D.Tick(es, D.VideoPts(pid), ptsRaw), D.VideoDts(pid), dtsRaw);
            D.ClockAt(es1, D.VideoPts(pid)) == D.ClockAt(D.Tick(es, D.VideoPts(pid), ptsRaw), D.VideoPts(pid))
  {
  }

  lemma AnchorKeepsClock(es: D.Streams, clock: int, key: D.ClockKey)
    ensures D.ClockAt(D.Anchor(es, clock), key) == D.ClockAt(es, key)
  {
  }

  lemma NoParameterSets(es: D.Streams, pid: nat, role: D.Role, s: D.Scan, dtsMs: int)
    ensures |s.sps| == 0 || |s.pps| == 0 ==> D.TakeParameterSets(es, pid, role, s, dtsMs) == es
  {
  }
}
