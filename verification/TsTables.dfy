// What the demultiplexer understands of any program and stream table (ISO/IEC 13818-1, section 2.4.4).
module TsTables {
  import opened Bytes
  import opened TsPackets
  import opened TsDemux

  // ----- the program table -----

  /** Number and table PID of each program. */
  function Programs(sec: bytes, i: nat, end: int): seq<(nat, nat)>
    decreases |sec| - i
  {
    if i + 4 > end || i + 4 > |sec| then []
    else [(sec[i] as int * 256 + sec[i + 1] as int, sec[i + 2] as int % 32 * 256 + sec[i + 3] as int)] + Programs(sec, i + 4, end)
  }

  /** The stream table is that of the first program whose number is not 0; number 0 is the network. */
  ghost predicate FirstProgram(found: Option<nat>, programs: seq<(nat, nat)>)
  {
    match found
    case None => forall k :: 0 <= k < |programs| ==> programs[k].0 == 0
    case Some(pid) =>
      exists k :: 0 <= k < |programs| && programs[k].0 != 0 && programs[k].1 == pid && forall j :: 0 <= j < k ==> programs[j].0 == 0
  }

  lemma FirstLater(found: Option<nat>, program: (nat, nat), rest: seq<(nat, nat)>)
    requires program.0 == 0 && FirstProgram(found, rest)
    ensures FirstProgram(found, [program] + rest)
  {
    var all := [program] + rest;
    if found.Some? {
      var k :| 0 <= k < |rest| && rest[k].0 != 0 && rest[k].1 == found.value && forall j :: 0 <= j < k ==> rest[j].0 == 0;
      assert all[k + 1] == rest[k];
      forall j | 0 <= j < k + 1 ensures all[j].0 == 0 {
        assert j > 0 ==> all[j] == rest[j - 1];
      }
    }
  }

  lemma FirstNow(program: (nat, nat), rest: seq<(nat, nat)>)
    requires program.0 != 0
    ensures FirstProgram(Some(program.1), [program] + rest)
  {
    assert ([program] + rest)[0] == program;
  }

  lemma {:induction false} FirstProgramIsFound(sec: bytes, i: nat, end: int)
    ensures FirstProgram(FindPmtPid(sec, i, end), Programs(sec, i, end))
    decreases |sec| - i
  {
    if i + 4 <= end && i + 4 <= |sec| {
      var program := (sec[i] as int * 256 + sec[i + 1] as int, sec[i + 2] as int % 32 * 256 + sec[i + 3] as int);
      if program.0 == 0 {
        FirstProgramIsFound(sec, i + 4, end);
        FirstLater(FindPmtPid(sec, i, end), program, Programs(sec, i + 4, end));
      } else {
        FirstNow(program, Programs(sec, i + 4, end));
      }
    }
  }

  /** A program table is obeyed once. */
  lemma ProgramTableIsRead(p: Program, payload: bytes, pusi: bool)
    ensures var p' := FeedPat(p, payload, pusi);
            && (p.pmtPid.Some? ==> p' == p)
            && (p.pmtPid.None? ==>
                  match PsiSectionOf(payload, pusi)
                  case None => p' == p
                  case Some(sec) => p' == p.(pmtPid := p'.pmtPid) && FirstProgram(p'.pmtPid, Programs(sec, 8, SectionEnd(sec))))
  {
    var sec := PsiSectionOf(payload, pusi);
    if sec.Some? {
      FirstProgramIsFound(sec.value, 8, SectionEnd(sec.value));
    }
    hide FindPmtPid, Programs, PsiSectionOf, SectionEnd, FirstProgram;
  }

  // ----- the stream table -----

  /** Type and PID of each stream; descriptors are passed over. */
  function StreamsIn(sec: bytes, i: nat, end: int): seq<PmtStream>
    decreases |sec| - i
  {
    if i + 5 > end || i + 5 > |sec| then []
    else
      [PmtStream(sec[i], sec[i + 1] as int % 32 * 256 + sec[i + 2] as int)]
      + StreamsIn(sec, i + 5 + (sec[i + 3] as int % 16 * 256 + sec[i + 4] as int), end)
  }

  predicate IsH264(s: PmtStream)
  {
    s.streamType == 0x1B
  }

  /** H.264, HEVC, MPEG-4, MPEG-2 and MPEG-1. */
  predicate IsVideo(s: PmtStream)
  {
    s.streamType == 0x1B || s.streamType == 0x24 || s.streamType == 0x10 || s.streamType == 0x02 || s.streamType == 0x01
  }

  /** AAC in ADTS or LATM. */
  predicate IsAac(s: PmtStream)
  {
    s.streamType == 0x0F || s.streamType == 0x11
  }

  function Pids(streams: seq<PmtStream>, keep: PmtStream -> bool): seq<nat>
  {
    if streams == [] then []
    else Pids(streams[..|streams| - 1], keep) + if keep(streams[|streams| - 1]) then [streams[|streams| - 1].pid] else []
  }

  function Types(streams: seq<PmtStream>): seq<byte>
  {
    if streams == [] then []
    else
      var last := streams[|streams| - 1];
      Types(streams[..|streams| - 1]) + if IsVideo(last) || IsAac(last) then [] else [last.streamType]
  }

  function FirstOnly(pids: seq<nat>): seq<nat>
  {
    if pids == [] then [] else [pids[0]]
  }

  /** The latest stream of H.264 on a PID. */
  predicate LastOn(streams: seq<PmtStream>, k: nat, pid: nat)
  {
    && k < |streams| && IsH264(streams[k]) && streams[k].pid == pid
    && forall j :: k < j < |streams| && IsH264(streams[j]) ==> streams[j].pid != pid
  }

  /** What a stream table says. With all video wanted, every H.264 stream is a track, numbered among all streams of video;
      otherwise only the first H.264 stream is one. Every AAC stream is a track, numbered as it comes. */
  ghost predicate Told(p: Program, allVideo: bool, streams: seq<PmtStream>)
  {
    && p.videoTracks == Pids(streams, IsVideo) && p.audioPids == Pids(streams, IsAac) && p.unsupported == Types(streams)
    && p.videoPids == (if allVideo then Pids(streams, IsH264) else FirstOnly(Pids(streams, IsH264)))
    && (forall pid :: pid in p.videoRole <==> pid in p.videoPids)
    && (!allVideo ==> forall pid :: pid in p.videoRole ==> p.videoRole[pid] == SingleVideo)
    && (allVideo ==> forall pid :: pid in p.videoRole ==>
          exists k: nat :: LastOn(streams, k, pid) && p.videoRole[pid] == VideoTrack(|Pids(streams[..k], IsVideo)|))
  }

  lemma PidsSnoc(streams: seq<PmtStream>, s: PmtStream, keep: PmtStream -> bool)
    ensures Pids(streams + [s], keep) == Pids(streams, keep) + if keep(s) then [s.pid] else []
  {
    assert (streams + [s])[..|streams|] == streams;
  }

  lemma ListsSnoc(streams: seq<PmtStream>, s: PmtStream)
    ensures var all := streams + [s];
            && Pids(all, IsVideo) == Pids(streams, IsVideo) + (if IsVideo(s) then [s.pid] else [])
            && Pids(all, IsAac) == Pids(streams, IsAac) + (if IsAac(s) then [s.pid] else [])
            && Pids(all, IsH264) == Pids(streams, IsH264) + (if IsH264(s) then [s.pid] else [])
            && Types(all) == Types(streams) + (if IsVideo(s) || IsAac(s) then [] else [s.streamType])
  {
    PidsSnoc(streams, s, IsVideo);
    PidsSnoc(streams, s, IsAac);
    PidsSnoc(streams, s, IsH264);
    assert (streams + [s])[..|streams|] == streams;
  }

  lemma RoleStays(streams: seq<PmtStream>, s: PmtStream, k: nat, pid: nat)
    requires LastOn(streams, k, pid) && (IsH264(s) ==> s.pid != pid)
    ensures LastOn(streams + [s], k, pid) && (streams + [s])[..k] == streams[..k]
  {
  }

  lemma RoleOfLast(streams: seq<PmtStream>, s: PmtStream)
    requires IsH264(s)
    ensures LastOn(streams + [s], |streams|, s.pid) && (streams + [s])[..|streams|] == streams
  {
  }

  lemma AddTellsLists(p: Program, allVideo: bool, streams: seq<PmtStream>, s: PmtStream)
    requires Told(p, allVideo, streams)
    ensures var (p', all) := (AddStream(p, allVideo, s.streamType, s.pid), streams + [s]);
            && p'.videoTracks == Pids(all, IsVideo) && p'.audioPids == Pids(all, IsAac) && p'.unsupported == Types(all)
            && p'.videoPids == (if allVideo then Pids(all, IsH264) else FirstOnly(Pids(all, IsH264)))
            && (forall pid :: pid in p'.videoRole <==> pid in p'.videoPids)
            && (!allVideo ==> forall pid :: pid in p'.videoRole ==> p'.videoRole[pid] == SingleVideo)
  {
    ListsSnoc(streams, s);
    hide Pids, Types, LastOn;
  }

  lemma AddTellsRoles(p: Program, streams: seq<PmtStream>, s: PmtStream, pid: nat)
    requires Told(p, true, streams) && pid in AddStream(p, true, s.streamType, s.pid).videoRole
    ensures var (p', all) := (AddStream(p, true, s.streamType, s.pid), streams + [s]);
            exists k: nat :: LastOn(all, k, pid) && p'.videoRole[pid] == VideoTrack(|Pids(all[..k], IsVideo)|)
  {
    var (p', all) := (AddStream(p, true, s.streamType, s.pid), streams + [s]);
    if IsH264(s) && s.pid == pid {
      RoleOfLast(streams, s);
      hide Pids, Types, LastOn;
      assert p'.videoRole[pid] == VideoTrack(|Pids(all[..|streams|], IsVideo)|);
    } else {
      var k: nat :| LastOn(streams, k, pid) && p.videoRole[pid] == VideoTrack(|Pids(streams[..k], IsVideo)|);
      RoleStays(streams, s, k, pid);
      hide Pids, Types, LastOn;
    }
  }

  lemma AddTells(p: Program, allVideo: bool, streams: seq<PmtStream>, s: PmtStream)
    requires Told(p, allVideo, streams)
    ensures Told(AddStream(p, allVideo, s.streamType, s.pid), allVideo, streams + [s])
  {
    AddTellsLists(p, allVideo, streams, s);
    if allVideo {
      var p' := AddStream(p, true, s.streamType, s.pid);
      forall pid | pid in p'.videoRole
        ensures exists k: nat :: LastOn(streams + [s], k, pid) && p'.videoRole[pid] == VideoTrack(|Pids((streams + [s])[..k], IsVideo)|)
      {
        AddTellsRoles(p, streams, s, pid);
      }
    }
    hide Pids, Types, LastOn, AddStream;
  }

  lemma {:induction false} AddAllTells(p: Program, allVideo: bool, before: seq<PmtStream>, sec: bytes, i: nat, end: int)
    requires Told(p, allVideo, before)
    ensures Told(AddStreams(p, allVideo, sec, i, end), allVideo, before + StreamsIn(sec, i, end))
    ensures AddStreams(p, allVideo, sec, i, end).pmtPid == p.pmtPid
    decreases |sec| - i
  {
    hide Told, AddStream;
    if i + 5 <= end && i + 5 <= |sec| {
      var s := PmtStream(sec[i], sec[i + 1] as int % 32 * 256 + sec[i + 2] as int);
      var next := i + 5 + (sec[i + 3] as int % 16 * 256 + sec[i + 4] as int);
      AddTells(p, allVideo, before, s);
      AddKeepsTable(p, allVideo, s.streamType, s.pid);
      AddAllTells(AddStream(p, allVideo, s.streamType, s.pid), allVideo, before + [s], sec, next, end);
      assert before + ([s] + StreamsIn(sec, next, end)) == (before + [s]) + StreamsIn(sec, next, end);
    } else {
      assert before + [] == before;
    }
  }

  lemma AddKeepsTable(p: Program, allVideo: bool, streamType: byte, pid: nat)
    ensures AddStream(p, allVideo, streamType, pid).pmtPid == p.pmtPid
  {
  }

  lemma NothingTold(p: Program, allVideo: bool)
    requires p == NO_PROGRAM.(pmtPid := p.pmtPid)
    ensures Told(p, allVideo, [])
  {
  }

  /** The first stream table long enough is understood as it stands, whatever its streams and descriptors; and no later
      one changes anything. */
  lemma StreamTableIsRead(p: Program, allVideo: bool, payload: bytes, pusi: bool)
    requires p.parsed || p == NO_PROGRAM.(pmtPid := p.pmtPid)
    ensures var p' := FeedPmt(p, allVideo, payload, pusi);
            && p'.pmtPid == p.pmtPid
            && (p.parsed ==> p' == p)
            && (!p.parsed ==>
                  match PsiSectionOf(payload, pusi)
                  case None => p' == p
                  case Some(sec) =>
                    if |sec| < 12 then p' == p
                    else
                      p'.parsed
                      && Told(p', allVideo, StreamsIn(sec, 12 + (sec[10] as int % 16 * 256 + sec[11] as int), SectionEnd(sec))))
  {
    var sec := PsiSectionOf(payload, pusi);
    if !p.parsed && sec.Some? && |sec.value| >= 12 {
      var s := sec.value;
      var i, end := 12 + (s[10] as int % 16 * 256 + s[11] as int), SectionEnd(s);
      NothingTold(p, allVideo);
      AddAllTells(p, allVideo, [], s, i, end);
      assert [] + StreamsIn(s, i, end) == StreamsIn(s, i, end);
      ParsedTold(AddStreams(p, allVideo, s, i, end), allVideo, StreamsIn(s, i, end));
    }
    hide StreamsIn, AddStreams, PsiSectionOf, SectionEnd, Told;
  }

  lemma ParsedTold(p: Program, allVideo: bool, streams: seq<PmtStream>)
    requires Told(p, allVideo, streams)
    ensures Told(p.(parsed := true), allVideo, streams)
  {
    hide Pids, Types, LastOn;
  }
}
