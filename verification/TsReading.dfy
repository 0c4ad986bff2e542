// What the demultiplexer makes of any stream at all: for each of its tracks, just what the track's finished units say.
module TsReading {
  import opened Bytes
  import opened TsPackets
  import opened TsDemux
  import opened TsAnnounce
  import opened TsCrash

  /** What the finished units of one PID held, those that were a PES with a stamp. */
  function EsOn(units: seq<Unit>, pid: nat): seq<bytes>
  {
    if units == [] then []
    else
      var last := units[|units| - 1];
      EsOn(units[..|units| - 1], pid)
      + if last.pid == pid && ParsePes(last.data).Some? then [ParsePes(last.data).value.es] else []
  }

  lemma EsSnoc(units: seq<Unit>, u: Unit, pid: nat)
    ensures EsOn(units + [u], pid) == EsOn(units, pid) + if u.pid == pid && ParsePes(u.data).Some? then [ParsePes(u.data).value.es] else []
  {
    hide ParsePes;
    assert (units + [u])[..|units|] == units;
  }

  function RoleIn(p: Program, pid: nat): Role
    requires KnownStream(p, pid)
  {
    if pid in p.videoRole then p.videoRole[pid] else AudioTrack(IndexOf(p.audioPids, pid).value)
  }

  /** One track's account. */
  predicate TrackTold(es: Streams, p: Program, pid: nat, units: seq<bytes>)
    requires KnownStream(p, pid)
  {
    if pid in p.videoRole then VideoTold(es, pid, RoleIn(p, pid), units) else AudioTold(es, pid, RoleIn(p, pid), units)
  }

  // ----- roles -----

  /** No two streams have one role. */
  ghost predicate RolesOk(p: Program, allVideo: bool)
  {
    && (forall a :: a in p.videoRole ==>
          if allVideo then p.videoRole[a].VideoTrack? && p.videoRole[a].index < |p.videoTracks|
          else p.videoRole[a].SingleVideo? && p.videoPids != [])
    && (forall a, b :: a in p.videoRole && b in p.videoRole && a != b ==> p.videoRole[a] != p.videoRole[b])
  }

  lemma AddKeepsRoles(p: Program, allVideo: bool, streamType: byte, pid: nat)
    requires RolesOk(p, allVideo)
    ensures RolesOk(AddStream(p, allVideo, streamType, pid), allVideo)
  {
  }

  lemma {:induction false} AddAllKeepsRoles(p: Program, allVideo: bool, sec: bytes, i: nat, end: int)
    requires RolesOk(p, allVideo)
    ensures RolesOk(AddStreams(p, allVideo, sec, i, end), allVideo)
    decreases |sec| - i
  {
    hide AddStream, RolesOk;
    if i + 5 <= end && i + 5 <= |sec| {
      var p1 := AddStream(p, allVideo, sec[i], PidAt(sec, i + 1));
      AddKeepsRoles(p, allVideo, sec[i], PidAt(sec, i + 1));
      AddAllKeepsRoles(p1, allVideo, sec, i + 5 + (sec[i + 3] as int % 16 * 256 + sec[i + 4] as int), end);
    }
  }

  lemma {:induction false} IndexDiffers(pids: seq<nat>, a: nat, b: nat)
    requires a in pids && b in pids && a != b
    ensures IndexOf(pids, a) != IndexOf(pids, b)
  {
    assert IndexOf(pids, a).Some? && IndexOf(pids, b).Some?;
  }

  lemma RolesDiffer(p: Program, allVideo: bool, a: nat, b: nat)
    requires RolesOk(p, allVideo) && KnownStream(p, a) && KnownStream(p, b) && a != b
    ensures RoleIn(p, a) != RoleIn(p, b)
  {
    if a !in p.videoRole && b !in p.videoRole {
      IndexDiffers(p.audioPids, a, b);
    }
  }

  // ----- the account -----

  /** Before the stream table is read, nothing has come out. */
  predicate Blank(c: Core)
  {
    && c.program.videoRole == map[] && c.program.audioPids == [] && c.program.videoPids == [] && c.program.videoTracks == []
    && c.pes == map[] && c.es.out == [] && c.es.sps == map[] && c.es.pps == map[] && c.es.aac == map[]
  }

  ghost predicate ReadTold(c: Core, units: seq<Unit>)
  {
    && RolesOk(c.program, c.allVideo)
    && (!c.program.parsed ==> Blank(c) && units == [])
    && (forall pid :: KnownStream(c.program, pid) ==> TrackTold(c.es, c.program, pid, EsOn(units, pid)))
    && (forall pid :: pid in c.pes ==> KnownStream(c.program, pid))
  }

  lemma HandledIsTold(c: Core, units: seq<Unit>, pid: nat, es': Streams, u: Unit)
    requires ReadTold(c, units) && !c.es.crashed && KnownStream(c.program, pid) && u.pid == pid && ParsePes(u.data).Some?
    requires es' == HandleEs(c.program, c.es, pid, ParsePes(u.data).value) && !es'.crashed
    ensures forall q :: KnownStream(c.program, q) ==> TrackTold(es', c.program, q, EsOn(units + [u], q))
  {
    hide ParsePes, HandleVideo, HandleAudio, VideoTold, AudioTold, OthersKept, RolesOk, EsOn;
    var p, unit := c.program, ParsePes(u.data).value;
    assert TrackTold(c.es, p, pid, EsOn(units, pid));
    if pid in p.videoRole {
      VideoAnnounces(c.es, pid, RoleIn(p, pid), unit.es, unit.ptsRaw, unit.dtsRaw, EsOn(units, pid));
    } else {
      AudioAnnounces(c.es, pid, RoleIn(p, pid), unit.es, unit.ptsRaw, EsOn(units, pid));
    }
    assert OthersKept(c.es, es', pid, RoleIn(p, pid));
    forall q | KnownStream(p, q) ensures TrackTold(es', p, q, EsOn(units + [u], q)) {
      EsSnoc(units, u, q);
      if q != pid {
        assert TrackTold(c.es, p, q, EsOn(units, q));
        RolesDiffer(p, c.allVideo, pid, q);
        OthersStay(c.es, es', pid, RoleIn(p, pid), q, RoleIn(p, q), EsOn(units, q));
        assert EsOn(units, q) + [] == EsOn(units, q);
      }
    }
  }

  lemma UnreadIsTold(c: Core, units: seq<Unit>, u: Unit)
    requires ReadTold(c, units) && ParsePes(u.data).None?
    ensures forall q :: KnownStream(c.program, q) ==> TrackTold(c.es, c.program, q, EsOn(units + [u], q))
  {
    hide ParsePes, VideoTold, AudioTold, RolesOk, EsOn;
    forall q | KnownStream(c.program, q) ensures TrackTold(c.es, c.program, q, EsOn(units + [u], q)) {
      EsSnoc(units, u, q);
      assert TrackTold(c.es, c.program, q, EsOn(units, q));
      assert EsOn(units, q) + [] == EsOn(units, q);
    }
  }

  lemma FinalizeIsTold(c: Core, units: seq<Unit>, pid: nat)
    requires ReadTold(c, units) && !c.es.crashed
    ensures var c' := FinalizePes(c, pid);
            !c'.es.crashed ==> ReadTold(c', units + UnitOf(c, pid)) && c'.program == c.program && c'.allVideo == c.allVideo && pid !in c'.pes
  {
    hide ParsePes, HandleEs, TrackTold, RolesOk, EsOn, Blank;
    assert units + [] == units;
    if pid in c.pes {
      var u := Unit(pid, pid in c.program.videoRole, c.pes[pid]);
      NotBlank(c, pid);
      if ParsePes(u.data).Some? {
        if !FinalizePes(c, pid).es.crashed {
          HandledIsTold(c, units, pid, HandleEs(c.program, c.es, pid, ParsePes(u.data).value), u);
        }
      } else {
        UnreadIsTold(c, units, u);
      }
    }
  }

  lemma NotBlank(c: Core, pid: nat)
    requires pid in c.pes
    ensures !Blank(c)
  {
  }

  lemma StartIsTold(c: Core, units: seq<Unit>, pid: nat, payload: bytes)
    requires ReadTold(c, units) && KnownStream(c.program, pid)
    ensures ReadTold(SetPes(c, pid, payload), units)
    ensures pid in c.pes ==> ReadTold(c.(pes := c.pes[pid := payload]), units)
  {
    hide TrackTold, RolesOk, EsOn;
  }

  lemma PesIsTold(c: Core, units: seq<Unit>, pid: nat, payload: bytes, pusi: bool)
    requires ReadTold(c, units) && !c.es.crashed && KnownStream(c.program, pid)
    ensures var c' := FeedPes(c, pid, payload, pusi);
            var news := if pusi && pid in c.pes && |c.pes[pid]| > 0 then UnitOf(c, pid) else [];
            !c'.es.crashed ==> ReadTold(c', units + news)
  {
    hide ReadTold, FinalizePes, SetPes, EsOn, UnitOf;
    assert units + [] == units;
    if pusi {
      if pid in c.pes && |c.pes[pid]| > 0 {
        FinalizeIsTold(c, units, pid);
        var c1 := FinalizePes(c, pid);
        if !c1.es.crashed {
          StartIsTold(c1, units + UnitOf(c, pid), pid, payload);
        }
      } else {
        StartIsTold(c, units, pid, payload);
      }
    } else if pid in c.pes {
      StartIsTold(c, units, pid, c.pes[pid] + payload);
    }
  }

  lemma PatIsTold(c: Core, units: seq<Unit>, payload: bytes, pusi: bool)
    requires ReadTold(c, units)
    ensures ReadTold(c.(program := FeedPat(c.program, payload, pusi)), units)
  {
    hide FindPmtPid, PsiSectionOf, VideoTold, AudioTold, EsOn;
    var c' := c.(program := FeedPat(c.program, payload, pusi));
    forall pid | KnownStream(c'.program, pid) ensures TrackTold(c'.es, c'.program, pid, EsOn(units, pid)) {
      assert TrackTold(c.es, c.program, pid, EsOn(units, pid));
    }
  }

  lemma PmtIsTold(c: Core, units: seq<Unit>, payload: bytes, pusi: bool)
    requires ReadTold(c, units)
    ensures ReadTold(c.(program := FeedPmt(c.program, c.allVideo, payload, pusi)), units)
  {
    hide PsiSectionOf, AddStreams, TrackTold, EsOn;
    var c' := c.(program := FeedPmt(c.program, c.allVideo, payload, pusi));
    if c'.program != c.program {
      var s := PsiSectionOf(payload, pusi).value;
      var i, end := 12 + (s[10] as int % 16 * 256 + s[11] as int), SectionEnd(s);
      AddAllKeepsRoles(c.program, c.allVideo, s, i, end);
      assert RolesOk(c'.program, c.allVideo) by { SameRoles(AddStreams(c.program, c.allVideo, s, i, end), c'.program, c.allVideo); }
      forall pid | KnownStream(c'.program, pid) ensures TrackTold(c'.es, c'.program, pid, EsOn(units, pid)) {
        BlankTold(c', pid);
      }
    }
  }

  lemma SameRoles(p: Program, p': Program, allVideo: bool)
    requires RolesOk(p, allVideo) && p' == p.(parsed := true)
    ensures RolesOk(p', allVideo)
  {
  }

  lemma BlankTold(c: Core, pid: nat)
    requires c.es.out == [] && c.es.sps == map[] && c.es.pps == map[] && c.es.aac == map[] && KnownStream(c.program, pid)
    ensures TrackTold(c.es, c.program, pid, EsOn([], pid))
  {
  }

  lemma PacketIsTold(c: Core, units: seq<Unit>, pkt: bytes)
    requires |pkt| == PACKET_SIZE && ReadTold(c, units) && !c.es.crashed
    ensures var c' := FeedPacket(c, pkt); !c'.es.crashed ==> ReadTold(c', units + ClosedByPacket(c, pkt))
  {
    hide ParseTsPacket, FeedPes, FeedPat, FeedPmt, ReadTold, UnitOf;
    var p := ParseTsPacket(pkt);
    assert units + [] == units;
    if p.Packet? && p.pid != NULL_PID {
      var c1 := CountPacket(c, p);
      CountIsTold(c, units, p);
      if p.payload.Some? {
        if p.pid == 0 {
          PatIsTold(c1, units, p.payload.value, p.pusi);
        } else if c.program.pmtPid == Some(p.pid) {
          PmtIsTold(c1, units, p.payload.value, p.pusi);
        } else if KnownStream(c.program, p.pid) {
          PesIsTold(c1, units, p.pid, p.payload.value, p.pusi);
          assert UnitOf(c1, p.pid) == UnitOf(c, p.pid) by { SameUnit(c, c1, p.pid); }
        }
      }
    }
  }

  lemma SameUnit(c: Core, c1: Core, pid: nat)
    requires c1.pes == c.pes && c1.program == c.program
    ensures UnitOf(c1, pid) == UnitOf(c, pid)
  {
  }

  lemma CountIsTold(c: Core, units: seq<Unit>, p: Packet)
    requires p.Packet? && ReadTold(c, units)
    ensures ReadTold(CountPacket(c, p), units)
  {
    hide TrackTold, RolesOk, EsOn;
  }

  lemma {:induction false} FeedIsTold(c: Core, units: seq<Unit>, data: bytes)
    requires ReadTold(c, units) && !c.es.crashed
    ensures var c' := FeedBytes(c, data).core; !c'.es.crashed ==> ReadTold(c', units + Closed(c, data))
    decreases |data|
  {
    hide FeedPacket, ClosedByPacket, ReadTold;
    if |data| < PACKET_SIZE {
      assert units + [] == units;
    } else {
      var pkt, rest := data[..PACKET_SIZE], data[PACKET_SIZE..];
      var c1 := FeedPacket(c, pkt);
      PacketIsTold(c, units, pkt);
      if c1.es.crashed {
        NothingAfterCrash(c1, rest);
      } else {
        FeedIsTold(c1, units + ClosedByPacket(c, pkt), rest);
        assert (units + ClosedByPacket(c, pkt)) + Closed(c1, rest) == units + (ClosedByPacket(c, pkt) + Closed(c1, rest));
      }
    }
  }

  lemma {:induction false} FlushIsTold(c: Core, units: seq<Unit>, order: seq<nat>)
    requires ReadTold(c, units) && !c.es.crashed
    ensures var c' := FinalizeAll(c, order); !c'.es.crashed ==> ReadTold(c', units + ClosedAtEnd(c, order))
    decreases |order|
  {
    hide FinalizePes, UnitOf, ReadTold;
    if order == [] {
      assert units + [] == units;
    } else {
      var c1 := FinalizePes(c, order[0]);
      FinalizeIsTold(c, units, order[0]);
      if !c1.es.crashed {
        FlushIsTold(c1, units + UnitOf(c, order[0]), order[1..]);
        assert (units + UnitOf(c, order[0])) + ClosedAtEnd(c1, order[1..]) == units + (UnitOf(c, order[0]) + ClosedAtEnd(c1, order[1..]));
      }
    }
  }

  /** Over any stream, in any pieces, flushed at its end: unless it has crashed, what came out for each track is exactly
      what the track's finished units say, one after another: a codec header wherever the parameter sets or the
      configuration are not those announced last, every picture and every frame, and nothing else. */
  lemma TracksAreRead(allVideo: bool, pieces: seq<bytes>)
    ensures var d := FeedAllPieces(Fresh(allVideo), pieces);
            var c := Flush(d).core;
            var units := Closed(Fresh(allVideo).core, Concat(pieces)) + ClosedAtEnd(d.core, d.core.pesOrder);
            !c.es.crashed ==> forall pid :: KnownStream(c.program, pid) ==> TrackTold(c.es, c.program, pid, EsOn(units, pid))
  {
    var c0, data := Fresh(allVideo).core, Concat(pieces);
    FeedIgnoresCuts(Fresh(allVideo), pieces);
    assert [] + data == data;
    NothingRead(allVideo);
    hide FeedBytes, Closed, FinalizeAll, ClosedAtEnd, Concat, FeedAllPieces, TrackTold, EsOn, RolesOk;
    FeedIsTold(c0, [], data);
    var d := FeedBytes(c0, data);
    assert [] + Closed(c0, data) == Closed(c0, data);
    if d.core.es.crashed {
      EndAfterCrash(d.core, d.core.pesOrder);
    } else {
      FlushIsTold(d.core, Closed(c0, data), d.core.pesOrder);
    }
  }

  lemma NothingRead(allVideo: bool)
    ensures ReadTold(Fresh(allVideo).core, [])
  {
  }
}
