// When the demultiplexer crashes: it reads the profile octets of a sequence parameter set without looking at its
// length.
module TsCrash {
  import opened Bytes
  import opened TsPackets
  import opened AnnexB
  import opened TsDemux

  /** A finished assembly: its PID, whether that is a video stream's, and what it held. */
  datatype Unit = Unit(pid: nat, video: bool, data: bytes)

  /** The access unit's last sequence parameter set has fewer than four octets, and there is a picture parameter set. */
  predicate ShortSps(payload: bytes)
  {
    var s := ScanNals(NalUnits(payload));
    0 < |s.sps| < 4 && s.pps != []
  }

  predicate Crashes(u: Unit)
  {
    u.video && ParsePes(u.data).Some? && ShortSps(ParsePes(u.data).value.es)
  }

  /** No stored sequence parameter set is a short one. */
  ghost predicate StoredOk(es: Streams)
  {
    forall pid :: pid in es.sps ==> |es.sps[pid]| >= 4
  }

  // ----- one access unit -----

  lemma VideoCrashIff(es: Streams, pid: nat, role: Role, payload: bytes, ptsRaw: int, dtsRaw: int)
    requires !es.crashed && StoredOk(es)
    ensures var es' := HandleVideo(es, pid, role, payload, ptsRaw, dtsRaw);
            (es'.crashed <==> ShortSps(payload)) && StoredOk(es')
  {
    hide NalUnits, ScanNals, BuildAvcConfig, Packed, Milliseconds, FlvVideoFrame, FlvVideoSeqHeader, ClockAt;
  }

  lemma {:induction false} AudioKeepsParameterSets(es: Streams, pid: nat, role: Role, payload: bytes, offset: nat, frameNo: nat, baseMs: int)
    ensures var es' := AudioFrames(es, pid, role, payload, offset, frameNo, baseMs);
            es'.crashed == es.crashed && es'.sps == es.sps
    decreases |payload| - offset
  {
    hide FrameAt, FrameTs;
    if offset < |payload| {
      match FrameAt(payload, offset)
      case None =>
      case Some(h) =>
        var es1 := AudioFrame(es, pid, role, payload, offset, h, FrameTs(baseMs, frameNo, h));
        FrameKeepsParameterSets(es, pid, role, payload, offset, h, FrameTs(baseMs, frameNo, h));
        AudioKeepsParameterSets(es1, pid, role, payload, offset + h.frameLength, frameNo + 1, baseMs);
    }
  }

  lemma FrameKeepsParameterSets(es: Streams, pid: nat, role: Role, payload: bytes, offset: nat, h: Adts, ts: int)
    requires FrameAt(payload, offset) == Some(h)
    ensures var es' := AudioFrame(es, pid, role, payload, offset, h, ts); es'.crashed == es.crashed && es'.sps == es.sps
  {
    hide FrameAt, BuildAsc;
  }

  lemma HandleCrashIff(p: Program, es: Streams, pid: nat, unit: Pes)
    requires !es.crashed && StoredOk(es)
    ensures var es' := HandleEs(p, es, pid, unit);
            (es'.crashed <==> pid in p.videoRole && ShortSps(unit.es)) && StoredOk(es')
  {
    hide HandleVideo, AudioFrames, ShortSps;
    if pid in p.videoRole {
      VideoCrashIff(es, pid, p.videoRole[pid], unit.es, unit.ptsRaw, unit.dtsRaw);
    } else {
      match IndexOf(p.audioPids, pid)
      case None =>
      case Some(i) =>
        var es1 := Tick(es, AudioPts(pid), unit.ptsRaw);
        var pts := ClockAt(es1, AudioPts(pid)).prevUnwrapped;
        var es2 := Anchor(es1, pts);
        AudioKeepsParameterSets(es2, pid, AudioTrack(i), unit.es, 0, 0, Milliseconds(es2, pts));
    }
  }

  // ----- assemblies closed while feeding -----

  function UnitOf(c: Core, pid: nat): seq<Unit>
  {
    if pid in c.pes then [Unit(pid, pid in c.program.videoRole, c.pes[pid])] else []
  }

  ghost predicate SomeCrash(units: seq<Unit>)
  {
    exists u :: u in units && Crashes(u)
  }

  lemma SomeCrashAppend(a: seq<Unit>, b: seq<Unit>)
    ensures SomeCrash(a + b) <==> SomeCrash(a) || SomeCrash(b)
  {
    hide Crashes;
    if SomeCrash(a) {
      var u :| u in a && Crashes(u);
      assert u in a + b;
    }
    if SomeCrash(b) {
      var u :| u in b && Crashes(u);
      assert u in a + b;
    }
  }

  /** The state can still crash, and has not. */
  ghost predicate Running(c: Core)
  {
    !c.es.crashed && StoredOk(c.es)
  }

  /** It has crashed exactly if one of the units closed was such a one; otherwise it runs on. */
  ghost predicate CrashedBy(c': Core, units: seq<Unit>)
  {
    (c'.es.crashed <==> SomeCrash(units)) && StoredOk(c'.es)
  }

  lemma NoUnits()
    ensures !SomeCrash([])
  {
  }

  lemma OneUnit(u: Unit)
    ensures SomeCrash([u]) <==> Crashes(u)
  {
    hide Crashes;
    assert u in [u];
  }

  lemma FinalizeCrashIff(c: Core, pid: nat)
    requires Running(c)
    ensures CrashedBy(FinalizePes(c, pid), UnitOf(c, pid))
  {
    hide HandleEs, ParsePes, StoredOk, ShortSps, SomeCrash;
    NoUnits();
    if pid in c.pes {
      OneUnit(Unit(pid, pid in c.program.videoRole, c.pes[pid]));
      if ParsePes(c.pes[pid]).Some? {
        HandleCrashIff(c.program, c.es, pid, ParsePes(c.pes[pid]).value);
      }
    }
  }

  /** What a packet closes: the assembly pending on its PID, when it starts a new one. */
  function ClosedByPacket(c: Core, pkt: bytes): seq<Unit>
    requires |pkt| == PACKET_SIZE
  {
    var p := ParseTsPacket(pkt);
    if c.es.crashed || p.NoSync? || p.pid == NULL_PID || p.payload.None? || !p.pusi then []
    else if p.pid == 0 || c.program.pmtPid == Some(p.pid) || !KnownStream(c.program, p.pid) then []
    else if p.pid in c.pes && |c.pes[p.pid]| > 0 then UnitOf(c, p.pid)
    else []
  }

  lemma PacketCrashIff(c: Core, pkt: bytes)
    requires |pkt| == PACKET_SIZE && Running(c)
    ensures CrashedBy(FeedPacket(c, pkt), ClosedByPacket(c, pkt))
  {
    hide ParseTsPacket, FinalizePes, StoredOk, SomeCrash, FeedPat, FeedPmt;
    NoUnits();
    var p := ParseTsPacket(pkt);
    if p.Packet? {
      FinalizeCrashIff(CountPacket(c, p), p.pid);
    }
  }

  function Closed(c: Core, data: bytes): seq<Unit>
    decreases |data|
  {
    if |data| < PACKET_SIZE then []
    else ClosedByPacket(c, data[..PACKET_SIZE]) + Closed(FeedPacket(c, data[..PACKET_SIZE]), data[PACKET_SIZE..])
  }

  lemma {:induction false} NothingAfterCrash(c: Core, data: bytes)
    requires c.es.crashed
    ensures FeedBytes(c, data).core == c && Closed(c, data) == []
    decreases |data|
  {
    hide ParseTsPacket;
    if |data| >= PACKET_SIZE {
      NothingAfterCrash(c, data[PACKET_SIZE..]);
    }
  }

  lemma {:induction false} FeedCrashIff(c: Core, data: bytes)
    requires Running(c)
    ensures CrashedBy(FeedBytes(c, data).core, Closed(c, data))
    decreases |data|
  {
    hide FeedPacket, ClosedByPacket, StoredOk, SomeCrash;
    NoUnits();
    if |data| >= PACKET_SIZE {
      var pkt, rest := data[..PACKET_SIZE], data[PACKET_SIZE..];
      PacketCrashIff(c, pkt);
      var c1 := FeedPacket(c, pkt);
      SomeCrashAppend(ClosedByPacket(c, pkt), Closed(c1, rest));
      if c1.es.crashed {
        NothingAfterCrash(c1, rest);
      } else {
        FeedCrashIff(c1, rest);
      }
    }
  }

  /** What a flush closes, in order. */
  function ClosedAtEnd(c: Core, order: seq<nat>): seq<Unit>
    decreases |order|
  {
    if order == [] || c.es.crashed then [] else UnitOf(c, order[0]) + ClosedAtEnd(FinalizePes(c, order[0]), order[1..])
  }

  lemma {:induction false} FlushCrashIff(c: Core, order: seq<nat>)
    requires Running(c)
    ensures CrashedBy(FinalizeAll(c, order), ClosedAtEnd(c, order))
    decreases |order|
  {
    hide FinalizePes, UnitOf, StoredOk, SomeCrash;
    NoUnits();
    if order != [] {
      FinalizeCrashIff(c, order[0]);
      var c1 := FinalizePes(c, order[0]);
      SomeCrashAppend(UnitOf(c, order[0]), ClosedAtEnd(c1, order[1..]));
      if !c1.es.crashed {
        FlushCrashIff(c1, order[1..]);
      }
    }
  }

  /** Over any stream, in any pieces: the demultiplexer has crashed if and only if some video access unit finished so
      far has a last sequence parameter set of one to three octets and a picture parameter set; and the same with the
      units a final flush closes. */
  lemma CrashesIff(allVideo: bool, pieces: seq<bytes>)
    ensures var d := FeedAllPieces(Fresh(allVideo), pieces);
            var units := Closed(Fresh(allVideo).core, Concat(pieces));
            && (d.core.es.crashed <==> SomeCrash(units))
            && (Flush(d).core.es.crashed <==> SomeCrash(units + ClosedAtEnd(d.core, d.core.pesOrder)))
  {
    var c, data := Fresh(allVideo).core, Concat(pieces);
    FeedIgnoresCuts(Fresh(allVideo), pieces);
    assert [] + data == data;
    assert Running(c);
    hide FeedBytes, Closed, FinalizeAll, ClosedAtEnd, Concat, SomeCrash, FeedAllPieces;
    FeedCrashIff(c, data);
    var d := FeedBytes(c, data);
    SomeCrashAppend(Closed(c, data), ClosedAtEnd(d.core, d.core.pesOrder));
    if d.core.es.crashed {
      EndAfterCrash(d.core, d.core.pesOrder);
    } else {
      FlushCrashIff(d.core, d.core.pesOrder);
    }
  }

  lemma EndAfterCrash(c: Core, order: seq<nat>)
    requires c.es.crashed
    ensures FinalizeAll(c, order) == c
  {
  }

  // ----- an access unit that crashes it -----

  const TINY_SETS: seq<bytes> := [[0x67], [0x68]]

  lemma TinySetsAreClean()
    ensures AllClean(TINY_SETS)
  {
  }

  lemma TinySetsScan()
    ensures ScanNals(TINY_SETS) == Scan([0x67], [0x68], [], false)
  {
    assert TINY_SETS[..1] == [[0x67]] && TINY_SETS[..1][..0] == [];
    assert ScanNals(TINY_SETS[..1]) == ScanNal(ScanNals([]), [0x67]);
  }

  /** A sequence parameter set that is nothing but its own first octet, and a picture parameter set. */
  lemma TinyUnitCrashes(pid: nat, pts: int)
    ensures Crashes(Unit(pid, true, BuildPes(STREAM_VIDEO, Annexed(TINY_SETS), pts, 0, false)))
  {
    TinySetsAreClean();
    NalUnitsInvertAnnexed(TINY_SETS);
    PesRoundTrips(STREAM_VIDEO, Annexed(TINY_SETS), pts, 0, false);
    TinySetsScan();
    hide NalUnits, Annexed, ScanNals, BuildPes, ParsePes;
  }
}
