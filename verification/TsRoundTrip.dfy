// Muxing, then demuxing: whole runs of tags, over a stream cut anywhere.
module TsRoundTrip {
  import opened Bytes
  import opened TsClock
  import opened TsPackets
  import opened TsDemux
  import opened AnnexB
  import opened TsTransport
  import opened TsStreams
  import M = TsMux
  import Flv

  // ----- delivering units -----

  function RoleOf(p: Program, pid: nat): Role
    requires KnownStream(p, pid)
  {
    if pid in p.videoRole then p.videoRole[pid] else AudioTrack(IndexOf(p.audioPids, pid).value)
  }

  lemma RolesDiffer(allVideo: bool, known: set<nat>, pid: nat, q: nat)
    requires var p := ProgramFor(allVideo, known); KnownStream(p, pid) && KnownStream(p, q) && pid != q
    ensures var p := ProgramFor(allVideo, known); RoleOf(p, pid) != RoleOf(p, q)
  {
    hide M.SlotsFrom;
  }

  /** The units of one PID. */
  function Of(units: seq<Unit>, pid: nat): seq<Unit>
  {
    if units == [] then []
    else
      var last := units[|units| - 1];
      Of(units[..|units| - 1], pid) + if PidOf(last) == pid then [last] else []
  }

  lemma OfSnoc(units: seq<Unit>, u: Unit, pid: nat)
    ensures Of(units + [u], pid) == Of(units, pid) + if PidOf(u) == pid then [u] else []
  {
    assert (units + [u])[..|units|] == units;
  }

  ghost predicate Carries(p: Program, u: Unit)
  {
    UnitOk(u) && KnownStream(p, PidOf(u)) && (u.VideoUnit? <==> PidOf(u) in p.videoRole)
  }

  ghost predicate AllOk(p: Program, units: seq<Unit>)
  {
    && (forall u :: u in units ==> Carries(p, u))
    && (forall pid :: StampsOk(Of(units, pid)))
  }

  lemma {:induction false} OfIsUniform(p: Program, units: seq<Unit>, pid: nat)
    requires forall u :: u in units ==> Carries(p, u)
    ensures forall u :: u in Of(units, pid) ==> u in units && PidOf(u) == pid
    decreases |units|
  {
    hide Carries;
    if units != [] {
      var init := units[..|units| - 1];
      assert forall u :: u in init ==> u in units;
      OfIsUniform(p, init, pid);
    }
  }

  lemma StampsPrefix(units: seq<Unit>, u: Unit)
    requires StampsOk(units + [u])
    ensures StampsOk(units)
  {
    var all := units + [u];
    assert units != [] ==> all[0] == units[0];
    forall i | 0 < i < |units|
      ensures Tellable(Pts90(units[i]) - Pts90(units[i - 1])) && Tellable(Dts90(units[i]) - Dts90(units[i - 1]))
    {
      assert all[i] == units[i] && all[i - 1] == units[i - 1];
    }
  }

  lemma AllOkPrefix(p: Program, units: seq<Unit>, u: Unit)
    requires AllOk(p, units + [u])
    ensures AllOk(p, units) && Carries(p, u)
  {
    hide StampsOk, Carries, Of;
    assert forall v :: v in units ==> v in units + [u];
    assert u in units + [u];
    forall pid ensures StampsOk(Of(units, pid)) {
      OfSnoc(units, u, pid);
      assert StampsOk(Of(units + [u], pid));
      if PidOf(u) == pid {
        StampsPrefix(Of(units, pid), u);
      } else {
        assert Of(units, pid) + [] == Of(units, pid);
      }
    }
  }

  /** A stream's last unit is still being assembled, or everything of it has been handled. */
  ghost predicate PidInv(c: Core, p: Program, pid: nat, units: seq<Unit>)
    requires KnownStream(p, pid)
  {
    if pid in c.pes then
      && units != []
      && c.pes[pid] == PesOf(units[|units| - 1])
      && EsInv(c.es, pid, RoleOf(p, pid), units[..|units| - 1])
    else EsInv(c.es, pid, RoleOf(p, pid), units)
  }

  ghost predicate RunInv(c: Core, p: Program, units: seq<Unit>)
  {
    && c.program == p
    && !c.es.crashed
    && (forall pid :: KnownStream(p, pid) ==> PidInv(c, p, pid, Of(units, pid)))
    && (forall pid :: pid in c.pes ==> pid in c.pesOrder && KnownStream(p, pid))
  }

  lemma PesIsParsed(u: Unit)
    ensures |PesOf(u)| > 0
    ensures ParsePes(PesOf(u)) ==
            Some(match u
                 case VideoUnit(_, _, nals) => Pes(Annexed(nals), Pts90(u) % TWO_TO_33, Dts90(u) % TWO_TO_33)
                 case AudioUnit(_, _, cfg, raw) =>
                   Pes(BuildAdts(cfg.0, cfg.1, cfg.2, |raw|) + raw, Pts90(u) % TWO_TO_33, Pts90(u) % TWO_TO_33))
  {
    hide ParsePes, BuildPes, BuildAdts, Annexed;
    match u
    case VideoUnit(ts, cts, nals) => PesRoundTrips(STREAM_VIDEO, Annexed(nals), (ts + cts) * 90, ts * 90, true);
    case AudioUnit(_, ts, cfg, raw) =>
      PesRoundTrips(STREAM_AUDIO, BuildAdts(cfg.0, cfg.1, cfg.2, |raw|) + raw, ts * 90, 0, false);
  }

  lemma UnitHandled(p: Program, es: Streams, units: seq<Unit>, u: Unit)
    requires Carries(p, u) && !es.crashed
    requires EsInv(es, PidOf(u), RoleOf(p, PidOf(u)), units)
    requires forall v :: v in units ==> (v.VideoUnit? <==> u.VideoUnit?)
    requires StampsOk(units + [u])
    ensures ParsePes(PesOf(u)).Some?
    ensures var pid, es' := PidOf(u), HandleEs(p, es, PidOf(u), ParsePes(PesOf(u)).value);
            && !es'.crashed && EsInv(es', pid, RoleOf(p, pid), units + [u]) && Unrelated(es, es', pid, RoleOf(p, pid))
  {
    PesIsParsed(u);
    hide ParsePes, PesOf, EsInv, HandleVideo, HandleAudio, StampsOk, Unrelated, UnitOk, BuildAdts, Pts90, Dts90;
    if u.VideoUnit? {
      VideoHandled(es, PidOf(u), RoleOf(p, PidOf(u)), units, u);
    } else {
      AudioHandled(es, PidOf(u), RoleOf(p, PidOf(u)), units, u);
    }
  }

  lemma PidInvOfOther(c: Core, c': Core, allVideo: bool, known: set<nat>, pid: nat, q: nat, units: seq<Unit>)
    requires var p := ProgramFor(allVideo, known);
             && KnownStream(p, pid) && KnownStream(p, q) && pid != q
             && PidInv(c, p, q, units) && Unrelated(c.es, c'.es, pid, RoleOf(p, pid))
    requires q in c'.pes <==> q in c.pes
    requires q in c.pes ==> c'.pes[q] == c.pes[q]
    ensures PidInv(c', ProgramFor(allVideo, known), q, units)
  {
    var p := ProgramFor(allVideo, known);
    hide ProgramFor, RoleOf, EsInv, Unrelated, PesOf;
    RolesDiffer(allVideo, known, pid, q);
    var done := if q in c.pes then units[..|units| - 1] else units;
    UnrelatedKeepsInv(c.es, c'.es, pid, RoleOf(p, pid), q, RoleOf(p, q), done);
  }

  lemma {:induction false} WithoutKeepsOthers(order: seq<nat>, pid: nat, q: nat)
    requires q in order && q != pid
    ensures q in Without(order, pid)
  {
    if order[0] != pid && order[0] != q {
      WithoutKeepsOthers(order[1..], pid, q);
    }
  }

  /** The unit that closes when a pending assembly is finalized. */
  lemma PendingHandled(c: Core, p: Program, units: seq<Unit>, pid: nat)
    requires RunInv(c, p, units) && AllOk(p, units) && pid in c.pes
    ensures ParsePes(c.pes[pid]).Some?
    ensures var es' := HandleEs(p, c.es, pid, ParsePes(c.pes[pid]).value);
            && !es'.crashed && EsInv(es', pid, RoleOf(p, pid), Of(units, pid)) && Unrelated(c.es, es', pid, RoleOf(p, pid))
  {
    hide ParsePes, HandleEs, EsInv, PesOf, StampsOk, Unrelated, UnitOk, Of;
    var l := Of(units, pid);
    assert PidInv(c, p, pid, l);
    OfIsUniform(p, units, pid);
    var u := l[|l| - 1];
    assert u in l && l == l[..|l| - 1] + [u];
    forall v | v in l[..|l| - 1] ensures v.VideoUnit? <==> u.VideoUnit? {
      assert v in l;
      assert Carries(p, v) && Carries(p, u);
    }
    UnitHandled(p, c.es, l[..|l| - 1], u);
  }

  lemma FinalizeUnfolds(c: Core, pid: nat)
    requires pid in c.pes && ParsePes(c.pes[pid]).Some?
    ensures FinalizePes(c, pid)
            == c.(pes := c.pes - {pid}, pesOrder := Without(c.pesOrder, pid),
                  es := HandleEs(c.program, c.es, pid, ParsePes(c.pes[pid]).value))
  {
    hide ParsePes, HandleEs, Without;
  }

  /** Closing a pending unit keeps the invariant of every stream. */
  lemma FinalizeKeepsInv(c: Core, allVideo: bool, known: set<nat>, units: seq<Unit>, pid: nat)
    requires var p := ProgramFor(allVideo, known); RunInv(c, p, units) && AllOk(p, units)
    requires pid in c.pes
    ensures var c' := FinalizePes(c, pid);
            && RunInv(c', ProgramFor(allVideo, known), units) && c'.pes == c.pes - {pid}
            && c'.cc == c.cc && c'.gaps == c.gaps && c'.allVideo == c.allVideo
  {
    var p := ProgramFor(allVideo, known);
    hide ProgramFor, ParsePes, HandleEs, EsInv, PesOf, Unrelated, AllOk, Without, FinalizePes, Of;
    PendingHandled(c, p, units, pid);
    FinalizeUnfolds(c, pid);
    var c' := FinalizePes(c, pid);
    forall q | KnownStream(p, q) ensures PidInv(c', p, q, Of(units, q)) {
      assert PidInv(c, p, q, Of(units, q));
      if q != pid {
        PidInvOfOther(c, c', allVideo, known, pid, q, Of(units, q));
      }
    }
    forall q | q in c'.pes ensures q in c'.pesOrder && KnownStream(p, q) {
      WithoutKeepsOthers(c.pesOrder, pid, q);
    }
  }

  lemma SetKeepsInv(c: Core, p: Program, units: seq<Unit>, u: Unit)
    requires RunInv(c, p, units) && PidOf(u) !in c.pes && KnownStream(p, PidOf(u))
    ensures RunInv(SetPes(c, PidOf(u), PesOf(u)), p, units + [u])
  {
    hide EsInv, PesOf, Of;
    var pid := PidOf(u);
    var c' := SetPes(c, pid, PesOf(u));
    forall q | KnownStream(p, q) ensures PidInv(c', p, q, Of(units + [u], q)) {
      OfSnoc(units, u, q);
      assert PidInv(c, p, q, Of(units, q));
      if q == pid {
        assert (Of(units, q) + [u])[..|Of(units, q)|] == Of(units, q);
      } else {
        assert Of(units, q) + [] == Of(units, q);
      }
    }
  }

  /** Delivering one more unit. */
  lemma DeliverKeepsInv(c: Core, allVideo: bool, known: set<nat>, units: seq<Unit>, u: Unit)
    requires var p := ProgramFor(allVideo, known); RunInv(c, p, units) && AllOk(p, units + [u])
    ensures var c' := FeedPes(c, PidOf(u), PesOf(u), true);
            && RunInv(c', ProgramFor(allVideo, known), units + [u])
            && c'.cc == c.cc && c'.gaps == c.gaps && c'.allVideo == c.allVideo
  {
    var p := ProgramFor(allVideo, known);
    AllOkPrefix(p, units, u);
    hide ProgramFor, PesOf, AllOk, FinalizePes, UnitOk, Of;
    var pid := PidOf(u);
    if pid in c.pes {
      PendingNotEmpty(c, p, units, pid);
      FinalizeKeepsInv(c, allVideo, known, units, pid);
      SetKeepsInv(FinalizePes(c, pid), p, units, u);
    } else {
      SetKeepsInv(c, p, units, u);
    }
  }

  lemma PendingNotEmpty(c: Core, p: Program, units: seq<Unit>, pid: nat)
    requires RunInv(c, p, units) && pid in c.pes
    ensures |c.pes[pid]| > 0
  {
    hide EsInv, PesOf, Of;
    assert PidInv(c, p, pid, Of(units, pid));
    PesIsParsed(Of(units, pid)[|Of(units, pid)| - 1]);
  }

  /** Flushing closes every pending unit. */
  lemma {:induction false} FlushCloses(c: Core, allVideo: bool, known: set<nat>, units: seq<Unit>, order: seq<nat>)
    requires var p := ProgramFor(allVideo, known); RunInv(c, p, units) && AllOk(p, units)
    requires forall pid :: pid in c.pes ==> pid in order
    ensures var c' := FinalizeAll(c, order);
            && RunInv(c', ProgramFor(allVideo, known), units) && c'.pes == map[] && c'.gaps == c.gaps
    decreases |order|
  {
    hide ProgramFor, AllOk, PesOf, EsInv, FinalizePes, PidInv;
    if order == [] {
      assert c.pes.Keys == {};
    } else {
      var c1 := FinalizePes(c, order[0]);
      if order[0] in c.pes {
        FinalizeKeepsInv(c, allVideo, known, units, order[0]);
      } else {
        NothingToFinalize(c, order[0]);
      }
      FlushCloses(c1, allVideo, known, units, order[1..]);
    }
  }

  lemma NothingToFinalize(c: Core, pid: nat)
    requires pid !in c.pes
    ensures FinalizePes(c, pid) == c
  {
  }

  // ----- from tags to units -----

  /** The unit the multiplexer sends for a tag. */
  function UnitOf(m: M.State, tag: M.Tag): Option<Unit>
  {
    if tag.tagType == Flv.TAG_VIDEO then
      if |tag.payload| < 5 || Flv.IsAvcSeqHeader(tag.payload) || |M.UnitsOf(m, tag.payload)| == 0 then None
      else Some(VideoUnit(tag.ts, M.CtsOf(tag.payload), M.UnitsOf(m, tag.payload)))
    else if tag.tagType == Flv.TAG_AUDIO then
      var (slot, raw) := M.SlotOf(tag.payload);
      if slot >= Flv.MAX_AUDIO_SLOTS || |raw| < 2 || Flv.IsAacSeqHeader(raw) || slot !in m.audioCfg then None
      else Some(AudioUnit(slot, tag.ts, m.audioCfg[slot], raw[2..]))
    else None
  }

  function Units(m: M.State, tags: seq<M.Tag>): seq<Unit>
    decreases |tags|
  {
    if tags == [] then []
    else
      (match UnitOf(m, tags[0])
       case None => []
       case Some(u) => [u])
      + Units(M.TagStep(m, tags[0]).0, tags[1..])
  }

  /** The tag names no output slot beyond the known ones. */
  predicate NoNewSlot(known: set<nat>, tag: M.Tag)
  {
    tag.tagType == Flv.TAG_AUDIO ==> M.SlotOf(tag.payload).0 in known
  }

  ghost predicate Counters(m: M.State, c: Core)
  {
    forall pid :: M.CcOf(m, pid) < 16 && Expects(c, pid, M.CcOf(m, pid))
  }

  /** The multiplexer counted so many packets on, the demultiplexer saw the last of them. */
  lemma CountersAdvance(m: M.State, c: Core, pid: nat, n: nat)
    requires Counters(m, c) && n > 0
    ensures Counters(M.BumpCc(m, pid, n), SetCc(c, pid, (M.CcOf(m, pid) + n - 1) % 16))
  {
    CounterAfter(M.CcOf(m, pid), n);
    var m1, c1 := M.BumpCc(m, pid, n), SetCc(c, pid, (M.CcOf(m, pid) + n - 1) % 16);
    forall q ensures M.CcOf(m1, q) < 16 && Expects(c1, q, M.CcOf(m1, q)) {
      assert M.CcOf(m, q) < 16 && Expects(c, q, M.CcOf(m, q));
      if q != pid {
        assert M.CcOf(m1, q) == M.CcOf(m, q);
      }
    }
  }

  lemma CounterAfter(cc: nat, n: nat)
    requires n > 0
    ensures (cc + n) % 16 == ((cc + n - 1) % 16 + 1) % 16
  {
  }

  /** Multiplexer and demultiplexer agree on the counters and on the program. */
  ghost predicate Linked(m: M.State, c: Core, allVideo: bool, known: set<nat>)
  {
    && Counters(m, c)
    && m.known == known
    && c.allVideo == allVideo
    && (c.program == ProgramFor(allVideo, known) || (c.program == NO_PROGRAM && m.pmtDirty))
  }

  /** The tables, if the tag calls for them. */
  function Preamble(m: M.State, due: bool, ts: int): (M.State, seq<bytes>)
  {
    if due then M.PsiStep(m, ts) else (m, [])
  }

  lemma TablesLink(m: M.State, c: Core, allVideo: bool, known: set<nat>, ts: int)
    requires Linked(m, c, allVideo, known) && !c.es.crashed
    ensures var (m1, psi) := M.PsiStep(m, ts);
            Sized(psi) &&
            var c1 := FeedPackets(c, psi);
            && Linked(m1, c1, allVideo, known) && c1.program == ProgramFor(allVideo, known)
            && c1 == AfterTables(c, known).(cc := c1.cc)
  {
    ProgramForIsRead(allVideo, known);
    hide ProgramFor, M.PsiPackets, M.PmtSectionOf, FeedPackets, M.BumpCc;
    assert M.CcOf(m, PID_PAT) < 16 && M.CcOf(m, PID_PMT) < 16;
    TablesAreRead(c, m);
    hide Counters, Expects;
    var c0 := AfterTables(c, known);
    CountersDependOnCc(m, c, m, c0);
    CountersAdvance(m, c0, PID_PAT, 1);
    BumpIsLocal(m, PID_PAT, PID_PMT);
    var m1, c1 := M.BumpCc(m, PID_PAT, 1), SetCc(c0, PID_PAT, M.CcOf(m, PID_PAT));
    CountersAdvance(m1, c1, PID_PMT, 1);
    CountersDependOnCc(M.BumpCc(m1, PID_PMT, 1), SetCc(c1, PID_PMT, M.CcOf(m, PID_PMT)), M.PsiStep(m, ts).0,
                       FeedPackets(c, M.PsiStep(m, ts).1));
  }

  lemma BumpIsLocal(m: M.State, pid: nat, q: nat)
    requires pid != q && M.CcOf(m, pid) < 16 && M.CcOf(m, q) < 16
    ensures var m1 := M.BumpCc(m, pid, 1);
            && M.CcOf(m1, q) == M.CcOf(m, q) && m1 == m.(cc := m1.cc)
            && (M.CcOf(m1, q) + 1 - 1) % 16 == M.CcOf(m, q) && (M.CcOf(m, pid) + 1 - 1) % 16 == M.CcOf(m, pid)
            && M.BumpCc(m1, q, 1) == m.(cc := M.BumpCc(m1, q, 1).cc)
  {
  }

  lemma CountersDependOnCc(m: M.State, c: Core, m1: M.State, c1: Core)
    requires Counters(m, c) && m1.cc == m.cc && c1.cc == c.cc
    ensures Counters(m1, c1)
  {
    assert forall pid :: M.CcOf(m1, pid) == M.CcOf(m, pid) && (Expects(c, pid, M.CcOf(m, pid)) ==> Expects(c1, pid, M.CcOf(m, pid)));
  }

  lemma PreambleLinks(m: M.State, c: Core, allVideo: bool, known: set<nat>, due: bool, ts: int)
    requires Linked(m, c, allVideo, known) && !c.es.crashed && (m.pmtDirty ==> due)
    ensures var (m1, psi) := Preamble(m, due, ts);
            Sized(psi) &&
            var c1 := FeedPackets(c, psi);
            && Linked(m1, c1, allVideo, known) && c1.program == ProgramFor(allVideo, known)
            && c1 == AfterTables(c, known).(cc := c1.cc)
  {
    ProgramForIsRead(allVideo, known);
    hide ProgramFor, M.PsiPackets, M.PmtSectionOf, FeedPackets;
    if due {
      TablesLink(m, c, allVideo, known, ts);
    } else {
      FeedNothing(c);
    }
  }

  lemma ProgramForIsRead(allVideo: bool, known: set<nat>)
    ensures var p := ProgramFor(allVideo, known); p.parsed && p.pmtPid == Some(PID_PMT)
  {
  }

  lemma FeedNothing(c: Core)
    ensures FeedPackets(c, []) == c
  {
  }

  lemma PesLinks(m: M.State, c: Core, allVideo: bool, known: set<nat>, pid: nat, pes: bytes, pcr: int, hasPcr: bool)
    requires Linked(m, c, allVideo, known) && c.program == ProgramFor(allVideo, known)
    requires StreamPid(c.program, pid) && !c.es.crashed && |pes| > 0
    requires var d := FeedPes(c, pid, pes, true); !d.es.crashed && d.program == c.program && d.allVideo == c.allVideo && d.cc == c.cc
    ensures var (m1, ps) := M.PesStep(m, pid, pes, pcr, hasPcr);
            Sized(ps) &&
            var c1 := FeedPackets(c, ps);
            && Linked(m1, c1, allVideo, known)
            && c1 == FeedPes(c, pid, pes, true).(cc := c1.cc)
  {
    hide ProgramFor, FeedPes, PacketsFrom, FeedPackets, M.BumpCc;
    assert M.CcOf(m, pid) < 16 && Expects(c, pid, M.CcOf(m, pid));
    PesReassembled(c, pid, pes, M.CcOf(m, pid), pcr, hasPcr);
    hide Counters, Expects;
    var n := |PacketsFrom(pid, pes, M.CcOf(m, pid), true, pcr, hasPcr)|;
    CountersDependOnCc(m, c, m, FeedPes(c, pid, pes, true));
    CountersAdvance(m, FeedPes(c, pid, pes, true), pid, n);
    BumpKeepsRest(m, pid, n);
  }

  lemma BumpKeepsRest(m: M.State, pid: nat, n: nat)
    ensures var m1 := M.BumpCc(m, pid, n); m1 == m.(cc := m1.cc)
  {
  }

  function OneUnit(u: Option<Unit>): seq<Unit>
  {
    match u
    case None => []
    case Some(v) => [v]
  }

  lemma SilentTag(m: M.State, tag: M.Tag)
    requires UnitOf(m, tag).None?
    ensures var (m1, packets) := M.TagStep(m, tag);
            && packets == [] && m1.cc == m.cc
            && (NoNewSlot(m.known, tag) ==> m1.known == m.known && m1.pmtDirty == m.pmtDirty)
  {
    hide M.PsiStep, M.PesStep, M.VideoPes, M.AudioPes, ParseAvcConfig, ParseAsc, M.UnitsOf, Flv.UnwrapMultitrackAudio;
  }

  lemma SoundingTag(m: M.State, tag: M.Tag)
    requires UnitOf(m, tag).Some? && NoNewSlot(m.known, tag)
    ensures var u := UnitOf(m, tag).value;
            var due := if u.VideoUnit? then M.PsiDue(m, tag.ts) else m.pmtDirty;
            var (m1, psi) := Preamble(m, due, tag.ts);
            var (m2, ps) := M.PesStep(m1, PidOf(u), PesOf(u), if u.VideoUnit? then tag.ts * 90 else 0, u.VideoUnit?);
            M.TagStep(m, tag) == (m2, psi + ps)
  {
    hide M.PsiStep, M.PesStep, BuildPes, M.AudioPes, ParseAvcConfig, M.UnitsOf, Annexed, Flv.UnwrapMultitrackAudio;
  }

  lemma StreamPids(allVideo: bool, known: set<nat>, u: Unit)
    requires UnitOk(u) && KnownStream(ProgramFor(allVideo, known), PidOf(u))
    ensures StreamPid(ProgramFor(allVideo, known), PidOf(u))
  {
    hide M.SlotsFrom, AllClean;
  }

  /** One unit reaches the demultiplexer, whatever tables go before it. */
  lemma UnitDelivered(m: M.State, c: Core, allVideo: bool, known: set<nat>, units: seq<Unit>, u: Unit, pcr: int, hasPcr: bool)
    requires Linked(m, c, allVideo, known) && c.program == ProgramFor(allVideo, known)
    requires var p := ProgramFor(allVideo, known); RunInv(c, p, units) && AllOk(p, units + [u]) && StreamPid(p, PidOf(u))
    ensures var (m1, ps) := M.PesStep(m, PidOf(u), PesOf(u), pcr, hasPcr);
            Sized(ps) &&
            var c1 := FeedPackets(c, ps);
            && Linked(m1, c1, allVideo, known) && c1.gaps == c.gaps
            && RunInv(c1, ProgramFor(allVideo, known), units + [u])
  {
    var p := ProgramFor(allVideo, known);
    hide ProgramFor, PesOf, FeedPes, FeedPackets, M.PesStep, RunInv, AllOk, Linked;
    PesIsParsed(u);
    DeliverKeepsInv(c, allVideo, known, units, u);
    var d := FeedPes(c, PidOf(u), PesOf(u), true);
    NotCrashed(c, p, units);
    NotCrashed(d, p, units + [u]);
    PesLinks(m, c, allVideo, known, PidOf(u), PesOf(u), pcr, hasPcr);
    var (m1, ps) := M.PesStep(m, PidOf(u), PesOf(u), pcr, hasPcr);
    InvIgnoresCc(d, FeedPackets(c, ps), p, units + [u]);
  }

  /** The tables if they are due, then the unit. */
  lemma DueUnitDelivered(m: M.State, c: Core, allVideo: bool, known: set<nat>, units: seq<Unit>, u: Unit, due: bool, ts: int,
                         pcr: int, hasPcr: bool)
    requires Linked(m, c, allVideo, known) && (m.pmtDirty ==> due)
    requires var p := ProgramFor(allVideo, known);
             RunInv(AfterTables(c, known), p, units) && AllOk(p, units + [u]) && StreamPid(p, PidOf(u))
    ensures var (m1, psi) := Preamble(m, due, ts);
            var (m2, ps) := M.PesStep(m1, PidOf(u), PesOf(u), pcr, hasPcr);
            Sized(psi + ps) &&
            var c1 := FeedPackets(c, psi + ps);
            && Linked(m2, c1, allVideo, known) && c1.gaps == c.gaps
            && RunInv(c1, ProgramFor(allVideo, known), units + [u])
  {
    var p := ProgramFor(allVideo, known);
    hide ProgramFor, PesOf, FeedPackets, M.PsiStep, M.PesStep, RunInv, AllOk, UnitOk, StreamPid, Preamble;
    NotCrashed(AfterTables(c, known), p, units);
    PreambleLinks(m, c, allVideo, known, due, ts);
    hide Linked;
    var (m1, psi) := Preamble(m, due, ts);
    var c1 := FeedPackets(c, psi);
    InvIgnoresCc(AfterTables(c, known), c1, p, units);
    UnitDelivered(m1, c1, allVideo, known, units, u, pcr, hasPcr);
    FeedPacketsAppend(c, psi, M.PesStep(m1, PidOf(u), PesOf(u), pcr, hasPcr).1);
  }

  lemma TagDelivered(m: M.State, c: Core, allVideo: bool, known: set<nat>, units: seq<Unit>, tag: M.Tag)
    requires Linked(m, c, allVideo, known) && NoNewSlot(known, tag) && UnitOf(m, tag).Some?
    requires var p := ProgramFor(allVideo, known);
             RunInv(AfterTables(c, known), p, units) && AllOk(p, units + [UnitOf(m, tag).value])
    ensures var (m1, packets) := M.TagStep(m, tag);
            Sized(packets) &&
            var c1 := FeedPackets(c, packets);
            && Linked(m1, c1, allVideo, known) && c1.gaps == c.gaps && c1.program == ProgramFor(allVideo, known)
            && RunInv(AfterTables(c1, known), ProgramFor(allVideo, known), units + [UnitOf(m, tag).value])
  {
    var p := ProgramFor(allVideo, known);
    var u := UnitOf(m, tag).value;
    AllOkPrefix(p, units, u);
    StreamPids(allVideo, known, u);
    assert m.known == known;
    SoundingTag(m, tag);
    hide *;
    var due := if u.VideoUnit? then M.PsiDue(m, tag.ts) else m.pmtDirty;
    DueWhenDirty(m, tag.ts);
    var pcr := if u.VideoUnit? then tag.ts * 90 else 0;
    DueUnitDelivered(m, c, allVideo, known, units, u, due, tag.ts, pcr, u.VideoUnit?);
    var c1 := FeedPackets(c, M.TagStep(m, tag).1);
    NotCrashed(c1, p, units + [u]);
    TablesReadAlready(c1, allVideo, known);
  }

  lemma TablesReadAlready(c: Core, allVideo: bool, known: set<nat>)
    requires c.program == ProgramFor(allVideo, known)
    ensures AfterTables(c, known) == c
  {
    ProgramForIsRead(allVideo, known);
    hide ProgramFor;
  }

  lemma DueWhenDirty(m: M.State, ts: int)
    ensures m.pmtDirty ==> M.PsiDue(m, ts)
  {
  }

  lemma NotCrashed(c: Core, p: Program, units: seq<Unit>)
    requires RunInv(c, p, units)
    ensures !c.es.crashed && c.program == p
  {
  }

  lemma InvIgnoresCc(c: Core, c1: Core, p: Program, units: seq<Unit>)
    requires RunInv(c, p, units) && c1 == c.(cc := c1.cc)
    ensures RunInv(c1, p, units)
  {
    hide EsInv, Of, PesOf;
    forall pid | KnownStream(p, pid) ensures PidInv(c1, p, pid, Of(units, pid)) {
      assert PidInv(c, p, pid, Of(units, pid));
    }
  }

  // ----- whole runs -----

  lemma {:induction false} AllOkFront(p: Program, a: seq<Unit>, b: seq<Unit>)
    requires AllOk(p, a + b)
    ensures AllOk(p, a)
    decreases |b|
  {
    hide AllOk;
    if b == [] {
      assert a + b == a;
    } else {
      var init, last := b[..|b| - 1], b[|b| - 1];
      assert a + b == (a + init) + [last];
      AllOkPrefix(p, a + init, last);
      AllOkFront(p, a, init);
    }
  }

  lemma TagsSplit(m: M.State, tags: seq<M.Tag>)
    requires tags != []
    ensures var (m1, p1) := M.TagStep(m, tags[0]);
            var (m2, p2) := M.TagSteps(m1, tags[1..]);
            M.TagSteps(m, tags) == (m2, p1 + p2)
    ensures Units(m, tags) == OneUnit(UnitOf(m, tags[0])) + Units(M.TagStep(m, tags[0]).0, tags[1..])
  {
    hide M.TagStep, UnitOf;
  }

  /** By induction over the tags: every unit is delivered, no counter skips. */
  lemma {:induction false} RunDelivered(m: M.State, c: Core, allVideo: bool, known: set<nat>, units: seq<Unit>, tags: seq<M.Tag>)
    requires Linked(m, c, allVideo, known) && (forall t :: t in tags ==> NoNewSlot(known, t))
    requires var p := ProgramFor(allVideo, known);
             RunInv(AfterTables(c, known), p, units) && AllOk(p, units + Units(m, tags))
    ensures var (m1, packets) := M.TagSteps(m, tags);
            Sized(packets) &&
            var c1 := FeedPackets(c, packets);
            && c1.gaps == c.gaps
            && RunInv(AfterTables(c1, known), ProgramFor(allVideo, known), units + Units(m, tags))
            && (Units(m, tags) != [] || c.program == ProgramFor(allVideo, known) ==>
                  c1.program == ProgramFor(allVideo, known))
            && (Units(m, tags) == [] ==> packets == [])
    decreases |tags|
  {
    var p := ProgramFor(allVideo, known);
    hide ProgramFor, RunInv, AllOk, M.TagStep, UnitOf, NoNewSlot, FeedPackets;
    FeedNothing(c);
    if tags == [] {
      assert units + Units(m, tags) == units;
    } else {
      TagsSplit(m, tags);
      hide Units, M.TagSteps;
      var (m1, p1) := M.TagStep(m, tags[0]);
      var rest := Units(m1, tags[1..]);
      assert tags[0] in tags && forall t :: t in tags[1..] ==> t in tags;
      match UnitOf(m, tags[0])
      case None =>
        SilentLinks(m, c, allVideo, known, tags[0]);
        assert [] + rest == rest;
        RunDelivered(m1, c, allVideo, known, units, tags[1..]);
        assert [] + M.TagSteps(m1, tags[1..]).1 == M.TagSteps(m1, tags[1..]).1;
      case Some(u) =>
        assert units + ([u] + rest) == (units + [u]) + rest;
        AllOkFront(p, units + [u], rest);
        TagDelivered(m, c, allVideo, known, units, tags[0]);
        RunDelivered(m1, FeedPackets(c, p1), allVideo, known, units + [u], tags[1..]);
        FeedPacketsAppend(c, p1, M.TagSteps(m1, tags[1..]).1);
    }
  }

  lemma SilentLinks(m: M.State, c: Core, allVideo: bool, known: set<nat>, tag: M.Tag)
    requires Linked(m, c, allVideo, known) && NoNewSlot(known, tag) && UnitOf(m, tag).None?
    ensures var (m1, packets) := M.TagStep(m, tag); packets == [] && Linked(m1, c, allVideo, known)
  {
    hide ProgramFor, M.TagStep, UnitOf, Counters;
    SilentTag(m, tag);
    CountersDependOnCc(m, c, M.TagStep(m, tag).0, c);
  }

  /** A codec header or metadata. */
  predicate Declares(tag: M.Tag)
  {
    if tag.tagType == Flv.TAG_VIDEO then Flv.IsAvcSeqHeader(tag.payload)
    else if tag.tagType == Flv.TAG_AUDIO then Flv.IsAacSeqHeader(M.SlotOf(tag.payload).1)
    else true
  }

  /** The multiplexer once these tags have been written to a new connection. */
  function After(tags: seq<M.Tag>): M.State
  {
    M.TagSteps(M.FRESH, tags).0
  }

  lemma DeclarationStays(m: M.State, tag: M.Tag)
    requires Declares(tag) && m.pmtDirty
    ensures var (m1, packets) := M.TagStep(m, tag); packets == [] && m1.cc == m.cc && m1.pmtDirty
    ensures UnitOf(m, tag).None?
  {
    hide ParseAvcConfig, ParseAsc, Flv.UnwrapMultitrackAudio, M.PsiStep, M.PesStep, M.VideoPes, M.AudioPes, M.UnitsOf;
  }

  lemma {:induction false} DeclarationsAreSilent(m: M.State, tags: seq<M.Tag>)
    requires m.pmtDirty && forall t :: t in tags ==> Declares(t)
    ensures var (m1, packets) := M.TagSteps(m, tags); packets == [] && m1.cc == m.cc && m1.pmtDirty
    decreases |tags|
  {
    hide M.TagStep, Declares;
    if tags != [] {
      assert tags[0] in tags && forall t :: t in tags[1..] ==> t in tags;
      DeclarationStays(m, tags[0]);
      DeclarationsAreSilent(M.TagStep(m, tags[0]).0, tags[1..]);
    }
  }

  lemma {:induction false} TagStepsAppend(m: M.State, a: seq<M.Tag>, b: seq<M.Tag>)
    ensures var (m1, p1) := M.TagSteps(m, a);
            var (m2, p2) := M.TagSteps(m1, b);
            M.TagSteps(m, a + b) == (m2, p1 + p2)
    decreases |a|
  {
    hide M.TagStep;
    if a == [] {
      assert a + b == b;
      assert [] + M.TagSteps(m, b).1 == M.TagSteps(m, b).1;
    } else {
      assert (a + b)[0] == a[0] && (a + b)[1..] == a[1..] + b;
      var (mA, x) := M.TagStep(m, a[0]);
      TagStepsAppend(mA, a[1..], b);
      var (m1, p1) := M.TagSteps(mA, a[1..]);
      assert x + (p1 + M.TagSteps(m1, b).1) == (x + p1) + M.TagSteps(m1, b).1;
    }
  }

  /** What a run must satisfy: the output slots are declared before the first media tag, and both sides can
      carry the units. */
  ghost predicate RunOk(allVideo: bool, decl: seq<M.Tag>, media: seq<M.Tag>)
  {
    && (forall t :: t in decl ==> Declares(t))
    && (forall t :: t in media ==> NoNewSlot(After(decl).known, t))
    && AllOk(ProgramFor(allVideo, After(decl).known), Units(After(decl), media))
  }

  lemma EmptyInv(allVideo: bool, known: set<nat>)
    ensures RunInv(AfterTables(Fresh(allVideo).core, known), ProgramFor(allVideo, known), [])
  {
    hide ProgramFor;
  }

  lemma FreshLinked(decl: seq<M.Tag>, allVideo: bool)
    requires forall t :: t in decl ==> Declares(t)
    ensures Linked(After(decl), Fresh(allVideo).core, allVideo, After(decl).known) && M.TagSteps(M.FRESH, decl).1 == []
  {
    hide ProgramFor, M.TagSteps, Declares;
    DeclarationsAreSilent(M.FRESH, decl);
  }

  /** Muxing, cutting, demuxing and flushing returns every stream's frames in order, shifted by one origin. */
  lemma MuxDemuxRoundTrip(allVideo: bool, decl: seq<M.Tag>, media: seq<M.Tag>, pieces: seq<bytes>)
    requires RunOk(allVideo, decl, media)
    requires Concat(pieces) == Concat(M.TagSteps(M.FRESH, decl + media).1)
    ensures var d := Flush(FeedAllPieces(Fresh(allVideo), pieces));
            var p := ProgramFor(allVideo, After(decl).known);
            && d.buf == [] && d.core.pes == map[] && !d.core.es.crashed && d.core.gaps == 0
            && forall pid :: KnownStream(p, pid) ==>
                 && MediaOf(d.core.es.out, RoleOf(p, pid))
                    == Shifted(FramesOf(Of(Units(After(decl), media), pid)), Origin(d.core.es))
                 && Announced(d.core.es, pid, RoleOf(p, pid), Of(Units(After(decl), media), pid))
  {
    var m0 := After(decl);
    var c0 := Fresh(allVideo).core;
    var p := ProgramFor(allVideo, m0.known);
    var units := Units(m0, media);
    hide ProgramFor, RunInv, AllOk, M.TagSteps, Units, Declares, NoNewSlot, FeedPackets, MediaOf, FramesOf, Of, FeedBytes,
      FinalizeAll, Concat, Announced;
    FreshLinked(decl, allVideo);
    EmptyInv(allVideo, m0.known);
    assert [] + units == units;
    RunDelivered(m0, c0, allVideo, m0.known, [], media);
    TagStepsAppend(M.FRESH, decl, media);
    var packets := M.TagSteps(m0, media).1;
    assert [] + packets == packets;
    var c1 := FeedPackets(c0, packets);
    FeedIgnoresCuts(Fresh(allVideo), pieces);
    FeedBytesIsFeedPackets(c0, packets);
    assert [] + Concat(packets) == Concat(packets);
    if units == [] {
      FeedNothing(c0);
      NothingDelivered(c0, p);
    } else {
      ProgramForIsRead(allVideo, m0.known);
      FlushDelivers(c1, allVideo, m0.known, units);
    }
  }

  lemma NothingDelivered(c: Core, p: Program)
    requires c.pes == map[] && c.pesOrder == [] && c.es.out == [] && c.es.sps == map[] && c.es.pps == map[] && c.es.aac == map[]
    ensures FinalizeAll(c, c.pesOrder) == c
    ensures forall pid :: KnownStream(p, pid) ==>
              && MediaOf(c.es.out, RoleOf(p, pid)) == Shifted(FramesOf(Of([], pid)), Origin(c.es))
              && Announced(c.es, pid, RoleOf(p, pid), Of([], pid))
  {
  }

  lemma FlushDelivers(c: Core, allVideo: bool, known: set<nat>, units: seq<Unit>)
    requires var p := ProgramFor(allVideo, known); RunInv(c, p, units) && AllOk(p, units)
    ensures var p := ProgramFor(allVideo, known);
            var c' := FinalizeAll(c, c.pesOrder);
            && c'.pes == map[] && !c'.es.crashed && c'.gaps == c.gaps
            && forall pid :: KnownStream(p, pid) ==>
                 && MediaOf(c'.es.out, RoleOf(p, pid)) == Shifted(FramesOf(Of(units, pid)), Origin(c'.es))
                 && Announced(c'.es, pid, RoleOf(p, pid), Of(units, pid))
  {
    var p := ProgramFor(allVideo, known);
    hide ProgramFor, AllOk, PesOf, FinalizeAll, MediaOf, FramesOf, Of, ClocksAre, Announced;
    FlushCloses(c, allVideo, known, units, c.pesOrder);
    var c' := FinalizeAll(c, c.pesOrder);
    forall pid | KnownStream(p, pid)
      ensures MediaOf(c'.es.out, RoleOf(p, pid)) == Shifted(FramesOf(Of(units, pid)), Origin(c'.es))
      ensures Announced(c'.es, pid, RoleOf(p, pid), Of(units, pid))
    {
      assert PidInv(c', p, pid, Of(units, pid));
    }
  }
}
