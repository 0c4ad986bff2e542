// Continuity counters over a whole connection: whatever is multiplexed, they run on per PID, and a demultiplexer
// counts no gap.
module TsContinuity {
  import opened Bytes
  import opened TsPackets
  import opened TsDemux
  import opened TsTransport
  import M = TsMux
  import Flv

  /** A full-size packet with a payload, on this PID and with this counter. */
  predicate Numbered(pkt: bytes, pid: nat, cc: nat)
  {
    |pkt| == PACKET_SIZE &&
    var p := ParseTsPacket(pkt);
    p.Packet? && p.pid == pid && p.cc == cc && p.control % 2 == 1
  }

  predicate Counted(pkt: bytes)
  {
    |pkt| == PACKET_SIZE &&
    var p := ParseTsPacket(pkt);
    p.Packet? && p.control % 2 == 1 && p.pid != NULL_PID
  }

  ghost predicate AllCounted(packets: seq<bytes>)
  {
    forall p :: p in packets ==> Counted(p)
  }

  function PidOf(pkt: bytes): nat
    requires Counted(pkt)
  {
    ParseTsPacket(pkt).pid
  }

  function CounterOf(pkt: bytes): nat
    requires Counted(pkt)
  {
    ParseTsPacket(pkt).cc
  }

  /** The counter of the last packet on a PID. */
  ghost function LastOn(packets: seq<bytes>, pid: nat): Option<nat>
    requires AllCounted(packets)
  {
    if packets == [] then None
    else
      var last := packets[|packets| - 1];
      assert last in packets;
      if PidOf(last) == pid then Some(CounterOf(last)) else LastOn(packets[..|packets| - 1], pid)
  }

  predicate Follows(last: Option<nat>, cc: nat)
  {
    last.Some? ==> cc == (last.value + 1) % 16
  }

  /** On every PID each counter is one more, modulo 16, than the one before it on that PID. */
  ghost predicate Consecutive(packets: seq<bytes>)
  {
    AllCounted(packets) &&
    forall j :: 0 <= j < |packets| ==> Follows(LastOn(packets[..j], PidOf(packets[j])), CounterOf(packets[j]))
  }

  // ----- the multiplexer counts on -----

  /** The multiplexer's next counters continue what has been written. */
  ghost predicate Continues(packets: seq<bytes>, m: M.State)
  {
    Consecutive(packets) && forall pid :: M.CcOf(m, pid) < 16 && Follows(LastOn(packets, pid), M.CcOf(m, pid))
  }

  lemma ConsecutiveSnoc(packets: seq<bytes>, pkt: bytes, pid: nat, cc: nat)
    requires Consecutive(packets) && Numbered(pkt, pid, cc) && pid != NULL_PID && Follows(LastOn(packets, pid), cc)
    ensures Consecutive(packets + [pkt])
    ensures forall q :: LastOn(packets + [pkt], q) == if q == pid then Some(cc) else LastOn(packets, q)
  {
    hide ParseTsPacket;
    var all := packets + [pkt];
    assert all[..|packets|] == packets;
    assert AllCounted(all);
    forall j | 0 <= j < |all| ensures Follows(LastOn(all[..j], PidOf(all[j])), CounterOf(all[j])) {
      assert all[..j] == if j == |packets| then packets else packets[..j];
    }
  }

  /** A row of packets on one PID with counters running on from cc. */
  lemma {:induction false} RowFollows(packets: seq<bytes>, row: seq<bytes>, pid: nat, cc: nat)
    requires Consecutive(packets) && pid != NULL_PID && cc < 16 && Follows(LastOn(packets, pid), cc)
    requires forall i :: 0 <= i < |row| ==> Numbered(row[i], pid, (cc + i) % 16)
    ensures Consecutive(packets + row)
    ensures forall q :: LastOn(packets + row, q)
                        == if q == pid && row != [] then Some((cc + |row| - 1) % 16) else LastOn(packets, q)
    decreases |row|
  {
    hide Numbered, Consecutive, LastOn;
    if row == [] {
      assert packets + row == packets;
    } else {
      var init, last := row[..|row| - 1], row[|row| - 1];
      RowFollows(packets, init, pid, cc);
      assert packets + row == (packets + init) + [last];
      assert AllCounted(packets + init) by { ConsecutiveCounted(packets + init); }
      NextCounter(cc, |init|);
      ConsecutiveSnoc(packets + init, last, pid, (cc + |init|) % 16);
    }
  }

  lemma ConsecutiveCounted(packets: seq<bytes>)
    requires Consecutive(packets)
    ensures AllCounted(packets)
  {
  }

  lemma NextCounter(cc: nat, n: nat)
    ensures n > 0 ==> (cc + n) % 16 == ((cc + n - 1) % 16 + 1) % 16
    ensures n == 0 && cc < 16 ==> (cc + n) % 16 == cc
  {
  }

  lemma RowContinues(packets: seq<bytes>, m: M.State, row: seq<bytes>, pid: nat, m': M.State)
    requires Continues(packets, m) && pid != NULL_PID && row != []
    requires forall i :: 0 <= i < |row| ==> Numbered(row[i], pid, (M.CcOf(m, pid) + i) % 16)
    requires m'.cc == M.BumpCc(m, pid, |row|).cc
    ensures Continues(packets + row, m')
  {
    hide Numbered, Consecutive, LastOn;
    assert AllCounted(packets) by { ConsecutiveCounted(packets); }
    assert M.CcOf(m, pid) < 16;
    RowFollows(packets, row, pid, M.CcOf(m, pid));
    ConsecutiveCounted(packets + row);
    NextCounter(M.CcOf(m, pid), |row|);
    forall q ensures M.CcOf(m', q) < 16 && Follows(LastOn(packets + row, q), M.CcOf(m', q)) {
      assert M.CcOf(m, q) < 16 && Follows(LastOn(packets, q), M.CcOf(m, q));
    }
  }

  lemma PesContinues(packets: seq<bytes>, m: M.State, pid: nat, pes: bytes, pcr: int, hasPcr: bool)
    requires Continues(packets, m) && pid < NULL_PID && |pes| > 0
    ensures var (m1, ps) := M.PesStep(m, pid, pes, pcr, hasPcr); Continues(packets + ps, m1)
  {
    hide Consecutive, LastOn, PacketsFrom, ParseTsPacket, M.BumpCc;
    assert M.CcOf(m, pid) < 16;
    var (m1, ps) := M.PesStep(m, pid, pes, pcr, hasPcr);
    PacketsCarryPes(pid, pes, M.CcOf(m, pid), pcr, hasPcr);
    hide Continues;
    RowContinues(packets, m, ps, pid, m1);
  }

  lemma PsiContinues(packets: seq<bytes>, m: M.State, ts: int)
    requires Continues(packets, m)
    ensures var (m1, ps) := M.PsiStep(m, ts); Continues(packets + ps, m1)
  {
    hide Consecutive, LastOn, ParseTsPacket, M.PmtSectionOf, BuildPat, PsiPacket;
    assert M.CcOf(m, PID_PAT) < 16 && M.CcOf(m, PID_PMT) < 16;
    var pat := PsiPacket(PID_PAT, BuildPat(PID_PMT), M.CcOf(m, PID_PAT));
    var pmt := PsiPacket(PID_PMT, M.PmtSectionOf(m.known, m.pmtVersion), M.CcOf(m, PID_PMT));
    PsiPacketParses(PID_PAT, BuildPat(PID_PMT), M.CcOf(m, PID_PAT));
    PsiPacketParses(PID_PMT, M.PmtSectionOf(m.known, m.pmtVersion), M.CcOf(m, PID_PMT));
    var m0 := M.BumpCc(m, PID_PAT, 1);
    assert M.CcOf(m0, PID_PMT) == M.CcOf(m, PID_PMT);
    hide Continues;
    RowContinues(packets, m, [pat], PID_PAT, m0);
    RowContinues(packets + [pat], m0, [pmt], PID_PMT, M.PsiStep(m, ts).0);
    assert (packets + [pat]) + [pmt] == packets + M.PsiStep(m, ts).1;
  }

  lemma ContinuesDependsOnCc(packets: seq<bytes>, m: M.State, m': M.State)
    requires Continues(packets, m) && m'.cc == m.cc
    ensures Continues(packets, m') && Continues(packets + [], m')
  {
    hide Consecutive, LastOn;
    assert packets + [] == packets;
    assert forall pid :: M.CcOf(m', pid) == M.CcOf(m, pid);
  }

  /** The tables if they are due, then a PES. */
  lemma DueContinues(packets: seq<bytes>, m: M.State, due: bool, ts: int, pid: nat, pes: bytes, pcr: int, hasPcr: bool)
    requires Continues(packets, m) && pid < NULL_PID && |pes| > 0
    ensures var (m1, psi) := if due then M.PsiStep(m, ts) else (m, []);
            var (m2, ps) := M.PesStep(m1, pid, pes, pcr, hasPcr);
            Continues(packets + (psi + ps), m2)
  {
    hide Continues, M.PsiStep, M.PesStep;
    var (m1, psi) := if due then M.PsiStep(m, ts) else (m, []);
    if due {
      PsiContinues(packets, m, ts);
    } else {
      ContinuesDependsOnCc(packets, m, m);
    }
    PesContinues(packets + psi, m1, pid, pes, pcr, hasPcr);
    assert (packets + psi) + M.PesStep(m1, pid, pes, pcr, hasPcr).1 == packets + (psi + M.PesStep(m1, pid, pes, pcr, hasPcr).1);
  }

  lemma VideoContinues(packets: seq<bytes>, m: M.State, ts: int, payload: bytes)
    requires Continues(packets, m)
    ensures var (m1, ps) := M.VideoStep(m, ts, payload); Continues(packets + ps, m1)
  {
    hide Continues, M.PsiStep, M.PesStep, BuildPes, ParseAvcConfig, M.UnitsOf, M.PsiDue;
    ContinuesDependsOnCc(packets, m, M.VideoStep(m, ts, payload).0.(cc := m.cc));
    ContinuesDependsOnCc(packets, m, m);
    if |payload| >= 5 {
      DueContinues(packets, m, M.PsiDue(m, ts), ts, PID_VIDEO, M.VideoPes(m, ts, payload), ts * 90, true);
    }
  }

  lemma AudioContinues(packets: seq<bytes>, m: M.State, ts: int, payload: bytes)
    requires Continues(packets, m)
    ensures var (m1, ps) := M.AudioStep(m, ts, payload); Continues(packets + ps, m1)
  {
    hide Continues, M.PsiStep, M.PesStep, BuildPes, ParseAsc, M.SlotOf;
    ContinuesDependsOnCc(packets, m, M.AudioStep(m, ts, payload).0.(cc := m.cc));
    ContinuesDependsOnCc(packets, m, m);
    var (slot, raw) := M.SlotOf(payload);
    var m0 := M.RegisterSlot(m, slot);
    if slot < Flv.MAX_AUDIO_SLOTS && |raw| >= 2 && slot in m.audioCfg {
      ContinuesDependsOnCc(packets, m, m0);
      DueContinues(packets, m0, m0.pmtDirty, ts, PID_AUDIO_BASE + slot, M.AudioPes(m.audioCfg[slot], ts, raw[2..]), 0, false);
    }
  }

  lemma TagContinues(packets: seq<bytes>, m: M.State, tag: M.Tag)
    requires Continues(packets, m)
    ensures var (m1, ps) := M.TagStep(m, tag); Continues(packets + ps, m1)
  {
    hide Continues, M.VideoStep, M.AudioStep;
    ContinuesDependsOnCc(packets, m, m);
    if tag.tagType == Flv.TAG_VIDEO {
      VideoContinues(packets, m, tag.ts, tag.payload);
    } else if tag.tagType == Flv.TAG_AUDIO {
      AudioContinues(packets, m, tag.ts, tag.payload);
    }
  }

  lemma {:induction false} TagsContinue(packets: seq<bytes>, m: M.State, tags: seq<M.Tag>)
    requires Continues(packets, m)
    ensures var (m1, ps) := M.TagSteps(m, tags); Continues(packets + ps, m1)
    decreases |tags|
  {
    hide Continues, M.TagStep;
    if tags == [] {
      ContinuesDependsOnCc(packets, m, m);
    } else {
      TagContinues(packets, m, tags[0]);
      var (m1, p1) := M.TagStep(m, tags[0]);
      TagsContinue(packets + p1, m1, tags[1..]);
      assert (packets + p1) + M.TagSteps(m1, tags[1..]).1 == packets + (p1 + M.TagSteps(m1, tags[1..]).1);
    }
  }

  /** Whatever tags are written to a connection, slots registered on the way included: every packet has full size, and
      on every PID the counters run on one by one modulo 16. */
  lemma CountersRunOn(tags: seq<M.Tag>)
    ensures var ps := M.TagSteps(M.FRESH, tags).1; Sized(ps) && Consecutive(ps)
  {
    hide *;
    NothingWritten();
    TagsContinue([], M.FRESH, tags);
    var ps := M.TagSteps(M.FRESH, tags).1;
    assert [] + ps == ps;
    ContinuesSized(ps, M.TagSteps(M.FRESH, tags).0);
  }

  lemma ContinuesSized(packets: seq<bytes>, m: M.State)
    requires Continues(packets, m)
    ensures Sized(packets) && Consecutive(packets)
  {
    ConsecutiveCounted(packets);
    hide Consecutive, LastOn, ParseTsPacket;
  }

  lemma NothingWritten()
    ensures Continues([], M.FRESH)
  {
    hide ParseTsPacket;
  }

  // ----- the demultiplexer counts no gap -----

  /** What the demultiplexer remembers of the packets it was fed. */
  ghost predicate Remembers(c: Core, packets: seq<bytes>)
    requires AllCounted(packets)
  {
    forall pid :: LastOn(packets, pid) == if pid in c.cc then Some(c.cc[pid]) else None
  }

  lemma RouteKeepsCounters(c: Core, pid: nat, payload: bytes, pusi: bool)
    ensures var d := RoutePayload(c, pid, payload, pusi); d.cc == c.cc && d.gaps == c.gaps
  {
    FinalizeKeepsCounters(c, pid);
    hide FinalizePes, FeedPat, FeedPmt;
  }

  lemma FinalizeKeepsCounters(c: Core, pid: nat)
    ensures var d := FinalizePes(c, pid); d.cc == c.cc && d.gaps == c.gaps
  {
    hide ParsePes, HandleEs;
  }

  /** A running demultiplexer counts a gap at a packet exactly when its counter does not follow the last on its PID. */
  lemma GapIff(c: Core, packets: seq<bytes>, pkt: bytes)
    requires AllCounted(packets) && Counted(pkt) && !c.es.crashed && Remembers(c, packets)
    ensures var d := FeedPacket(c, pkt);
            && d.gaps == c.gaps + (if Follows(LastOn(packets, PidOf(pkt)), CounterOf(pkt)) then 0 else 1)
            && d.cc == c.cc[PidOf(pkt) := CounterOf(pkt)]
  {
    hide ParseTsPacket, RoutePayload, LastOn;
    var p := ParseTsPacket(pkt);
    if p.payload.Some? {
      RouteKeepsCounters(CountPacket(c, p), p.pid, p.payload.value, p.pusi);
    }
  }

  lemma ConsecutiveFront(packets: seq<bytes>)
    requires Consecutive(packets) && packets != []
    ensures Consecutive(packets[..|packets| - 1])
  {
    hide ParseTsPacket, Counted, LastOn;
    var init := packets[..|packets| - 1];
    forall j | 0 <= j < |init| ensures Follows(LastOn(init[..j], PidOf(init[j])), CounterOf(init[j])) {
      assert init[..j] == packets[..j] && init[j] == packets[j];
    }
  }

  lemma LastOnSnoc(packets: seq<bytes>, pkt: bytes)
    requires AllCounted(packets) && Counted(pkt)
    ensures AllCounted(packets + [pkt])
    ensures forall q :: LastOn(packets + [pkt], q) == if q == PidOf(pkt) then Some(CounterOf(pkt)) else LastOn(packets, q)
  {
    hide ParseTsPacket, Counted;
    assert (packets + [pkt])[..|packets|] == packets;
  }

  lemma {:induction false} FeedSeesNoGap(allVideo: bool, packets: seq<bytes>)
    requires Consecutive(packets)
    ensures Sized(packets)
    ensures var c := FeedPackets(Fresh(allVideo).core, packets);
            c.gaps == 0 && (c.es.crashed || Remembers(c, packets))
    decreases |packets|
  {
    hide *;
    if packets == [] {
      NothingFed(allVideo);
    } else {
      var init, last := packets[..|packets| - 1], packets[|packets| - 1];
      ConsecutiveFront(packets);
      LastFollows(packets);
      FeedSeesNoGap(allVideo, init);
      assert packets == init + [last];
      NextSeesNoGap(Fresh(allVideo).core, init, last);
    }
  }

  lemma NothingFed(allVideo: bool)
    ensures Sized([]) && AllCounted([])
    ensures var c := FeedPackets(Fresh(allVideo).core, []); c.gaps == 0 && Remembers(c, [])
  {
    hide FeedPacket, ParseTsPacket;
  }

  lemma NextSeesNoGap(c0: Core, init: seq<bytes>, last: bytes)
    requires Sized(init) && AllCounted(init) && Counted(last) && Follows(LastOn(init, PidOf(last)), CounterOf(last))
    requires var c := FeedPackets(c0, init); c.gaps == 0 && (c.es.crashed || Remembers(c, init))
    ensures Sized(init + [last]) && AllCounted(init + [last])
    ensures var c := FeedPackets(c0, init + [last]); c.gaps == 0 && (c.es.crashed || Remembers(c, init + [last]))
  {
    hide ParseTsPacket, FeedPacket, PidOf, CounterOf, LastOn, FeedPackets;
    var c := FeedPackets(c0, init);
    FeedOne(c, last);
    FeedPacketsAppend(c0, init, [last]);
    LastOnSnoc(init, last);
    if c.es.crashed {
      CrashedStays(c, last);
    } else {
      GapIff(c, init, last);
    }
  }

  lemma LastFollows(packets: seq<bytes>)
    requires Consecutive(packets) && packets != []
    ensures var init, last := packets[..|packets| - 1], packets[|packets| - 1];
            AllCounted(init) && Counted(last) && Follows(LastOn(init, PidOf(last)), CounterOf(last))
  {
    hide ParseTsPacket, LastOn;
    assert packets[|packets| - 1] in packets;
  }

  lemma FeedOne(c: Core, p: bytes)
    requires |p| == PACKET_SIZE
    ensures Sized([p]) && FeedPackets(c, [p]) == FeedPacket(c, p)
  {
    hide FeedPacket;
    assert [p][1..] == [];
    assert FeedPackets(FeedPacket(c, p), []) == FeedPacket(c, p);
  }

  lemma CrashedStays(c: Core, p: bytes)
    requires |p| == PACKET_SIZE && c.es.crashed
    ensures FeedPacket(c, p) == c
  {
    hide ParseTsPacket;
  }

  /** Whatever tags are written to a connection and however the octets are cut, the demultiplexer counts no gap. */
  lemma ConnectionHasNoGap(allVideo: bool, tags: seq<M.Tag>, pieces: seq<bytes>)
    requires Concat(pieces) == Concat(M.TagSteps(M.FRESH, tags).1)
    ensures var d := FeedAllPieces(Fresh(allVideo), pieces); d.core.gaps == 0 && d.buf == []
  {
    var ps := M.TagSteps(M.FRESH, tags).1;
    CountersRunOn(tags);
    FeedSeesNoGap(allVideo, ps);
    hide M.TagSteps, FeedPackets, FeedBytes, Concat, Consecutive, FeedAllPieces;
    FeedIgnoresCuts(Fresh(allVideo), pieces);
    FeedBytesIsFeedPackets(Fresh(allVideo).core, ps);
    assert [] + Concat(ps) == Concat(ps);
  }
}
