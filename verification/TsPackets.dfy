// The layouts one side prints and the other parses: PES and transport packets (ISO/IEC 13818-1, sections
// 2.4.3.2 to 2.4.3.7), program tables (2.4.4), ADTS headers (ISO/IEC 13818-7, section 6.2) and codec
// configurations (ISO/IEC 14496-3 and 14496-15).
module TsPackets {
  import opened Bytes
  import opened Crc
  import opened TsClock

  const PACKET_SIZE := 188
  const SYNC: byte := 0x47
  const NULL_PID := 0x1FFF

  const PID_PAT := 0x0000
  const PID_PMT := 0x1000
  const PID_VIDEO := 0x0100
  const PID_AUDIO_BASE := 0x0101

  const STREAM_VIDEO: byte := 0xE0
  const STREAM_AUDIO: byte := 0xC0

  const TYPE_H264: byte := 0x1B
  const TYPE_AAC_ADTS: byte := 0x0F
  const TYPE_AAC_LATM: byte := 0x11

  function Min(a: nat, b: nat): nat
  {
    if a < b then a else b
  }

  function Fill(n: nat): (r: bytes)
    ensures |r| == n
  {
    seq(n, _ => 0xFF)
  }

  // ----- PES -----

  function BuildPes(streamId: byte, es: bytes, pts90k: int, dts90k: int, hasDts: bool): (r: bytes)
    ensures |r| > 0
  {
    var both := hasDts && dts90k != pts90k;
    var stamps := if both then WriteTs90k(3, pts90k) + WriteTs90k(1, dts90k) else WriteTs90k(2, pts90k);
    var optional: bytes := [0x80, if both then 0xC0 else 0x80, |stamps|] + stamps;
    var bodyLen := |optional| + |es|;
    var pesLen := if streamId == STREAM_AUDIO && bodyLen <= 0xFFFF then bodyLen else 0;
    [0, 0, 1, streamId] + Be16(pesLen) + optional + es
  }

  datatype Pes = Pes(es: bytes, ptsRaw: int, dtsRaw: int)

  /** What a finished assembly buffer holds, if it is a PES packet that carries a timestamp. */
  function ParsePes(data: bytes): Option<Pes>
  {
    if |data| < 9 || data[0] != 0 || data[1] != 0 || data[2] != 1 then None
    else
      var flags := data[7] as int / 64;
      var headerEnd := 9 + data[8] as int;
      if headerEnd > |data| || flags < 2 || |data| < 14 then None
      else
        var pts := ReadTs90k(data[9..14]);
        var dts := if flags == 3 && |data| >= 19 then ReadTs90k(data[14..19]) else pts;
        Some(Pes(data[headerEnd..], pts, dts))
  }

  lemma PesRoundTrips(streamId: byte, es: bytes, pts90k: int, dts90k: int, hasDts: bool)
    ensures ParsePes(BuildPes(streamId, es, pts90k, dts90k, hasDts))
            == Some(Pes(es, pts90k % TWO_TO_33, (if hasDts then dts90k else pts90k) % TWO_TO_33))
  {
    var data := BuildPes(streamId, es, pts90k, dts90k, hasDts);
    Ts90kRoundTrips(2, pts90k);
    if hasDts && dts90k != pts90k {
      Ts90kRoundTrips(3, pts90k);
      Ts90kRoundTrips(1, dts90k);
      assert data[9..14] == WriteTs90k(3, pts90k) && data[14..19] == WriteTs90k(1, dts90k);
      assert data[19..] == es;
    } else {
      assert data[9..14] == WriteTs90k(2, pts90k);
      assert data[14..] == es;
    }
  }

  /** Any other sender's PES parses too: whatever its length says, with any other flags, and with any fields and stuffing
      behind the stamps, as far as one octet can count them. */
  lemma AnyPesParses(streamId: byte, length: nat, first: byte, low: nat, extra: bytes, es: bytes, pts90k: int, dts90k: int, both: bool)
    requires low < 64 && |extra| <= if both then 245 else 250
    ensures var stamps := if both then WriteTs90k(3, pts90k) + WriteTs90k(1, dts90k) else WriteTs90k(2, pts90k);
            var head := [0, 0, 1, streamId] + Be16(length) + [first, (if both then 192 else 128) + low, |stamps| + |extra|];
            ParsePes(head + stamps + extra + es) == Some(Pes(es, pts90k % TWO_TO_33, (if both then dts90k else pts90k) % TWO_TO_33))
  {
    var stamps := if both then WriteTs90k(3, pts90k) + WriteTs90k(1, dts90k) else WriteTs90k(2, pts90k);
    var head := [0, 0, 1, streamId] + Be16(length) + [first, (if both then 192 else 128) + low, |stamps| + |extra|];
    var data := head + stamps + extra + es;
    Ts90kRoundTrips(if both then 3 else 2, pts90k);
    Ts90kRoundTrips(1, dts90k);
    assert |head| == 9 && (128 + low) / 64 == 2 && (192 + low) / 64 == 3;
    assert data[9..14] == WriteTs90k(if both then 3 else 2, pts90k);
    if both {
      assert data[14..19] == WriteTs90k(1, dts90k);
    }
    assert data[9 + |stamps| + |extra|..] == es;
  }

  // ----- transport packets -----

  function BuildTsPacket(pid: nat, cc: nat, pusi: bool, chunk: bytes, pcr: int, hasPcr: bool): bytes
    requires 0 < |chunk| <= if hasPcr then 176 else 184
  {
    var start: byte := (if pusi then 0x40 else 0) + pid / 256 % 32;
    if !hasPcr && |chunk| >= 184 then
      [SYNC, start, pid % 256, 0x10 + cc % 16] + chunk
    else
      var afLen := 183 - |chunk|;
      var body := if hasPcr then EncodePcr(pcr) else [];
      var flags: byte := if hasPcr then 0x10 else 0;
      var stuff := if afLen - 1 - |body| < 0 then 0 else afLen - 1 - |body|;
      [SYNC, start, pid % 256, 0x30 + cc % 16, afLen] + (if afLen > 0 then [flags] + body + Fill(stuff) else []) + chunk
  }

  /** `control` is the adaptation field control; a packet with no payload has none. */
  datatype Packet = NoSync | Packet(pid: nat, pusi: bool, control: nat, cc: nat, payload: Option<bytes>)

  function ParseTsPacket(pkt: bytes): Packet
    requires |pkt| == PACKET_SIZE
  {
    if pkt[0] != SYNC then NoSync
    else
      var control := pkt[3] as int / 16 % 4;
      var start := if control >= 2 then 5 + pkt[4] as int else 4;
      Packet(pkt[1] as int % 32 * 256 + pkt[2] as int, pkt[1] as int / 64 % 2 == 1, control, pkt[3] as int % 16,
             if control == 0 || control == 2 || start >= PACKET_SIZE then None else Some(pkt[start..]))
  }

  lemma PidFields(pid: nat, pusi: bool)
    requires pid < 0x2000
    ensures var start := (if pusi then 0x40 else 0) + pid / 256 % 32;
            start < 256 && start % 32 * 256 + pid % 256 == pid && (start / 64 % 2 == 1 <==> pusi)
  {
    assert pid / 256 % 32 == pid / 256;
  }

  /** A built packet is exactly one packet long and parses back to its parts. */
  lemma TsPacketRoundTrips(pid: nat, cc: nat, pusi: bool, chunk: bytes, pcr: int, hasPcr: bool)
    requires pid < 0x2000 && cc < 16
    requires 0 < |chunk| <= if hasPcr then 176 else 184
    ensures var pkt := BuildTsPacket(pid, cc, pusi, chunk, pcr, hasPcr);
            && |pkt| == PACKET_SIZE
            && var p := ParseTsPacket(pkt);
               p.Packet? && p.pid == pid && p.pusi == pusi && p.cc == cc && p.payload == Some(chunk) && p.control % 2 == 1
  {
    PidFields(pid, pusi);
    var pkt := BuildTsPacket(pid, cc, pusi, chunk, pcr, hasPcr);
    if !hasPcr && |chunk| >= 184 {
      assert pkt[4..] == chunk;
    } else {
      assert (0x30 + cc) / 16 == 3;
      assert pkt[PACKET_SIZE - |chunk|..] == chunk;
    }
  }

  /** Any other sender's packet parses too: an adaptation field is passed over whatever it holds, and a packet of nothing
      but such a field has no payload. */
  lemma AnyPacketParses(pid: nat, pusi: bool, cc: nat, field: bytes, chunk: bytes)
    requires pid < 0x2000 && cc < 16 && |field| + |chunk| == 183
    ensures var start := (if pusi then 0x40 else 0) + pid / 256 % 32;
            && ParseTsPacket([SYNC, start, pid % 256, 0x30 + cc, |field|] + field + chunk)
               == Packet(pid, pusi, 3, cc, if chunk == [] then None else Some(chunk))
            && ParseTsPacket([SYNC, start, pid % 256, 0x20 + cc, |field|] + field + chunk) == Packet(pid, pusi, 2, cc, None)
  {
    PidFields(pid, pusi);
    var start := (if pusi then 0x40 else 0) + pid / 256 % 32;
    assert (0x30 + cc) / 16 % 4 == 3 && (0x20 + cc) / 16 % 4 == 2;
    var pkt := [SYNC, start, pid % 256, 0x30 + cc, |field|] + field + chunk;
    assert pkt[5 + |field|..] == chunk;
  }

  /** How much of a PES the next packet takes. */
  function Take(pes: bytes, usePcr: bool): (n: nat)
    ensures n <= |pes| && n <= (if usePcr then 176 else 184) && (pes != [] ==> n > 0)
  {
    Min(|pes|, if usePcr then 176 else 184)
  }

  /** The packets of a PES, from its first one (which alone carries the unit start and the clock) or a later one. */
  function PacketsFrom(pid: nat, pes: bytes, cc: nat, first: bool, pcr: int, hasPcr: bool): seq<bytes>
    decreases |pes|
  {
    if |pes| == 0 then []
    else
      var n := Take(pes, hasPcr && first);
      [BuildTsPacket(pid, cc, first, pes[..n], pcr, hasPcr && first)]
      + PacketsFrom(pid, pes[n..], (cc + 1) % 16, false, pcr, hasPcr)
  }

  /** Where the packet that starts at offset ends. */
  function EndOf(pes: bytes, offset: nat, hasPcr: bool): (end: nat)
    requires offset < |pes|
    ensures offset < end <= |pes| && end - offset <= if hasPcr && offset == 0 then 176 else 184
  {
    Min(offset + if hasPcr && offset == 0 then 176 else 184, |pes|)
  }

  function NextPacket(pid: nat, pes: bytes, offset: nat, cc: nat, pcr: int, hasPcr: bool): bytes
    requires offset < |pes|
  {
    BuildTsPacket(pid, cc, offset == 0, pes[offset..EndOf(pes, offset, hasPcr)], pcr, hasPcr && offset == 0)
  }

  /** The packets still to come from an offset on. */
  function PacketsAfter(pid: nat, pes: bytes, offset: nat, cc: nat, pcr: int, hasPcr: bool): seq<bytes>
    requires offset <= |pes|
  {
    PacketsFrom(pid, pes[offset..], cc, offset == 0, pcr, hasPcr)
  }

  lemma PacketsStep(packets: seq<bytes>, pid: nat, pes: bytes, offset: nat, cc: nat, pcr: int, hasPcr: bool)
    requires offset < |pes|
    ensures packets + PacketsAfter(pid, pes, offset, cc, pcr, hasPcr)
            == (packets + [NextPacket(pid, pes, offset, cc, pcr, hasPcr)])
               + PacketsAfter(pid, pes, EndOf(pes, offset, hasPcr), (cc + 1) % 16, pcr, hasPcr)
  {
    hide BuildTsPacket;
    var rest := pes[offset..];
    var n := Take(rest, hasPcr && offset == 0);
    assert rest[..n] == pes[offset..offset + n] && rest[n..] == pes[offset + n..];
  }

  lemma CounterStep(cc: nat, n: nat)
    ensures ((cc + n) % 16 + 1) % 16 == (cc + (n + 1)) % 16
  {
  }

  method PesToPackets(pid: nat, pes: bytes, cc: nat, pcr: int, hasPcr: bool) returns (packets: seq<bytes>, next: nat)
    requires cc < 16
    ensures packets == PacketsFrom(pid, pes, cc, true, pcr, hasPcr)
    ensures next == (cc + |packets|) % 16
  {
    packets, next := [], cc;
    var offset := 0;
    assert pes[0..] == pes;
    hide BuildTsPacket;
    while offset < |pes|
      invariant 0 <= offset <= |pes|
      invariant next == (cc + |packets|) % 16
      invariant packets + PacketsAfter(pid, pes, offset, next, pcr, hasPcr)
                == PacketsFrom(pid, pes, cc, true, pcr, hasPcr)
    {
      PacketsStep(packets, pid, pes, offset, next, pcr, hasPcr);
      CounterStep(cc, |packets|);
      packets := packets + [NextPacket(pid, pes, offset, next, pcr, hasPcr)];
      offset := EndOf(pes, offset, hasPcr);
      next := (next + 1) % 16;
    }
  }

  /** Packet i of a PES: full size, its own PID, the unit start only on the very first, consecutive counters. */
  ghost predicate PacketOf(pkt: bytes, pid: nat, pusi: bool, cc: nat)
  {
    && |pkt| == PACKET_SIZE
    && var p := ParseTsPacket(pkt);
       p.Packet? && p.pid == pid && p.pusi == pusi && p.cc == cc && p.payload.Some? && p.control % 2 == 1
  }

  function PayloadsOf(packets: seq<bytes>): bytes
  {
    if packets == [] then []
    else
      var p := if |packets[0]| == PACKET_SIZE then ParseTsPacket(packets[0]) else NoSync;
      (if p.Packet? && p.payload.Some? then p.payload.value else []) + PayloadsOf(packets[1..])
  }

  lemma {:induction false} PayloadsAreThePes(pid: nat, pes: bytes, cc: nat, first: bool, pcr: int, hasPcr: bool)
    requires pid < 0x2000 && cc < 16
    ensures PayloadsOf(PacketsFrom(pid, pes, cc, first, pcr, hasPcr)) == pes
    decreases |pes|
  {
    hide BuildTsPacket, ParseTsPacket;
    if |pes| > 0 {
      var n := Take(pes, hasPcr && first);
      TsPacketRoundTrips(pid, cc, first, pes[..n], pcr, hasPcr && first);
      PayloadsAreThePes(pid, pes[n..], (cc + 1) % 16, false, pcr, hasPcr);
      assert PacketsFrom(pid, pes, cc, first, pcr, hasPcr)[1..]
          == PacketsFrom(pid, pes[n..], (cc + 1) % 16, false, pcr, hasPcr);
      assert pes[..n] + pes[n..] == pes;
    }
  }

  lemma {:induction false} PacketAt(pid: nat, pes: bytes, cc: nat, first: bool, pcr: int, hasPcr: bool, i: nat)
    requires pid < 0x2000 && cc < 16
    requires i < |PacketsFrom(pid, pes, cc, first, pcr, hasPcr)|
    ensures PacketOf(PacketsFrom(pid, pes, cc, first, pcr, hasPcr)[i], pid, first && i == 0, (cc + i) % 16)
    decreases |pes|
  {
    hide BuildTsPacket, ParseTsPacket;
    var n := Take(pes, hasPcr && first);
    TsPacketRoundTrips(pid, cc, first, pes[..n], pcr, hasPcr && first);
    if i > 0 {
      PacketAt(pid, pes[n..], (cc + 1) % 16, false, pcr, hasPcr, i - 1);
      assert ((cc + 1) % 16 + (i - 1)) % 16 == (cc + i) % 16;
    }
  }

  /** The packets of a PES, taken together. */
  lemma PacketsCarryPes(pid: nat, pes: bytes, cc: nat, pcr: int, hasPcr: bool)
    requires pid < 0x2000 && cc < 16 && |pes| > 0
    ensures var ps := PacketsFrom(pid, pes, cc, true, pcr, hasPcr);
            && PayloadsOf(ps) == pes
            && |ps| > 0
            && forall i :: 0 <= i < |ps| ==> PacketOf(ps[i], pid, i == 0, (cc + i) % 16)
  {
    PayloadsAreThePes(pid, pes, cc, true, pcr, hasPcr);
    forall i | 0 <= i < |PacketsFrom(pid, pes, cc, true, pcr, hasPcr)|
      ensures PacketOf(PacketsFrom(pid, pes, cc, true, pcr, hasPcr)[i], pid, i == 0, (cc + i) % 16)
    {
      PacketAt(pid, pes, cc, true, pcr, hasPcr, i);
    }
  }

  // ----- program tables -----

  function PsiSection(tableId: byte, ext: nat, body: bytes, version: nat): (r: bytes)
    requires |body| < 0x1000 - 9
    ensures |r| == |body| + 12
  {
    var core := Be16(ext) + [0xC1 + version % 32 * 2, 0, 0] + body;
    var length := |core| + 4;
    var out := [tableId, 0xB0 + length / 256, length % 256] + core;
    out + CrcOctets(Crc32Mpeg(out, INITIAL))
  }

  /** A receiver that checks a section finds it good. */
  lemma SectionChecks(tableId: byte, ext: nat, body: bytes, version: nat)
    requires |body| < 0x1000 - 9
    ensures Crc32Mpeg(PsiSection(tableId, ext, body, version), INITIAL) == 0
  {
    hide Crc32Mpeg, CrcOctets;
    var core := Be16(ext) + [0xC1 + version % 32 * 2, 0, 0] + body;
    var length := |core| + 4;
    ChecksumClosesToZero([tableId, 0xB0 + length / 256, length % 256] + core);
  }

  function TablePid(pid: nat): (r: bytes)
    ensures |r| == 2
  {
    [0xE0 + pid / 256 % 32, pid % 256]
  }

  function BuildPat(pmtPid: nat): (r: bytes)
    ensures |r| == 16
  {
    PsiSection(0, 1, [0, 1] + TablePid(pmtPid), 0)
  }

  datatype PmtStream = PmtStream(streamType: byte, pid: nat)

  function StreamEntries(streams: seq<PmtStream>): (r: bytes)
    ensures |r| == 5 * |streams|
  {
    if streams == [] then []
    else [streams[0].streamType] + TablePid(streams[0].pid) + [0xF0, 0] + StreamEntries(streams[1..])
  }

  function BuildPmt(pcrPid: nat, streams: seq<PmtStream>, version: nat): bytes
    requires |streams| < 700
  {
    PsiSection(2, 1, TablePid(pcrPid) + [0xF0, 0] + StreamEntries(streams), version)
  }

  /** A table section in one packet, behind a zero pointer field. */
  function PsiPacket(pid: nat, section: bytes, cc: nat): (r: bytes)
    requires |section| <= 183
    ensures |r| == PACKET_SIZE
  {
    [SYNC, 0x40 + pid / 256 % 32, pid % 256, 0x10 + cc % 16, 0] + section + Fill(183 - |section|)
  }

  lemma PsiPacketParses(pid: nat, section: bytes, cc: nat)
    requires pid < 0x2000 && |section| <= 183 && cc < 16
    ensures ParseTsPacket(PsiPacket(pid, section, cc))
            == Packet(pid, true, 1, cc, Some([0] + section + Fill(183 - |section|)))
  {
    PidFields(pid, true);
    assert PsiPacket(pid, section, cc)[4..] == [0] + section + Fill(183 - |section|);
  }

  // ----- ADTS -----

  datatype Adts = Adts(aot: nat, sfi: nat, channels: nat, frameLength: nat, headerLen: nat)

  function ParseAdts(data: bytes, offset: nat): Option<Adts>
  {
    if offset + 7 > |data| || data[offset] != 0xFF || data[offset + 1] < 0xF0 then None
    else
      var b2, b3 := data[offset + 2] as int, data[offset + 3] as int;
      Some(Adts(b2 / 64 + 1, b2 / 4 % 16, b2 % 2 * 4 + b3 / 64,
                b3 % 4 * 2048 + data[offset + 4] as int * 8 + data[offset + 5] as int / 32,
                if data[offset + 1] as int % 2 != 0 then 7 else 9))
  }

  function BuildAdts(aot: nat, sfi: nat, channels: nat, frameLength: nat): (r: bytes)
    ensures |r| == 7
  {
    var profile := if aot == 0 then 0 else (aot - 1) % 4;
    var full := (frameLength + 7) % 8192;
    [0xFF, 0xF1, profile * 64 + sfi % 16 * 4 + channels / 4 % 2, channels % 4 * 64 + full / 2048,
     full / 8 % 256, full % 8 * 32 + 0x1F, 0xFC]
  }

  const ADTS_MAX_FRAME := 8184

  lemma AdtsFields(profile: nat, sfi: nat, high: nat, low: nat, full: nat)
    requires profile < 4 && sfi < 16 && high < 2 && low < 4 && full < 8192
    ensures var b2, b3, b5 := profile * 64 + sfi * 4 + high, low * 64 + full / 2048, full % 8 * 32 + 0x1F;
            && b2 / 64 == profile && b2 / 4 % 16 == sfi && b2 % 2 == high && b3 / 64 == low
            && b3 % 4 * 2048 + full / 8 % 256 * 8 + b5 / 32 == full
  {
    var b3 := low * 64 + full / 2048;
    assert b3 % 4 == full / 2048;
    assert full / 8 % 256 == full / 8 - full / 2048 * 256;
    assert (full % 8 * 32 + 0x1F) / 32 == full % 8;
  }

  lemma AdtsRoundTrips(aot: nat, sfi: nat, channels: nat, raw: bytes)
    ensures ParseAdts(BuildAdts(aot, sfi, channels, |raw|) + raw, 0)
            == Some(Adts(if aot == 0 then 1 else (aot - 1) % 4 + 1, sfi % 16, channels % 8, (|raw| + 7) % 8192, 7))
  {
    var profile := if aot == 0 then 0 else (aot - 1) % 4;
    AdtsFields(profile, sfi % 16, channels / 4 % 2, channels % 4, (|raw| + 7) % 8192);
    assert channels % 8 == channels / 4 % 2 * 4 + channels % 4;
  }

  /** A header with a checksum behind it is two octets longer, wherever it stands. */
  lemma AdtsWithChecksumParses(before: bytes, aot: nat, sfi: nat, channels: nat, checksum: bytes, raw: bytes)
    requires |checksum| == 2 && |raw| + 9 < 8192
    ensures var head := BuildAdts(aot, sfi, channels, |raw| + 2)[1 := 0xF0] + checksum;
            var h := ParseAdts(before + (head + raw), |before|);
            && h == Some(Adts(if aot == 0 then 1 else (aot - 1) % 4 + 1, sfi % 16, channels % 8, |raw| + 9, 9))
            && (before + (head + raw))[|before| + 9..] == raw
  {
    var profile := if aot == 0 then 0 else (aot - 1) % 4;
    AdtsFields(profile, sfi % 16, channels / 4 % 2, channels % 4, (|raw| + 9) % 8192);
    assert channels % 8 == channels / 4 % 2 * 4 + channels % 4;
    var head := BuildAdts(aot, sfi, channels, |raw| + 2)[1 := 0xF0] + checksum;
    var data := before + (head + raw);
    assert forall k :: 0 <= k < 9 ==> data[|before| + k] == head[k];
  }

  /** The header counts its frame correctly up to the 13 bits it has for the length, and not beyond. */
  lemma AdtsCountsFrameIff(aot: nat, sfi: nat, channels: nat, raw: bytes)
    ensures ParseAdts(BuildAdts(aot, sfi, channels, |raw|) + raw, 0).value.frameLength == |raw| + 7
            <==> |raw| <= ADTS_MAX_FRAME
  {
    AdtsRoundTrips(aot, sfi, channels, raw);
  }

  // ----- codec configurations -----

  function BuildAsc(aot: nat, sfi: nat, channels: nat): (r: bytes)
    ensures |r| == 2
  {
    Be16(aot % 32 * 2048 + sfi % 16 * 128 + channels % 16 * 8)
  }

  function ParseAsc(asc: bytes): Option<(nat, nat, nat)>
  {
    if |asc| < 2 then None
    else
      var v := asc[0] as int * 256 + asc[1] as int;
      Some((v / 2048, v / 128 % 16, v / 8 % 16))
  }

  lemma AscFields(a: nat, s: nat, c: nat)
    requires a < 32 && s < 16 && c < 16
    ensures var v := a * 2048 + s * 128 + c * 8; v < 0x1_0000 && v / 2048 == a && v / 128 % 16 == s && v / 8 % 16 == c
  {
    assert (a * 2048 + s * 128 + c * 8) / 8 == (a * 16 + s) * 16 + c;
    assert (a * 2048 + s * 128 + c * 8) / 128 == a * 16 + s;
  }

  lemma AscRoundTrips(aot: nat, sfi: nat, channels: nat)
    ensures ParseAsc(BuildAsc(aot, sfi, channels)) == Some((aot % 32, sfi % 16, channels % 16))
  {
    AscFields(aot % 32, sfi % 16, channels % 16);
    var v := aot % 32 * 2048 + sfi % 16 * 128 + channels % 16 * 8;
    assert v / 256 % 256 * 256 + v % 256 == v;
  }

  function BuildAvcConfig(sps: bytes, pps: bytes): bytes
    requires |sps| >= 4
  {
    [1, sps[1], sps[2], sps[3], 0xFF, 0xE1] + Be16(|sps|) + sps + [1] + Be16(|pps|) + pps
  }

  function Slice(b: bytes, lo: nat, hi: nat): bytes
  {
    var l := Min(lo, |b|);
    var h := Min(hi, |b|);
    if h < l then [] else b[l..h]
  }

  /** The last of up to `count` length-prefixed sets at idx, and the index after them. */
  function ReadSets(cfg: bytes, idx: nat, count: nat, last: bytes): (bytes, nat)
    decreases count
  {
    if count == 0 || idx + 2 > |cfg| then (last, idx)
    else
      var length := cfg[idx] as int * 256 + cfg[idx + 1] as int;
      ReadSets(cfg, idx + 2 + length, count - 1, Slice(cfg, idx + 2, idx + 2 + length))
  }

  function ParseAvcConfig(cfg: bytes): (bytes, bytes)
  {
    if |cfg| < 6 then ([], [])
    else
      var (sps, idx) := ReadSets(cfg, 6, cfg[5] as int % 32, []);
      if idx >= |cfg| then (sps, []) else (sps, ReadSets(cfg, idx + 1, cfg[idx], []).0)
  }

  lemma ReadOneSet(cfg: bytes, pre: bytes, x: bytes, post: bytes)
    requires |x| < 0x1_0000 && cfg == pre + Be16(|x|) + x + post
    ensures ReadSets(cfg, |pre|, 1, []) == (x, |pre| + 2 + |x|)
  {
    var idx := |pre|;
    assert cfg[idx] as int * 256 + cfg[idx + 1] as int == |x|;
    assert cfg[idx + 2..idx + 2 + |x|] == x;
  }

  lemma AvcConfigParts(cfg: bytes, sps: bytes, pps: bytes)
    requires |cfg| > 8 + |sps| && cfg[5] == 0xE1 && cfg[8 + |sps|] == 1
    requires ReadSets(cfg, 6, 1, []) == (sps, 8 + |sps|)
    requires ReadSets(cfg, 9 + |sps|, 1, []).0 == pps
    ensures ParseAvcConfig(cfg) == (sps, pps)
  {
    hide ReadSets;
  }

  lemma AvcConfigRoundTrips(sps: bytes, pps: bytes)
    requires 4 <= |sps| < 0x1_0000 && |pps| < 0x1_0000
    ensures ParseAvcConfig(BuildAvcConfig(sps, pps)) == (sps, pps)
  {
    hide ReadSets, ParseAvcConfig;
    var cfg := BuildAvcConfig(sps, pps);
    var head: bytes := [1, sps[1], sps[2], sps[3], 0xFF, 0xE1];
    var mid := head + Be16(|sps|) + sps + [1];
    assert cfg == head + Be16(|sps|) + sps + ([1] + Be16(|pps|) + pps);
    ReadOneSet(cfg, head, sps, [1] + Be16(|pps|) + pps);
    assert cfg == mid + Be16(|pps|) + pps + [];
    ReadOneSet(cfg, mid, pps, []);
    AvcConfigParts(cfg, sps, pps);
  }
}
