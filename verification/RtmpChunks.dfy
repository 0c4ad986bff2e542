// RTMP messages and chunks (Adobe RTMP 1.0, section 5.3.1): the client's writer and its reader.
module RtmpChunks {
  import opened Bytes

  const NO_TIME := 0xFF_FFFF
  const TWO_TO_32 := 0x1_0000_0000
  const TWO_TO_24 := 0x100_0000

  datatype Message = Message(mtype: byte, payload: bytes)

  // ----- writing -----

  function StreamIdOctets(id: nat): (r: bytes)
    ensures |r| == 4
  {
    [id % 256, id / 256 % 256, id / 0x1_0000 % 256, id / 0x100_0000 % 256]
  }

  function Extended(ts: nat): bytes
  {
    if ts >= NO_TIME then Be32(ts) else []
  }

  function Time24(ts: nat): (r: bytes)
    ensures |r| == 3
  {
    if ts >= NO_TIME then [0xFF, 0xFF, 0xFF] else Be24(ts)
  }

  /** The chunk that opens a message, without payload: a type 0 header. */
  function OpeningHeader(csid: byte, typeId: byte, streamId: nat, length: nat, ts: nat): bytes
  {
    [csid] + Time24(ts) + Be24(length) + [typeId] + StreamIdOctets(streamId) + Extended(ts)
  }

  function Min(a: nat, b: nat): nat
  {
    if a < b then a else b
  }

  /** The rest of a payload in type 3 chunks, each repeating the extended timestamp. */
  function Continued(head: byte, ext: bytes, rest: bytes, chunk: nat): bytes
    requires chunk > 0
    decreases |rest|
  {
    if |rest| == 0 then []
    else [head] + (ext + (rest[..Min(|rest|, chunk)] + Continued(head, ext, rest[Min(|rest|, chunk)..], chunk)))
  }

  function MessageBytes(csid: byte, typeId: byte, streamId: nat, payload: bytes, ts: nat, chunk: nat): bytes
    requires csid < 64 && chunk > 0
  {
    var first := Min(|payload|, chunk);
    OpeningHeader(csid, typeId, streamId, |payload|, ts) + payload[..first]
    + Continued(192 + csid, Extended(ts), payload[first..], chunk)
  }

  // ----- reading -----

  datatype Chan = Chan(ts: nat, delta: nat, mlen: nat, mtype: byte, buf: bytes, remaining: nat)

  const NEW_CHAN := Chan(0, 0, 0, 0, [], 0)

  type Chans = map<nat, Chan>

  function ChanOf(chans: Chans, csid: nat): Chan
  {
    if csid in chans then chans[csid] else NEW_CHAN
  }

  function U24(d: bytes, i: nat): (n: nat)
    requires i + 3 <= |d|
    ensures n < TWO_TO_24
  {
    d[i] as int * 0x1_0000 + d[i + 1] as int * 256 + d[i + 2] as int
  }

  function U32(d: bytes, i: nat): (n: nat)
    requires i + 4 <= |d|
    ensures n < TWO_TO_32
  {
    d[i] as int * 0x100_0000 + d[i + 1] as int * 0x1_0000 + d[i + 2] as int * 256 + d[i + 3] as int
  }

  /** Format and chunk stream id: one octet, two, or three; what follows them. */
  function ReadBasic(d: bytes): (r: Option<(nat, nat, bytes)>)
    ensures r.Some? ==> |r.value.2| < |d| && r.value.0 < 4
  {
    if |d| < 1 then None
    else
      var (fmt, low) := (d[0] as int / 64, d[0] as int % 64);
      if low == 0 then if |d| < 2 then None else Some((fmt, 64 + d[1] as int, d[2..]))
      else if low == 1 then if |d| < 3 then None else Some((fmt, 64 + d[1] as int + d[2] as int * 256, d[3..]))
      else Some((fmt, low, d[1..]))
  }

  /** A three-octet time that may be continued in four more, and what follows after skip octets in between. */
  function ReadTime(d: bytes, skip: nat): (r: Option<(nat, bytes)>)
    ensures r.Some? ==> |r.value.1| <= |d| && r.value.0 < TWO_TO_32
  {
    if |d| < 3 + skip then None
    else if U24(d, 0) != NO_TIME then Some((U24(d, 0), d[3 + skip..]))
    else if |d| < 7 + skip then None
    else Some((U32(d, 3 + skip), d[7 + skip..]))
  }

  /** The channel after a chunk's header, and what follows the header. */
  function ReadHeader(fmt: nat, c: Chan, d: bytes): (r: Option<(Chan, bytes)>)
    ensures r.Some? ==> |r.value.1| <= |d|
  {
    if fmt == 0 then
      match ReadTime(d, 8)
      case None => None
      case Some((ts, rest)) => Some((Chan(ts, 0, U24(d, 3), d[6], [], U24(d, 3)), rest))
    else if fmt == 1 then
      match ReadTime(d, 4)
      case None => None
      case Some((delta, rest)) =>
        Some((Chan((c.ts + delta) % TWO_TO_32, delta, U24(d, 3), d[6], [], U24(d, 3)), rest))
    else if fmt == 2 then
      match ReadTime(d, 0)
      case None => None
      case Some((delta, rest)) =>
        Some((Chan((c.ts + delta) % TWO_TO_32, delta, c.mlen, c.mtype, [], c.mlen), rest))
    else if c.remaining == 0 then Some((c.(ts := (c.ts + c.delta) % TWO_TO_32, remaining := c.mlen, buf := []), d))
    else Some((c, d))
  }

  datatype Chunk = Short | Chunk(chans: Chans, done: Option<Message>, rest: bytes)

  /** The payload of a chunk: no more than the channel still needs, no more than the chunk size. */
  function TakePayload(chans: Chans, csid: nat, c: Chan, d: bytes, chunk: nat): (r: Chunk)
    ensures r.Chunk? ==> |r.rest| <= |d|
  {
    var want := Min(c.remaining, chunk);
    if |d| < want then Short
    else
      var c' := c.(buf := c.buf + d[..want], remaining := c.remaining - want);
      Chunk(chans[csid := c'],
            if c'.remaining == 0 && c'.mlen > 0 then Some(Message(c'.mtype, c'.buf)) else None,
            d[want..])
  }

  function ReadChunk(chans: Chans, d: bytes, chunk: nat): (r: Chunk)
    ensures r.Chunk? ==> |r.rest| < |d|
  {
    match ReadBasic(d)
    case None => Short
    case Some((fmt, csid, d1)) =>
      match ReadHeader(fmt, ChanOf(chans, csid), d1)
      case None => Short
      case Some((c, d2)) => TakePayload(chans, csid, c, d2, chunk)
  }

  /** Chunks are read until one completes a message; Short when the data ends first. */
  function ReadMessage(chans: Chans, d: bytes, chunk: nat): (r: Chunk)
    ensures r.Chunk? ==> r.done.Some? && |r.rest| < |d|
    decreases |d|
  {
    match ReadChunk(chans, d, chunk)
    case Short => Short
    case Chunk(chans', done, rest) => if done.Some? then Chunk(chans', done, rest) else ReadMessage(chans', rest, chunk)
  }

  /** Every message the data completes, and what is left when it ends. */
  function ReadAll(chans: Chans, d: bytes, chunk: nat): (seq<Message>, Chans, bytes)
    decreases |d|
  {
    match ReadMessage(chans, d, chunk)
    case Short => ([], chans, d)
    case Chunk(chans', done, rest) =>
      var (more, chans2, rest2) := ReadAll(chans', rest, chunk);
      ([done.value] + more, chans2, rest2)
  }

  // ----- acknowledging -----

  /** What is sent and acknowledged once a chunk has come in: half a window or more is acknowledged. */
  function AfterAck(sent: bytes, acked: nat, total: nat, window: nat, chunk: nat): (bytes, nat)
    requires chunk > 0
  {
    if total - acked >= window / 2 then (sent + MessageBytes(2, 3, 0, Be32(total), 0, chunk), total) else (sent, acked)
  }

  /** An acknowledgement for each total. */
  function AckMessages(totals: seq<nat>, chunk: nat): bytes
    requires chunk > 0
  {
    if totals == [] then []
    else AckMessages(totals[..|totals| - 1], chunk) + MessageBytes(2, 3, 0, Be32(totals[|totals| - 1]), 0, chunk)
  }

  /** All that has been sent with them. */
  function WithAcks(before: bytes, totals: seq<nat>, chunk: nat): bytes
    requires chunk > 0
  {
    before + AckMessages(totals, chunk)
  }

  /** The last total acknowledged; first, before there is one. */
  function LastAck(totals: seq<nat>, first: nat): nat
  {
    if totals == [] then first else totals[|totals| - 1]
  }

  function NextGiven(given: seq<nat>, first: nat, total: nat, window: nat): seq<nat>
  {
    if total - LastAck(given, first) >= window / 2 then given + [total] else given
  }

  /** The totals acknowledged, after those already given, while chunks are read up to a message or the end of the data:
      one is due after any chunk with which half a window has come in. */
  function AcksFor(given: seq<nat>, first: nat, chans: Chans, d: bytes, chunk: nat, bytesIn: nat, window: nat): seq<nat>
    decreases |d|
  {
    match ReadChunk(chans, d, chunk)
    case Short => given
    case Chunk(chans', done, rest) =>
      var n := bytesIn + |d| - |rest|;
      var given' := NextGiven(given, first, n, window);
      if done.Some? then given' else AcksFor(given', first, chans', rest, chunk, n, window)
  }

  /** The reading loop: the message or the lack of one, and how much of the data it took, what was sent by then, and what
      was acknowledged last. */
  function Reading(sent: bytes, acked: nat, chans: Chans, d: bytes, chunk: nat, bytesIn: nat, window: nat, outChunk: nat)
    : (Chunk, nat, bytes, nat)
    requires outChunk > 0
    decreases |d|
  {
    match ReadChunk(chans, d, chunk)
    case Short => (Short, bytesIn, sent, acked)
    case Chunk(chans', done, rest) =>
      var n := bytesIn + |d| - |rest|;
      var (sent', acked') := AfterAck(sent, acked, n, window, outChunk);
      if done.Some? then (Chunk(chans', done, rest), n, sent', acked')
      else Reading(sent', acked', chans', rest, chunk, n, window, outChunk)
  }

  /** One chunk has been read, or the data was too short for it. */
  predicate ChunkDone(sent: bytes, acked: nat, chans: Chans, d: bytes, chunk: nat, bytesIn: nat, window: nat, outChunk: nat,
                      r: Option<Option<Message>>, sent': bytes, acked': nat, chans': Chans, rest: bytes, total: nat)
    requires outChunk > 0
  {
    match ReadChunk(chans, d, chunk)
    case Short => r.None? && sent' == sent && acked' == acked
    case Chunk(next, done, left) =>
      && r == Some(done) && chans' == next && rest == left && total == bytesIn + |d| - |left|
      && (sent', acked') == AfterAck(sent, acked, total, window, outChunk)
  }

  // ----- the connection object -----

  class Conn {
    var outChunk: nat
    var inChunk: nat
    var csidState: Chans
    /** What the server has sent and this side has not read yet. */
    var input: bytes
    var sent: bytes
    var ackWindow: nat
    var bytesIn: nat
    var bytesInAcked: nat

    constructor ()
      ensures outChunk == 4096 && inChunk == 128 && csidState == map[] && input == [] && sent == []
    {
      outChunk, inChunk, csidState, input, sent := 4096, 128, map[], [], [];
      ackWindow, bytesIn, bytesInAcked := 2_500_000, 0, 0;
    }

    method SendMessage(csid: byte, typeId: byte, streamId: nat, payload: bytes, ts: nat)
      requires csid < 64 && outChunk > 0
      modifies `sent
      ensures sent == old(sent) + MessageBytes(csid, typeId, streamId, payload, ts, outChunk)
    {
      hide OpeningHeader;
      var ext := Extended(ts);
      var first := Min(|payload|, outChunk);
      var out := OpeningHeader(csid, typeId, streamId, |payload|, ts) + payload[..first];
      ghost var start := out;
      var rest := payload[first..];
      var head: byte := 192 + csid;
      ghost var whole := Continued(head, ext, rest, outChunk);
      while |rest| > 0
        invariant sent == old(sent)
        invariant out + Continued(head, ext, rest, outChunk) == start + whole
        decreases |rest|
      {
        var k := Min(|rest|, outChunk);
        ContinuedStep(out, head, ext, rest, outChunk);
        out := out + ([head] + ext + rest[..k]);
        rest := rest[k..];
      }
      assert out + Continued(head, ext, rest, outChunk) == out;
      assert out == MessageBytes(csid, typeId, streamId, payload, ts, outChunk);
      sent := sent + out;
    }

    method RecvExact(n: nat) returns (r: Option<bytes>)
      modifies `input, `bytesIn
      ensures r.Some? <==> n <= |old(input)|
      ensures r.Some? ==> r.value == old(input)[..n] && input == old(input)[n..]
      ensures r.Some? ==> bytesIn == old(bytesIn) + n
    {
      if n > |input| {
        return None;
      }
      r := Some(input[..n]);
      input := input[n..];
      bytesIn := bytesIn + n;
    }

    /** Every half window received is acknowledged. */
    method MaybeSendAck()
      requires outChunk > 0
      modifies `bytesInAcked, `sent
      ensures bytesIn - bytesInAcked < ackWindow / 2 || bytesIn == bytesInAcked
      ensures if bytesIn - old(bytesInAcked) >= ackWindow / 2
              then bytesInAcked == bytesIn && sent == old(sent) + MessageBytes(2, 3, 0, Be32(bytesIn), 0, outChunk)
              else bytesInAcked == old(bytesInAcked) && sent == old(sent)
    {
      if bytesIn - bytesInAcked >= ackWindow / 2 {
        bytesInAcked := bytesIn;
        SendMessage(2, 3, 0, Be32(bytesIn), 0);
      }
    }

    /** None when the connection fails before a message is complete; it is dead then. */
    method ReadMessageFrom() returns (r: Option<Message>)
      requires outChunk > 0
      modifies `csidState, `input, `bytesIn, `bytesInAcked, `sent
      ensures var (m, total, sent', acked) :=
                Reading(old(sent), old(bytesInAcked), old(csidState), old(input), inChunk, old(bytesIn), ackWindow, outChunk);
              && sent == sent' && bytesInAcked == acked
              && (if m.Short? then r.None? else r == m.done && csidState == m.chans && input == m.rest && bytesIn == total)
    {
      ghost var whole := Reading(sent, bytesInAcked, csidState, input, inChunk, bytesIn, ackWindow, outChunk);
      hide *;
      while true
        invariant Reading(sent, bytesInAcked, csidState, input, inChunk, bytesIn, ackWindow, outChunk) == whole
        decreases |input|
      {
        ghost var (s, acked, chans, d, n) := (sent, bytesInAcked, csidState, input, bytesIn);
        var chunk := ReadChunkFrom();
        ReadingStep(s, acked, chans, d, inChunk, n, ackWindow, outChunk, chunk, sent, bytesInAcked, csidState, input, bytesIn);
        if chunk.None? {
          return None;
        }
        if chunk.value.Some? {
          return chunk.value;
        }
      }
    }

    /** One chunk, and the acknowledgement that may be due after it; the message it completes. */
    method ReadChunkFrom() returns (r: Option<Option<Message>>)
      requires outChunk > 0
      modifies `csidState, `input, `bytesIn, `bytesInAcked, `sent
      ensures ChunkDone(old(sent), old(bytesInAcked), old(csidState), old(input), inChunk, old(bytesIn), ackWindow, outChunk,
                        r, sent, bytesInAcked, csidState, input, bytesIn)
    {
      hide ReadChunk, ReadBasic, ReadHeader, TakePayload, MessageBytes, ChanOf, Min;
      ghost var d, chans := input, csidState;
      BasicIs(chans, d, inChunk);
      var basic := ReadBasicHeader();
      if basic.None? {
        return None;
      }
      var (fmt, csid) := basic.value;
      ChunkIs(chans, d, inChunk, fmt, csid, input);
      var header := ReadChunkHeader(fmt, ChanOf(csidState, csid));
      if header.None? {
        return None;
      }
      var st := header.value;
      PayloadIs(chans, csid, st, input, inChunk);
      var want := Min(st.remaining, inChunk);
      var data := RecvExact(want);
      if data.None? {
        return None;
      }
      st := st.(buf := st.buf + data.value, remaining := st.remaining - want);
      csidState := csidState[csid := st];
      MaybeSendAck();
      return Some(if st.remaining == 0 && st.mlen > 0 then Some(Message(st.mtype, st.buf)) else None);
    }

    method ReadBasicHeader() returns (r: Option<(nat, nat)>)
      modifies `input, `bytesIn
      ensures match ReadBasic(old(input))
              case None => r.None?
              case Some((fmt, csid, rest)) =>
                r == Some((fmt, csid)) && input == rest && bytesIn == old(bytesIn) + |old(input)| - |input|
    {
      var b := RecvExact(1);
      if b.None? {
        return None;
      }
      var fmt, csid := b.value[0] as int / 64, b.value[0] as int % 64;
      if csid == 0 {
        b := RecvExact(1);
        if b.None? {
          return None;
        }
        csid := 64 + b.value[0] as int;
      } else if csid == 1 {
        b := RecvExact(2);
        if b.None? {
          return None;
        }
        csid := 64 + b.value[0] as int + b.value[1] as int * 256;
      }
      return Some((fmt, csid));
    }

    method ReadTimeField(h: bytes, skip: nat) returns (r: Option<nat>)
      requires |h| == 3 + skip
      modifies `input, `bytesIn
      ensures match ReadTime(h + old(input), skip)
              case None => r.None?
              case Some((time, rest)) =>
                r == Some(time) && input == rest && bytesIn == old(bytesIn) + |old(input)| - |input|
    {
      ghost var all := h + input;
      assert U24(all, 0) == U24(h, 0) && all[3 + skip..] == input;
      var time := U24(h, 0);
      if time == NO_TIME {
        var e := RecvExact(4);
        if e.None? {
          return None;
        }
        assert all[3 + skip..][..4] == e.value && all[7 + skip..] == input;
        assert U32(all, 3 + skip) == U32(e.value, 0);
        time := U32(e.value, 0);
      }
      return Some(time);
    }

    method ReadChunkHeader(fmt: nat, st: Chan) returns (r: Option<Chan>)
      requires fmt < 4
      modifies `input, `bytesIn
      ensures match ReadHeader(fmt, st, old(input))
              case None => r.None?
              case Some((c, rest)) => r == Some(c) && input == rest && bytesIn == old(bytesIn) + |old(input)| - |input|
    {
      if fmt == 3 {
        if st.remaining == 0 {
          return Some(st.(ts := (st.ts + st.delta) % TWO_TO_32, remaining := st.mlen, buf := []));
        }
        return Some(st);
      }
      var skip := if fmt == 0 then 8 else if fmt == 1 then 4 else 0;
      ghost var all := input;
      var h := RecvExact(3 + skip);
      if h.None? {
        return None;
      }
      assert all == h.value + input;
      var time := ReadTimeField(h.value, skip);
      if time.None? {
        return None;
      }
      var next := st.(ts := if fmt == 0 then time.value else (st.ts + time.value) % TWO_TO_32,
                      delta := if fmt == 0 then 0 else time.value);
      if fmt < 2 {
        next := next.(mlen := U24(h.value, 3), mtype := h.value[6]);
      }
      return Some(next.(remaining := next.mlen, buf := []));
    }
  }

  lemma BasicIs(chans: Chans, d: bytes, chunk: nat)
    ensures ReadBasic(d).None? ==> ReadChunk(chans, d, chunk).Short?
  {
    hide ReadBasic, ReadHeader, TakePayload;
  }

  lemma ChunkIs(chans: Chans, d: bytes, chunk: nat, fmt: nat, csid: nat, d1: bytes)
    requires ReadBasic(d) == Some((fmt, csid, d1))
    ensures ReadChunk(chans, d, chunk) ==
            match ReadHeader(fmt, ChanOf(chans, csid), d1)
            case None => Short
            case Some((c, d2)) => TakePayload(chans, csid, c, d2, chunk)
  {
    hide ReadBasic, ReadHeader, TakePayload;
  }

  lemma PayloadIs(chans: Chans, csid: nat, c: Chan, d: bytes, chunk: nat)
    ensures var want := Min(c.remaining, chunk);
            && want <= c.remaining
            && (|d| < want ==> TakePayload(chans, csid, c, d, chunk).Short?)
            && (|d| >= want ==>
                  var c' := c.(buf := c.buf + d[..want], remaining := c.remaining - want);
                  TakePayload(chans, csid, c, d, chunk)
                  == Chunk(chans[csid := c'], if c'.remaining == 0 && c'.mlen > 0 then Some(Message(c'.mtype, c'.buf)) else None, d[want..]))
  {
  }

  lemma ReadingStep(sent: bytes, acked: nat, chans: Chans, d: bytes, chunk: nat, bytesIn: nat, window: nat, outChunk: nat,
                    r: Option<Option<Message>>, sent': bytes, acked': nat, chans': Chans, rest: bytes, total: nat)
    requires outChunk > 0
    requires ChunkDone(sent, acked, chans, d, chunk, bytesIn, window, outChunk, r, sent', acked', chans', rest, total)
    ensures var whole := Reading(sent, acked, chans, d, chunk, bytesIn, window, outChunk);
            && (r.None? ==> whole.0.Short? && whole.2 == sent' && whole.3 == acked')
            && (r.Some? && r.value.Some? ==> whole == (Chunk(chans', r.value, rest), total, sent', acked'))
            && (r.Some? && r.value.None? ==> whole == Reading(sent', acked', chans', rest, chunk, total, window, outChunk) && |rest| < |d|)
  {
    hide ReadChunk, AfterAck;
  }

  /** The loop returns the first message, and sends an acknowledgement for each total that calls for one. */
  lemma {:induction false} ReadingIs(before: bytes, given: seq<nat>, first: nat, chans: Chans, d: bytes, chunk: nat, bytesIn: nat,
                                     window: nat, outChunk: nat)
    requires outChunk > 0
    ensures var acks := AcksFor(given, first, chans, d, chunk, bytesIn, window);
            var (m, total, sent, acked) :=
              Reading(WithAcks(before, given, outChunk), LastAck(given, first), chans, d, chunk, bytesIn, window, outChunk);
            && m == ReadMessage(chans, d, chunk) && (m.Chunk? ==> total == bytesIn + |d| - |m.rest|)
            && sent == WithAcks(before, acks, outChunk) && acked == LastAck(acks, first)
    decreases |d|
  {
    hide ReadChunk, AfterAck, WithAcks, LastAck, NextGiven;
    match ReadChunk(chans, d, chunk)
    case Short =>
    case Chunk(chans', done, rest) =>
      var n := bytesIn + |d| - |rest|;
      AckKept(before, given, first, n, window, outChunk);
      if done.None? {
        ReadingIs(before, NextGiven(given, first, n, window), first, chans', rest, chunk, n, window, outChunk);
      }
  }

  lemma NoAcks(sent: bytes, first: nat, chunk: nat)
    requires chunk > 0
    ensures WithAcks(sent, [], chunk) == sent && LastAck([], first) == first
  {
  }

  lemma Associates(a: bytes, b: bytes, c: bytes)
    ensures (a + b) + c == a + (b + c)
  {
  }

  lemma AckSnoc(sent: bytes, given: seq<nat>, n: nat, first: nat, chunk: nat)
    requires chunk > 0
    ensures (sent + AckMessages(given, chunk)) + MessageBytes(2, 3, 0, Be32(n), 0, chunk) == sent + AckMessages(given + [n], chunk)
    ensures LastAck(given + [n], first) == n
  {
    hide MessageBytes;
    assert (given + [n])[..|given|] == given;
    assert AckMessages(given + [n], chunk) == AckMessages(given, chunk) + MessageBytes(2, 3, 0, Be32(n), 0, chunk);
    hide AckMessages;
    Associates(sent, AckMessages(given, chunk), MessageBytes(2, 3, 0, Be32(n), 0, chunk));
  }

  lemma AckKept(before: bytes, given: seq<nat>, first: nat, n: nat, window: nat, chunk: nat)
    requires chunk > 0
    ensures var next := NextGiven(given, first, n, window);
            AfterAck(WithAcks(before, given, chunk), LastAck(given, first), n, window, chunk)
            == (WithAcks(before, next, chunk), LastAck(next, first))
  {
    AckSnoc(before, given, n, first, chunk);
    hide AckMessages, MessageBytes, LastAck;
  }

  /** Totals that rise by at least half a window each. */
  predicate Spaced(totals: seq<nat>, first: nat, window: nat)
  {
    totals != [] ==>
      var init := totals[..|totals| - 1];
      totals[|totals| - 1] - LastAck(init, first) >= window / 2 && Spaced(init, first, window)
  }

  lemma SpacedSnoc(given: seq<nat>, first: nat, n: nat, window: nat)
    requires Spaced(given, first, window) && n - LastAck(given, first) >= window / 2
    ensures Spaced(given + [n], first, window) && LastAck(given + [n], first) == n
  {
    assert (given + [n])[..|given|] == given;
  }

  /** Whatever is read: an acknowledgement tells a total that was reached, comes half a window or more after the one
      before it, and none is owed once a message is complete. */
  lemma {:induction false} AcksKeepUp(given: seq<nat>, first: nat, chans: Chans, d: bytes, chunk: nat, bytesIn: nat, window: nat)
    requires Spaced(given, first, window) && LastAck(given, first) <= bytesIn
    ensures var (acks, m) := (AcksFor(given, first, chans, d, chunk, bytesIn, window), ReadMessage(chans, d, chunk));
            && given <= acks && Spaced(acks, first, window)
            && LastAck(acks, first) <= bytesIn + |d| - (if m.Chunk? then |m.rest| else 0)
            && (m.Chunk? ==>
                  var n := bytesIn + |d| - |m.rest|;
                  n == LastAck(acks, first) || n - LastAck(acks, first) < window / 2)
    decreases |d|
  {
    hide ReadChunk, Spaced, LastAck;
    match ReadChunk(chans, d, chunk)
    case Short =>
    case Chunk(chans', done, rest) =>
      var n := bytesIn + |d| - |rest|;
      var due := n - LastAck(given, first) >= window / 2;
      if due {
        SpacedSnoc(given, first, n, window);
      }
      if done.None? {
        AcksKeepUp(if due then given + [n] else given, first, chans', rest, chunk, n, window);
      }
  }

  /** What the reading loop comes to: the first message and the octets it took; and acknowledgements, each of a total that
      was reached and half a window or more after the one before it, so many that none is owed when a message is complete. */
  lemma ReadingMeans(sent: bytes, acked: nat, chans: Chans, d: bytes, chunk: nat, bytesIn: nat, window: nat, outChunk: nat)
    requires outChunk > 0 && acked <= bytesIn
    ensures var (m, total, sent', acked') := Reading(sent, acked, chans, d, chunk, bytesIn, window, outChunk);
            && m == ReadMessage(chans, d, chunk) && (m.Chunk? ==> total == bytesIn + |d| - |m.rest|)
            && (m.Chunk? ==> total == acked' || total - acked' < window / 2)
            && exists acks :: Spaced(acks, acked, window) && sent' == sent + AckMessages(acks, outChunk) && acked' == LastAck(acks, acked)
  {
    NoAcks(sent, acked, outChunk);
    ReadingIs(sent, [], acked, chans, d, chunk, bytesIn, window, outChunk);
    AcksKeepUp([], acked, chans, d, chunk, bytesIn, window);
    hide Reading, ReadMessage, AcksFor, AckMessages, LastAck;
    assert Spaced(AcksFor([], acked, chans, d, chunk, bytesIn, window), acked, window);
  }

  lemma ContinuedStep(out: bytes, head: byte, ext: bytes, rest: bytes, chunk: nat)
    requires chunk > 0 && |rest| > 0
    ensures var k := Min(|rest|, chunk);
            out + Continued(head, ext, rest, chunk) == out + ([head] + ext + rest[..k]) + Continued(head, ext, rest[k..], chunk)
  {
    var k := Min(|rest|, chunk);
    var more := Continued(head, ext, rest[k..], chunk);
    assert Continued(head, ext, rest, chunk) == [head] + (ext + (rest[..k] + more));
    hide Continued;
    assert out + ([head] + (ext + (rest[..k] + more))) == out + ([head] + ext + rest[..k]) + more;
  }
}
