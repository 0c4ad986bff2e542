// What the reader makes of what a writer sends: whole messages one after another, and the chunks of messages on
// different chunk streams in any interleaving.
module RtmpRoundTrip {
  import opened Bytes
  import opened RtmpChunks

  // ----- header fields -----

  lemma Time24Reads(ts: nat, tail: bytes)
    ensures var d := Time24(ts) + tail;
            U24(d, 0) == (if ts >= NO_TIME then NO_TIME else ts) && d[3..] == tail
  {
    var d := Time24(ts) + tail;
    assert d[0] == Time24(ts)[0] && d[1] == Time24(ts)[1] && d[2] == Time24(ts)[2];
    U24OfBe24(if ts >= NO_TIME then NO_TIME else ts);
  }

  lemma U24OfBe24(n: nat)
    requires n < TWO_TO_24
    ensures n / 0x1_0000 % 256 * 0x1_0000 + n / 256 % 256 * 256 + n % 256 == n
  {
  }

  lemma Be32Reads(n: nat, tail: bytes)
    requires n < TWO_TO_32
    ensures var d := Be32(n) + tail; U32(d, 0) == n && d[4..] == tail
  {
    var d := Be32(n) + tail;
    assert d[0] == Be32(n)[0] && d[1] == Be32(n)[1] && d[2] == Be32(n)[2] && d[3] == Be32(n)[3];
    BeUint32(d[0], d[1], d[2], d[3]);
    Be32RoundTrips(n);
  }

  /** A time field, the octets between, and the extension read back. */
  lemma TimeReads(ts: nat, middle: bytes, tail: bytes)
    requires ts < TWO_TO_32
    ensures ReadTime(Time24(ts) + middle + Extended(ts) + tail, |middle|) == Some((ts, tail))
  {
    var d := Time24(ts) + middle + Extended(ts) + tail;
    var after := middle + (Extended(ts) + tail);
    assert d == Time24(ts) + after;
    Time24Reads(ts, after);
    hide Time24, Be32;
    var n := |middle|;
    assert d[3 + n..] == Extended(ts) + tail;
    if ts >= NO_TIME {
      Be32Reads(ts, tail);
      assert d[3 + n..][..4] == Be32(ts) && d[7 + n..] == tail;
      U32Shift(d, 3 + n);
    } else {
      assert [] + tail == tail;
    }
  }

  lemma U32Shift(d: bytes, i: nat)
    requires i + 4 <= |d|
    ensures U32(d, i) == U32(d[i..], 0)
  {
  }

  lemma LengthReads(ts: nat, length: nat, mtype: byte, tail: bytes)
    requires length < TWO_TO_24
    ensures var d := Time24(ts) + Be24(length) + [mtype] + tail; U24(d, 3) == length && d[6] == mtype
  {
    var d := Time24(ts) + Be24(length) + [mtype] + tail;
    assert d[3] == Be24(length)[0] && d[4] == Be24(length)[1] && d[5] == Be24(length)[2] && d[6] == mtype;
    U24OfBe24(length);
  }

  // ----- chunks -----

  /** One, two or three octets: the short form where it fits unless the long one is chosen. */
  function BasicHeader(fmt: nat, csid: nat, long: bool): bytes
    requires fmt < 4 && 2 <= csid < 65600
  {
    if csid < 64 then [fmt * 64 + csid]
    else if csid < 320 && !long then [fmt * 64, csid - 64]
    else [fmt * 64 + 1, (csid - 64) % 256, (csid - 64) / 256]
  }

  function MessageHeader(fmt: nat, time: nat, length: nat, mtype: byte, streamId: nat): bytes
  {
    if fmt == 0 then Time24(time) + (Be24(length) + [mtype] + StreamIdOctets(streamId)) + Extended(time)
    else if fmt == 1 then Time24(time) + (Be24(length) + [mtype]) + Extended(time)
    else if fmt == 2 then Time24(time) + [] + Extended(time)
    else []
  }

  lemma BasicReads(fmt: nat, csid: nat, long: bool, tail: bytes)
    requires fmt < 4 && 2 <= csid < 65600
    ensures ReadBasic(BasicHeader(fmt, csid, long) + tail) == Some((fmt, csid, tail))
  {
    var d := BasicHeader(fmt, csid, long) + tail;
    assert d[|BasicHeader(fmt, csid, long)|..] == tail;
    assert csid >= 64 ==> (csid - 64) % 256 + (csid - 64) / 256 * 256 == csid - 64;
  }

  /** What a message header says, field for field. */
  lemma HeaderReads(fmt: nat, c: Chan, time: nat, length: nat, mtype: byte, streamId: nat, tail: bytes)
    requires fmt < 3 && time < TWO_TO_32 && length < TWO_TO_24
    ensures var d := MessageHeader(fmt, time, length, mtype, streamId) + tail;
            ReadHeader(fmt, c, d) ==
            Some((if fmt == 0 then Chan(time, 0, length, mtype, [], length)
                  else if fmt == 1 then Chan((c.ts + time) % TWO_TO_32, time, length, mtype, [], length)
                  else Chan((c.ts + time) % TWO_TO_32, time, c.mlen, c.mtype, [], c.mlen), tail))
  {
    hide Time24, Be24, Extended, ReadTime, StreamIdOctets;
    var d := MessageHeader(fmt, time, length, mtype, streamId) + tail;
    if fmt == 0 {
      TimeReads(time, Be24(length) + [mtype] + StreamIdOctets(streamId), tail);
      LengthReads(time, length, mtype, StreamIdOctets(streamId) + Extended(time) + tail);
      assert d == Time24(time) + Be24(length) + [mtype] + (StreamIdOctets(streamId) + Extended(time) + tail);
    } else if fmt == 1 {
      TimeReads(time, Be24(length) + [mtype], tail);
      LengthReads(time, length, mtype, Extended(time) + tail);
      assert d == Time24(time) + Be24(length) + [mtype] + (Extended(time) + tail);
    } else {
      TimeReads(time, [], tail);
    }
  }

  // ----- interleaved chunk streams -----

  /** The sender's side of a chunk stream: the last message's header, and how much of it is out. */
  datatype Lane = Lane(ts: nat, delta: nat, mlen: nat, mtype: byte, sent: bytes, rest: bytes)

  const NEW_LANE := Lane(0, 0, 0, 0, [], [])

  type Lanes = map<nat, Lane>

  /** A chunk that begins a message, with any header type the earlier message on the stream allows, or one that
      carries the running message on. */
  datatype Event =
    | Begin(csid: nat, long: bool, fmt: nat, time: nat, streamId: nat, message: Message)
    | Continue(csid: nat, long: bool)

  function LaneOf(lanes: Lanes, csid: nat): Lane
  {
    if csid in lanes then lanes[csid] else NEW_LANE
  }

  predicate Legal(lanes: Lanes, e: Event)
  {
    var l := LaneOf(lanes, e.csid);
    && 2 <= e.csid < 65600
    && match e
       case Begin(_, _, fmt, time, _, m) =>
         && l.rest == [] && fmt < 4 && time < TWO_TO_32 && 0 < |m.payload| < TWO_TO_24
         && (fmt >= 2 ==> l.mlen == |m.payload| && l.mtype == m.mtype)
       case Continue(_, _) => l.rest != []
  }

  function BeginLane(l: Lane, fmt: nat, time: nat, m: Message, chunk: nat): Lane
  {
    var k := Min(|m.payload|, chunk);
    var ts := if fmt == 0 then time else (l.ts + if fmt == 3 then l.delta else time) % TWO_TO_32;
    var delta := if fmt == 0 then 0 else if fmt == 3 then l.delta else time;
    Lane(ts, delta, |m.payload|, m.mtype, m.payload[..k], m.payload[k..])
  }

  function LaneStep(lanes: Lanes, e: Event, chunk: nat): Lanes
  {
    var l := LaneOf(lanes, e.csid);
    match e
    case Begin(csid, _, fmt, time, _, m) => lanes[csid := BeginLane(l, fmt, time, m, chunk)]
    case Continue(csid, _) =>
      var k := Min(|l.rest|, chunk);
      lanes[csid := l.(sent := l.sent + l.rest[..k], rest := l.rest[k..])]
  }

  function EventBytes(lanes: Lanes, e: Event, chunk: nat): bytes
    requires Legal(lanes, e)
  {
    match e
    case Begin(csid, long, fmt, time, streamId, m) =>
      BasicHeader(fmt, csid, long) + MessageHeader(fmt, time, |m.payload|, m.mtype, streamId)
      + m.payload[..Min(|m.payload|, chunk)]
    case Continue(csid, long) =>
      BasicHeader(3, csid, long) + LaneOf(lanes, csid).rest[..Min(|LaneOf(lanes, csid).rest|, chunk)]
  }

  /** The message a chunk completes. */
  function Completed(lanes: Lanes, e: Event, chunk: nat): seq<Message>
  {
    var l := LaneOf(LaneStep(lanes, e, chunk), e.csid);
    if l.rest == [] then [Message(l.mtype, l.sent)] else []
  }

  ghost predicate AllLegal(lanes: Lanes, events: seq<Event>, chunk: nat)
    decreases |events|
  {
    events != [] ==> Legal(lanes, events[0]) && AllLegal(LaneStep(lanes, events[0], chunk), events[1..], chunk)
  }

  ghost function RunBytes(lanes: Lanes, events: seq<Event>, chunk: nat): bytes
    requires AllLegal(lanes, events, chunk)
    decreases |events|
  {
    if events == [] then []
    else EventBytes(lanes, events[0], chunk) + RunBytes(LaneStep(lanes, events[0], chunk), events[1..], chunk)
  }

  /** The messages in order of completion. */
  function RunMessages(lanes: Lanes, events: seq<Event>, chunk: nat): seq<Message>
    decreases |events|
  {
    if events == [] then []
    else Completed(lanes, events[0], chunk) + RunMessages(LaneStep(lanes, events[0], chunk), events[1..], chunk)
  }

  /** Reader and sender agree on a chunk stream. */
  predicate Agree(c: Chan, l: Lane)
  {
    && c.ts == l.ts && c.delta == l.delta && c.mlen == l.mlen && c.mtype == l.mtype && c.remaining == |l.rest|
    && (l.rest != [] ==> c.buf == l.sent && l.mlen == |l.sent| + |l.rest|)
  }

  ghost predicate AllAgree(chans: Chans, lanes: Lanes)
  {
    forall csid: nat :: Agree(ChanOf(chans, csid), LaneOf(lanes, csid))
  }

  function AsSeq(m: Option<Message>): seq<Message>
  {
    match m
    case None => []
    case Some(x) => [x]
  }

  /** A chunk's payload, once its header is read. */
  lemma PayloadTaken(chans: Chans, csid: nat, c: Chan, payload: bytes, tail: bytes, chunk: nat)
    requires chunk > 0 && 0 < |payload| && c.remaining == |payload| && c.mlen == |c.buf| + |payload|
    ensures var k := Min(|payload|, chunk);
            var l := Lane(c.ts, c.delta, c.mlen, c.mtype, c.buf + payload[..k], payload[k..]);
            var r := TakePayload(chans, csid, c, payload[..k] + tail, chunk);
            && r.Chunk? && r.rest == tail && r.chans == chans[csid := r.chans[csid]] && Agree(r.chans[csid], l)
            && AsSeq(r.done) == if l.rest == [] then [Message(l.mtype, l.sent)] else []
  {
    var k := Min(|payload|, chunk);
    assert (payload[..k] + tail)[..k] == payload[..k] && (payload[..k] + tail)[k..] == tail;
  }

  lemma OneAgrees(chans: Chans, lanes: Lanes, chans': Chans, lanes': Lanes, csid: nat)
    requires AllAgree(chans, lanes)
    requires csid in chans' && csid in lanes' && Agree(chans'[csid], lanes'[csid])
    requires chans' == chans[csid := chans'[csid]] && lanes' == lanes[csid := lanes'[csid]]
    ensures AllAgree(chans', lanes')
  {
    hide Agree;
    forall q: nat ensures Agree(ChanOf(chans', q), LaneOf(lanes', q)) {
      assert Agree(ChanOf(chans, q), LaneOf(lanes, q));
    }
  }

  lemma BeginRead(chans: Chans, lanes: Lanes, e: Event, tail: bytes, chunk: nat)
    requires chunk > 0 && AllAgree(chans, lanes) && Legal(lanes, e) && e.Begin?
    ensures var r := ReadChunk(chans, EventBytes(lanes, e, chunk) + tail, chunk);
            && r.Chunk? && r.rest == tail && AllAgree(r.chans, LaneStep(lanes, e, chunk))
            && AsSeq(r.done) == Completed(lanes, e, chunk)
  {
    hide BasicHeader, MessageHeader, ReadBasic, ReadHeader, TakePayload, AllAgree;
    var (m, csid, k) := (e.message, e.csid, Min(|e.message.payload|, chunk));
    assert Agree(ChanOf(chans, csid), LaneOf(lanes, csid)) by { AgreeAt(chans, lanes, csid); }
    var head := MessageHeader(e.fmt, e.time, |m.payload|, m.mtype, e.streamId);
    var body := m.payload[..k] + tail;
    assert EventBytes(lanes, e, chunk) + tail == BasicHeader(e.fmt, csid, e.long) + (head + body);
    BasicReads(e.fmt, csid, e.long, head + body);
    var c := ChanOf(chans, csid);
    if e.fmt < 3 {
      HeaderReads(e.fmt, c, e.time, |m.payload|, m.mtype, e.streamId, body);
    } else {
      RepeatedHeader(c, body, e.time, |m.payload|, m.mtype, e.streamId);
    }
    var c' := ReadHeader(e.fmt, c, head + body).value.0;
    assert [] + m.payload[..k] == m.payload[..k];
    PayloadTaken(chans, csid, c', m.payload, tail, chunk);
    var r := TakePayload(chans, csid, c', body, chunk);
    OneAgrees(chans, lanes, r.chans, LaneStep(lanes, e, chunk), csid);
  }

  lemma AgreeAt(chans: Chans, lanes: Lanes, csid: nat)
    requires AllAgree(chans, lanes)
    ensures Agree(ChanOf(chans, csid), LaneOf(lanes, csid))
  {
  }

  lemma RepeatedHeader(c: Chan, body: bytes, time: nat, length: nat, mtype: byte, streamId: nat)
    requires c.remaining == 0
    ensures MessageHeader(3, time, length, mtype, streamId) + body == body
    ensures ReadHeader(3, c, body) == Some((c.(ts := (c.ts + c.delta) % TWO_TO_32, remaining := c.mlen, buf := []), body))
  {
  }

  lemma ContinueRead(chans: Chans, lanes: Lanes, e: Event, tail: bytes, chunk: nat)
    requires chunk > 0 && AllAgree(chans, lanes) && Legal(lanes, e) && e.Continue?
    ensures var r := ReadChunk(chans, EventBytes(lanes, e, chunk) + tail, chunk);
            && r.Chunk? && r.rest == tail && AllAgree(r.chans, LaneStep(lanes, e, chunk))
            && AsSeq(r.done) == Completed(lanes, e, chunk)
  {
    hide BasicHeader, ReadBasic, TakePayload, AllAgree;
    AgreeAt(chans, lanes, e.csid);
    var c, l := ChanOf(chans, e.csid), LaneOf(lanes, e.csid);
    var body := l.rest[..Min(|l.rest|, chunk)] + tail;
    assert EventBytes(lanes, e, chunk) + tail == BasicHeader(3, e.csid, e.long) + body;
    BasicReads(3, e.csid, e.long, body);
    PayloadTaken(chans, e.csid, c, l.rest, tail, chunk);
    OneAgrees(chans, lanes, TakePayload(chans, e.csid, c, body, chunk).chans, LaneStep(lanes, e, chunk), e.csid);
  }

  lemma EventRead(chans: Chans, lanes: Lanes, e: Event, tail: bytes, chunk: nat)
    requires chunk > 0 && AllAgree(chans, lanes) && Legal(lanes, e)
    ensures var r := ReadChunk(chans, EventBytes(lanes, e, chunk) + tail, chunk);
            && r.Chunk? && r.rest == tail && AllAgree(r.chans, LaneStep(lanes, e, chunk))
            && AsSeq(r.done) == Completed(lanes, e, chunk)
  {
    hide ReadChunk, EventBytes, AllAgree, LaneStep, Completed;
    match e
    case Begin(_, _, _, _, _, _) => BeginRead(chans, lanes, e, tail, chunk);
    case Continue(_, _) => ContinueRead(chans, lanes, e, tail, chunk);
  }

  /** Every message completed by reading chunk after chunk. */
  function ReadChunks(chans: Chans, d: bytes, chunk: nat): seq<Message>
    decreases |d|
  {
    match ReadChunk(chans, d, chunk)
    case Short => []
    case Chunk(chans', done, rest) => AsSeq(done) + ReadChunks(chans', rest, chunk)
  }

  lemma {:induction false} ReadAllIsChunks(chans: Chans, d: bytes, chunk: nat)
    ensures ReadAll(chans, d, chunk).0 == ReadChunks(chans, d, chunk)
    decreases |d|
  {
    hide ReadChunk;
    match ReadChunk(chans, d, chunk)
    case Short =>
    case Chunk(chans', done, rest) =>
      ReadAllIsChunks(chans', rest, chunk);
      if done.None? {
        assert [] + ReadChunks(chans', rest, chunk) == ReadChunks(chans', rest, chunk);
      }
  }

  lemma {:induction false} EventsRead(chans: Chans, lanes: Lanes, events: seq<Event>, chunk: nat)
    requires chunk > 0 && AllAgree(chans, lanes) && AllLegal(lanes, events, chunk)
    ensures ReadChunks(chans, RunBytes(lanes, events, chunk), chunk) == RunMessages(lanes, events, chunk)
    decreases |events|
  {
    hide AllAgree, ReadChunk, LaneStep, EventBytes, Completed, Legal;
    if events == [] {
      assert ReadChunk(chans, [], chunk).Short? by { NothingToRead(chans, chunk); }
    } else {
      var lanes' := LaneStep(lanes, events[0], chunk);
      var tail := RunBytes(lanes', events[1..], chunk);
      EventRead(chans, lanes, events[0], tail, chunk);
      var r := ReadChunk(chans, EventBytes(lanes, events[0], chunk) + tail, chunk);
      EventsRead(r.chans, lanes', events[1..], chunk);
    }
  }

  lemma NothingToRead(chans: Chans, chunk: nat)
    ensures ReadChunk(chans, [], chunk).Short?
  {
  }

  /** However the chunks of messages on different chunk streams are interleaved, and whatever header types they
      use, the reader returns exactly those messages in the order they are completed. */
  lemma InterleavedMessagesRead(events: seq<Event>, chunk: nat)
    requires chunk > 0 && AllLegal(map[], events, chunk)
    ensures ReadAll(map[], RunBytes(map[], events, chunk), chunk).0 == RunMessages(map[], events, chunk)
  {
    EventsRead(map[], map[], events, chunk);
    ReadAllIsChunks(map[], RunBytes(map[], events, chunk), chunk);
  }

  // ----- the client's own writer -----

  datatype Send = Send(csid: byte, typeId: byte, streamId: nat, payload: bytes, ts: nat)

  /** Both ends agree on such a message: the time needs no extension, or no later chunk to repeat it in. */
  predicate Carried(x: Send, chunk: nat)
  {
    && 2 <= x.csid < 64 && 0 < |x.payload| < TWO_TO_24 && x.ts < TWO_TO_32
    && (x.ts < NO_TIME || |x.payload| <= chunk)
  }

  function BytesOf(x: Send, chunk: nat): bytes
    requires x.csid < 64 && chunk > 0
  {
    MessageBytes(x.csid, x.typeId, x.streamId, x.payload, x.ts, chunk)
  }

  lemma ReadType3(chans: Chans, csid: byte, d: bytes, chunk: nat)
    requires 2 <= csid < 64 && csid in chans && chans[csid].remaining > 0
    ensures ReadChunk(chans, [192 + csid] + d, chunk) == TakePayload(chans, csid, chans[csid], d, chunk)
  {
    hide TakePayload;
    assert ([192 + csid] + d)[1..] == d;
  }

  lemma Nested(a: bytes, b: bytes, c: bytes, tail: bytes)
    ensures (a + ([] + (b + c))) + tail == a + (b + (c + tail))
  {
  }

  lemma ContinuedUnfolds(head: byte, rest: bytes, tail: bytes, chunk: nat)
    requires chunk > 0 && |rest| > 0
    ensures var k := Min(|rest|, chunk);
            Continued(head, [], rest, chunk) + tail == [head] + (rest[..k] + (Continued(head, [], rest[k..], chunk) + tail))
  {
    var k := Min(|rest|, chunk);
    Nested([head], rest[..k], Continued(head, [], rest[k..], chunk), tail);
  }

  /** The last type 3 chunk of a message. */
  lemma LastType3Read(chans: Chans, csid: byte, rest: bytes, tail: bytes, chunk: nat)
    requires 2 <= csid < 64 && csid in chans && 0 < |rest| <= chunk
    requires var c := chans[csid]; c.remaining == |rest| && c.mlen == |c.buf| + |rest|
    ensures var r := ReadChunk(chans, Continued(192 + csid, [], rest, chunk) + tail, chunk);
            && r.Chunk? && r.rest == tail && r.done == Some(Message(chans[csid].mtype, chans[csid].buf + rest))
  {
    hide *;
    LastContinued(192 + csid, rest, chunk);
    assert ([192 + csid] + rest) + tail == [192 + csid] + (rest + tail);
    ReadType3(chans, csid, rest + tail, chunk);
    LastPayloadTaken(chans, csid, chans[csid], rest, tail, chunk);
  }

  lemma LastContinued(head: byte, rest: bytes, chunk: nat)
    requires 0 < |rest| <= chunk
    ensures Continued(head, [], rest, chunk) == [head] + rest
  {
    NothingContinued(head, chunk);
    assert rest[..|rest|] == rest && rest[|rest|..] == [];
  }

  lemma LastPayloadTaken(chans: Chans, csid: nat, c: Chan, rest: bytes, tail: bytes, chunk: nat)
    requires 0 < |rest| <= chunk && c.remaining == |rest| && c.mlen == |c.buf| + |rest|
    ensures var r := TakePayload(chans, csid, c, rest + tail, chunk);
            r.Chunk? && r.rest == tail && r.done == Some(Message(c.mtype, c.buf + rest))
  {
    assert (rest + tail)[..|rest|] == rest && (rest + tail)[|rest|..] == tail;
  }

  /** A type 3 chunk with more to come. */
  lemma FullType3Read(chans: Chans, csid: byte, first: bytes, after: bytes)
    requires 0 < |first| && 2 <= csid < 64 && csid in chans && chans[csid].remaining > |first|
    ensures var c := chans[csid];
            ReadChunk(chans, [192 + csid] + (first + after), |first|)
            == Chunk(chans[csid := c.(buf := c.buf + first, remaining := c.remaining - |first|)], None, after)
  {
    ReadType3(chans, csid, first + after, |first|);
    hide ReadChunk;
    assert (first + after)[..|first|] == first && (first + after)[|first|..] == after;
  }

  lemma {:induction false} ContinuedReads(chans: Chans, csid: byte, rest: bytes, tail: bytes, chunk: nat)
    requires chunk > 0 && 2 <= csid < 64 && csid in chans
    requires var c := chans[csid]; c.remaining == |rest| > 0 && c.mlen == |c.buf| + |rest|
    ensures var r := ReadMessage(chans, Continued(192 + csid, [], rest, chunk) + tail, chunk);
            && r.Chunk? && r.rest == tail && r.done == Some(Message(chans[csid].mtype, chans[csid].buf + rest))
    decreases |rest|
  {
    hide ReadChunk, Continued;
    if |rest| <= chunk {
      LastType3Read(chans, csid, rest, tail, chunk);
    } else {
      ContinuedUnfolds(192 + csid, rest, tail, chunk);
      FullType3Read(chans, csid, rest[..chunk], Continued(192 + csid, [], rest[chunk..], chunk) + tail);
      var r := ReadChunk(chans, Continued(192 + csid, [], rest, chunk) + tail, chunk);
      ContinuedReads(r.chans, csid, rest[chunk..], tail, chunk);
      Halves(chans[csid].buf, rest, chunk);
    }
  }

  lemma Halves(buf: bytes, rest: bytes, k: nat)
    requires k <= |rest|
    ensures (buf + rest[..k]) + rest[k..] == buf + rest
  {
  }

  lemma NothingContinued(head: byte, chunk: nat)
    requires chunk > 0
    ensures Continued(head, [], [], chunk) == []
  {
  }

  lemma OpeningRead(chans: Chans, x: Send, tail: bytes, chunk: nat)
    requires chunk > 0 && 2 <= x.csid < 64 && 0 < |x.payload| < TWO_TO_24 && x.ts < TWO_TO_32
    ensures ReadChunk(chans, OpeningHeader(x.csid, x.typeId, x.streamId, |x.payload|, x.ts) + tail, chunk)
            == TakePayload(chans, x.csid, Chan(x.ts, 0, |x.payload|, x.typeId, [], |x.payload|), tail, chunk)
  {
    hide Time24, Be24, Extended, ReadTime, StreamIdOctets, TakePayload, ReadHeader, ReadBasic;
    var head := MessageHeader(0, x.ts, |x.payload|, x.typeId, x.streamId);
    assert OpeningHeader(x.csid, x.typeId, x.streamId, |x.payload|, x.ts) + tail == BasicHeader(0, x.csid, false) + (head + tail);
    BasicReads(0, x.csid, false, head + tail);
    HeaderReads(0, ChanOf(chans, x.csid), x.ts, |x.payload|, x.typeId, x.streamId, tail);
  }

  /** A stream id is the one field that goes least octet first. */
  function LittleEndian(d: bytes): nat
    requires |d| == 4
  {
    d[0] as int + d[1] as int * 256 + d[2] as int * 0x1_0000 + d[3] as int * 0x100_0000
  }

  lemma StreamIdReads(id: nat)
    requires id < TWO_TO_32
    ensures LittleEndian(StreamIdOctets(id)) == id
  {
    assert id / 256 / 256 == id / 0x1_0000 && id / 0x1_0000 / 256 == id / 0x100_0000;
  }

  /** Every message opens with a type 0 header on its chunk stream that says its time, its length, its type and, least
      octet first, its message stream (Adobe RTMP 1.0, section 5.3.1.2.1). */
  lemma MessageOpens(x: Send, c: Chan, chunk: nat)
    requires chunk > 0 && 2 <= x.csid < 64 && |x.payload| < TWO_TO_24 && x.ts < TWO_TO_32 && x.streamId < TWO_TO_32
    ensures var d := BytesOf(x, chunk);
            && |d| >= 12 && ReadBasic(d) == Some((0, x.csid as nat, d[1..]))
            && (exists rest: bytes :: ReadHeader(0, c, d[1..]) == Some((Chan(x.ts, 0, |x.payload|, x.typeId, [], |x.payload|), rest)))
            && LittleEndian(d[8..12]) == x.streamId
  {
    hide Time24, Be24, Extended, StreamIdOctets, ReadHeader, ReadBasic, Continued, LittleEndian;
    var first := Min(|x.payload|, chunk);
    var tail := x.payload[..first] + Continued(192 + x.csid, Extended(x.ts), x.payload[first..], chunk);
    var head := MessageHeader(0, x.ts, |x.payload|, x.typeId, x.streamId);
    var d := BytesOf(x, chunk);
    assert d == BasicHeader(0, x.csid, false) + (head + tail);
    BasicReads(0, x.csid, false, head + tail);
    HeaderReads(0, c, x.ts, |x.payload|, x.typeId, x.streamId, tail);
    assert d[1..] == head + tail;
    StreamIdReads(x.streamId);
    BeLengths(|x.payload|);
    assert d[8..12] == StreamIdOctets(x.streamId);
  }

  lemma BeLengths(n: nat)
    ensures |Be24(n)| == 3
  {
  }

  /** One message, read from any state of the reader. */
  lemma MessageRead(chans: Chans, x: Send, tail: bytes, chunk: nat)
    requires chunk > 0 && Carried(x, chunk)
    ensures var r := ReadMessage(chans, BytesOf(x, chunk) + tail, chunk);
            r.Chunk? && r.rest == tail && r.done == Some(Message(x.typeId, x.payload))
  {
    hide TakePayload, ReadChunk, OpeningHeader, Be32;
    var k := Min(|x.payload|, chunk);
    var rest := x.payload[k..];
    var more := Continued(192 + x.csid, Extended(x.ts), rest, chunk);
    var body := x.payload[..k] + (more + tail);
    assert BytesOf(x, chunk) + tail == OpeningHeader(x.csid, x.typeId, x.streamId, |x.payload|, x.ts) + body;
    OpeningRead(chans, x, body, chunk);
    var c := Chan(x.ts, 0, |x.payload|, x.typeId, [], |x.payload|);
    PayloadTaken(chans, x.csid, c, x.payload, more + tail, chunk);
    var r := TakePayload(chans, x.csid, c, body, chunk);
    assert [] + x.payload[..k] == x.payload[..k] && x.payload[..k] + rest == x.payload;
    if rest == [] {
      assert more + tail == tail;
      assert x.payload[..k] == x.payload;
    } else {
      ContinuedReads(r.chans, x.csid, rest, tail, chunk);
    }
  }

  function SendsBytes(sends: seq<Send>, chunk: nat): bytes
    requires chunk > 0 && forall x :: x in sends ==> Carried(x, chunk)
  {
    if sends == [] then []
    else
      assert Carried(sends[0], chunk);
      BytesOf(sends[0], chunk) + SendsBytes(sends[1..], chunk)
  }

  function MessagesOf(sends: seq<Send>): seq<Message>
  {
    seq(|sends|, i requires 0 <= i < |sends| => Message(sends[i].typeId, sends[i].payload))
  }

  /** Messages sent one after another are returned type for type and octet for octet. */
  lemma {:induction false} SentMessagesRead(chans: Chans, sends: seq<Send>, chunk: nat)
    requires chunk > 0 && forall x :: x in sends ==> Carried(x, chunk)
    ensures var (messages, _, rest) := ReadAll(chans, SendsBytes(sends, chunk), chunk);
            messages == MessagesOf(sends) && rest == []
    decreases |sends|
  {
    hide ReadMessage, Carried, BytesOf;
    if sends == [] {
      assert ReadMessage(chans, [], chunk).Short? by { NoMessage(chans, chunk); }
    } else {
      assert Carried(sends[0], chunk);
      var tail := SendsBytes(sends[1..], chunk);
      MessageRead(chans, sends[0], tail, chunk);
      var r := ReadMessage(chans, SendsBytes(sends, chunk), chunk);
      SentMessagesRead(r.chans, sends[1..], chunk);
      assert MessagesOf(sends) == [Message(sends[0].typeId, sends[0].payload)] + MessagesOf(sends[1..]);
    }
  }

  lemma NoMessage(chans: Chans, chunk: nat)
    ensures ReadMessage(chans, [], chunk).Short?
  {
  }

  /** What the writer sends after a message's first chunk, when it repeats the time. */
  function Repeating(x: Send, chunk: nat): bytes
    requires x.csid < 64 && 0 < chunk < |x.payload|
  {
    var rest := x.payload[chunk..];
    [192 + x.csid] + ((Be32(x.ts) + rest[..Min(|rest|, chunk)])
                      + Continued(192 + x.csid, Be32(x.ts), rest[Min(|rest|, chunk)..], chunk))
  }

  /** The first chunk is read as it was sent. */
  lemma FirstChunkRead(chans: Chans, x: Send, chunk: nat)
    requires 2 <= x.csid < 64 && 0 < chunk < |x.payload| < TWO_TO_24 && NO_TIME <= x.ts < TWO_TO_32
    ensures var c := Chan(x.ts, 0, |x.payload|, x.typeId, x.payload[..chunk], |x.payload| - chunk);
            ReadChunk(chans, BytesOf(x, chunk), chunk) == Chunk(chans[x.csid := c], None, Repeating(x, chunk))
  {
    hide ReadChunk, OpeningHeader, Be32;
    var more := Repeating(x, chunk);
    RepeatingIs(x, chunk);
    assert BytesOf(x, chunk) == OpeningHeader(x.csid, x.typeId, x.streamId, |x.payload|, x.ts) + (x.payload[..chunk] + more);
    OpeningRead(chans, x, x.payload[..chunk] + more, chunk);
    assert (x.payload[..chunk] + more)[..chunk] == x.payload[..chunk] && (x.payload[..chunk] + more)[chunk..] == more;
    assert [] + x.payload[..chunk] == x.payload[..chunk];
  }

  lemma RepeatingIs(x: Send, chunk: nat)
    requires x.csid < 64 && 0 < chunk < |x.payload| && NO_TIME <= x.ts
    ensures Continued(192 + x.csid, Extended(x.ts), x.payload[chunk..], chunk) == Repeating(x, chunk)
  {
    hide Be32;
    var rest, head := x.payload[chunk..], 192 + x.csid;
    var k := Min(|rest|, chunk);
    ContinuedOnce(head, Be32(x.ts), rest, chunk);
    hide Continued;
    Regroup(Be32(x.ts), rest[..k], Continued(head, Be32(x.ts), rest[k..], chunk));
  }

  lemma ContinuedOnce(head: byte, ext: bytes, rest: bytes, chunk: nat)
    requires chunk > 0 && |rest| > 0
    ensures var k := Min(|rest|, chunk);
            Continued(head, ext, rest, chunk) == [head] + (ext + (rest[..k] + Continued(head, ext, rest[k..], chunk)))
  {
  }

  lemma Regroup(a: bytes, b: bytes, c: bytes)
    ensures a + (b + c) == (a + b) + c
  {
  }

  /** However many chunks a message has, an extended time that the writer repeats in its second chunk is taken for
      payload: the chunk's own last four octets are left over, and the reader goes on there. */
  lemma RepeatedTimeIsPayload(chans: Chans, x: Send, chunk: nat)
    requires 2 <= x.csid < 64 && 0 < chunk < |x.payload| < TWO_TO_24 && NO_TIME <= x.ts < TWO_TO_32
    ensures var rest := x.payload[chunk..];
            var k := Min(|rest|, chunk);
            var second := Be32(x.ts) + rest[..k];
            var r1 := ReadChunk(chans, BytesOf(x, chunk), chunk);
            r1.Chunk? && r1.done.None? &&
            var r2 := ReadChunk(r1.chans, r1.rest, chunk);
            && r2.Chunk?
            && r2.chans == chans[x.csid := Chan(x.ts, 0, |x.payload|, x.typeId, x.payload[..chunk] + second[..k], |rest| - k)]
            && r2.rest == second[k..] + Continued(192 + x.csid, Be32(x.ts), rest[k..], chunk) && |second[k..]| == 4
            && r2.done == if |rest| > k then None else Some(Message(x.typeId, x.payload[..chunk] + second[..k]))
  {
    hide ReadChunk, Be32, Continued, BytesOf;
    FirstChunkRead(chans, x, chunk);
    var rest := x.payload[chunk..];
    var k := Min(|rest|, chunk);
    var second := Be32(x.ts) + rest[..k];
    var more := Continued(192 + x.csid, Be32(x.ts), rest[k..], chunk);
    var r1 := ReadChunk(chans, BytesOf(x, chunk), chunk);
    ReadType3(r1.chans, x.csid, second + more, chunk);
    assert (second + more)[..k] == second[..k] && (second + more)[k..] == second[k..] + more;
  }

  /** Up to two chunks long, a message is read back cleanly exactly when both ends agree on it. */
  lemma CleanlyReadIff(chans: Chans, x: Send, chunk: nat)
    requires 2 <= x.csid < 64 && chunk > 0 && 0 < |x.payload| <= 2 * chunk && |x.payload| < TWO_TO_24 && x.ts < TWO_TO_32
    ensures var r := ReadMessage(chans, BytesOf(x, chunk), chunk);
            r.Chunk? && r.rest == [] && r.done == Some(Message(x.typeId, x.payload)) <==> x.ts < NO_TIME || |x.payload| <= chunk
  {
    if Carried(x, chunk) {
      MessageRead(chans, x, [], chunk);
      assert BytesOf(x, chunk) + [] == BytesOf(x, chunk);
    } else {
      RepeatedTimeIsPayload(chans, x, chunk);
      hide ReadChunk, Be32, Continued, BytesOf;
      var r1 := ReadChunk(chans, BytesOf(x, chunk), chunk);
      assert |ReadChunk(r1.chans, r1.rest, chunk).rest| >= 4;
    }
  }

  // ----- a time that puts the reader right again -----

  const CHANCE_TIME := 0x85FF_FFFF

  /** Three chunks whose middle one looks like the time itself: the reader takes the octets left over, the next chunk's
      header and most of its time for a header of an idle chunk stream, and the time's last octet for the header it
      has just swallowed. */
  function ByChance(typeId: byte, streamId: nat, first: bytes, last: bytes): Send
  {
    Send(63, typeId, streamId, first + Be32(CHANCE_TIME) + last, CHANCE_TIME)
  }

  lemma ChanceOctets()
    ensures Be32(CHANCE_TIME) == [0x85, 0xFF, 0xFF, 0xFF]
    ensures [0xFF] + Be32(CHANCE_TIME) == Be32(0xFF85_FFFF) + [0xFF]
  {
  }

  lemma IdleHeaderRead(chans: Chans, tail: bytes, chunk: nat)
    requires ChanOf(chans, 5).mlen == 0
    ensures var r := ReadChunk(chans, [0x85, 0xFF, 0xFF, 0xFF] + (Be32(0xFF85_FFFF) + tail), chunk);
            r.Chunk? && r.done.None? && r.rest == tail && r.chans == chans[5 := r.chans[5]]
  {
    IdleHeaderIs(tail);
    BasicReads(2, 5, false, MessageHeader(2, 0xFF85_FFFF, 0, 0, 0) + tail);
    HeaderReads(2, ChanOf(chans, 5), 0xFF85_FFFF, 0, 0, 0, tail);
    hide ReadBasic, ReadHeader, Be32, BasicHeader, MessageHeader;
  }

  lemma IdleHeaderIs(tail: bytes)
    ensures [0x85, 0xFF, 0xFF, 0xFF] + (Be32(0xFF85_FFFF) + tail)
            == BasicHeader(2, 5, false) + (MessageHeader(2, 0xFF85_FFFF, 0, 0, 0) + tail)
  {
    hide Be32;
    var time: bytes := [0xFF, 0xFF, 0xFF];
    assert BasicHeader(2, 5, false) == [0x85] && [0x85] + time == [0x85, 0xFF, 0xFF, 0xFF];
    assert MessageHeader(2, 0xFF85_FFFF, 0, 0, 0) == time + Be32(0xFF85_FFFF);
    hide BasicHeader, MessageHeader;
    Regroup([0x85], time, Be32(0xFF85_FFFF) + tail);
    Regroup(time, Be32(0xFF85_FFFF), tail);
  }

  lemma LastRepeating(head: byte, ext: bytes, last: bytes, chunk: nat)
    requires 0 < |last| <= chunk
    ensures Continued(head, ext, last, chunk) == [head] + (ext + last)
  {
    assert last[..|last|] == last && last[|last|..] == [];
    assert Continued(head, ext, [], chunk) == [];
  }

  lemma ReadOn(chans: Chans, d: bytes, chunk: nat)
    requires ReadChunk(chans, d, chunk).Chunk?
    ensures var r := ReadChunk(chans, d, chunk);
            ReadMessage(chans, d, chunk) == if r.done.Some? then r else ReadMessage(r.chans, r.rest, chunk)
  {
    hide ReadChunk;
  }

  lemma ChanceSplits(last: bytes)
    requires 0 < |last| <= 4
    ensures Be32(CHANCE_TIME) + Continued(0xFF, Be32(CHANCE_TIME), last, 4)
            == [0x85, 0xFF, 0xFF, 0xFF] + (Be32(0xFF85_FFFF) + ([0xFF] + last))
  {
    ChanceOctets();
    LastRepeating(0xFF, Be32(CHANCE_TIME), last, 4);
    hide *;
    Regroup([0xFF], Be32(CHANCE_TIME), last);
    Regroup(Be32(0xFF85_FFFF), [0xFF], last);
  }

  /** Reading on after the second chunk of such a message. */
  lemma ChanceRead(chans: Chans, mtype: byte, buf: bytes, last: bytes)
    requires 63 in chans && 0 < |last| <= 4 && ChanOf(chans, 5).mlen == 0
    requires var c := chans[63]; c.remaining == |last| && c.mlen == |buf| + |last| && c.mtype == mtype && c.buf == buf
    ensures var time := Be32(CHANCE_TIME);
            var r := ReadMessage(chans, time + Continued(0xFF, time, last, 4), 4);
            r.Chunk? && r.rest == [] && r.done == Some(Message(mtype, buf + last))
  {
    ChanceSplits(last);
    hide *;
    var d := Be32(CHANCE_TIME) + Continued(0xFF, Be32(CHANCE_TIME), last, 4);
    IdleHeaderRead(chans, [0xFF] + last, 4);
    var r := ReadChunk(chans, d, 4);
    ReadOn(chans, d, 4);
    LastOne(r.chans, mtype, buf, last);
  }

  lemma LastOne(chans: Chans, mtype: byte, buf: bytes, last: bytes)
    requires 63 in chans && 0 < |last| <= 4
    requires var c := chans[63]; c.remaining == |last| && c.mlen == |buf| + |last| && c.mtype == mtype && c.buf == buf
    ensures var r := ReadMessage(chans, [0xFF] + last, 4);
            r.Chunk? && r.rest == [] && r.done == Some(Message(mtype, buf + last))
  {
    ReadType3(chans, 63, last, 4);
    hide ReadChunk, ReadMessage;
    assert last[..|last|] == last && last[|last|..] == [];
    ReadOn(chans, [0xFF] + last, 4);
  }

  /** So beyond two chunks a message with an extended time can be read back cleanly by chance, and the condition above
      is no longer exact. */
  lemma LongMessageReadByChance(chans: Chans, typeId: byte, streamId: nat, first: bytes, last: bytes)
    requires |first| == 4 && 0 < |last| <= 4 && ChanOf(chans, 5).mlen == 0
    ensures var x := ByChance(typeId, streamId, first, last);
            var r := ReadMessage(chans, BytesOf(x, 4), 4);
            r.Chunk? && r.rest == [] && r.done == Some(Message(typeId, x.payload))
  {
    var x := ByChance(typeId, streamId, first, last);
    var time := Be32(CHANCE_TIME);
    hide ReadChunk, Be32, Continued, BytesOf, ReadMessage;
    RepeatedTimeIsPayload(chans, x, 4);
    assert x.payload[4..] == time + last && (time + last)[..4] == time && (time + last)[4..] == last && x.payload[..4] == first;
    var r1 := ReadChunk(chans, BytesOf(x, 4), 4);
    var r2 := ReadChunk(r1.chans, r1.rest, 4);
    assert (time + time)[4..] == time && (time + time)[..4] == time;
    ReadOn(chans, BytesOf(x, 4), 4);
    ReadOn(r1.chans, r1.rest, 4);
    assert x.payload == (first + time) + last;
    ChanceRead(r2.chans, typeId, first + time, last);
  }

  /** A message without payload is never returned: the reader goes on to the one after it. */
  lemma EmptyMessageSkipped(chans: Chans, csid: byte, typeId: byte, streamId: nat, ts: nat, tail: bytes, chunk: nat)
    requires 2 <= csid < 64 && chunk > 0 && ts < TWO_TO_32
    ensures var r := ReadChunk(chans, MessageBytes(csid, typeId, streamId, [], ts, chunk) + tail, chunk);
            && r.Chunk? && r.done.None? && r.rest == tail
            && ReadMessage(chans, MessageBytes(csid, typeId, streamId, [], ts, chunk) + tail, chunk)
               == ReadMessage(r.chans, tail, chunk)
  {
    hide Time24, Be24, Extended, ReadTime, StreamIdOctets, ReadHeader, ReadBasic;
    var head := MessageHeader(0, ts, 0, typeId, streamId);
    assert MessageBytes(csid, typeId, streamId, [], ts, chunk) + tail == BasicHeader(0, csid, false) + (head + tail);
    BasicReads(0, csid, false, head + tail);
    HeaderReads(0, ChanOf(chans, csid), ts, 0, typeId, streamId, tail);
  }
}
