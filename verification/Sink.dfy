// One output's bounded queue, and the writer that empties it into the output's current connection.
module Sink {
  import opened Bytes
  import opened Flv

  const PRIMARY_QUEUE_MAX := 900
  const RESTREAM_QUEUE_MAX := 300

  /** A connection attached to the sink; every attachment is numbered by the caller. */
  type Conn = nat

  datatype Write = FileHeader | Out(tag: Tag)

  /** What the writer keeps outside the lock: its connection, and the tag it has taken but not yet forwarded. */
  datatype Writer = Writer(gen: nat, out: Option<Conn>, started: bool, tracks: set<byte>, headers: map<Key, bytes>,
                           hand: Option<Tag>, stopped: bool)

  datatype State = State(isPrimary: bool, queue: seq<Tag>, out: Option<Conn>, seed: map<Key, bytes>, gen: nat,
                         overflow: bool, dropped: nat, closed: bool, w: Writer)

  function Fresh(isPrimary: bool): State
  {
    State(isPrimary, [], None, map[], 0, false, 0, false, Writer(0, None, false, {}, map[], None, false))
  }

  function MaxLen(s: State): nat
  {
    if s.isPrimary then PRIMARY_QUEUE_MAX else RESTREAM_QUEUE_MAX
  }

  // ----- the critical sections -----

  function OfferStep(s: State, tag: Tag): State
  {
    if s.out.None? then s
    else if |s.queue| >= MaxLen(s) then s.(dropped := s.dropped + |s.queue|, queue := [tag], overflow := true)
    else s.(queue := s.queue + [tag])
  }

  function AttachStep(s: State, conn: Conn, seed: map<Key, bytes>): State
  {
    s.(out := Some(conn), seed := seed, gen := s.gen + 1, queue := [])
  }

  function DetachStep(s: State): State
  {
    s.(out := None, gen := s.gen + 1, queue := [])
  }

  /** A new generation is a new connection; an overflow is a resynchronisation on the same one. */
  function SyncWriter(s: State): Writer
  {
    var w := if s.gen != s.w.gen then s.w.(gen := s.gen, out := s.out, headers := s.seed, started := false, tracks := {}) else s.w;
    if s.overflow then w.(started := false, tracks := {}) else w
  }

  /** The writer's turn under the lock: it notices what changed and takes the oldest tag. */
  function TakeStep(s: State): State
  {
    if s.w.hand.Some? || s.w.stopped then s
    else if s.closed then s.(w := s.w.(stopped := true))
    else
      var s1 := s.(w := SyncWriter(s), overflow := false);
      if s.queue == [] then s1 else s1.(queue := s.queue[1..], w := s1.w.(hand := Some(s.queue[0])))
  }

  // ----- forwarding, outside the lock -----

  function TrackIdOf(tag: Tag): byte
  {
    if tag.tagType == TAG_VIDEO then VideoTrackId(tag.payload) else 0
  }

  predicate IsKeyframeTag(tag: Tag)
  {
    tag.tagType == TAG_VIDEO && IsVideoKeyframe(tag.payload)
  }

  /** A started connection's rung that has not begun. */
  predicate Waits(w: Writer, tag: Tag)
  {
    tag.tagType == TAG_VIDEO && TrackIdOf(tag) !in w.tracks && !IsKeyframeTag(tag)
  }

  function ForwardWriter(w: Writer, tag: Tag): Writer
  {
    if IsHeader(tag) then w.(headers := w.headers[KeyOf(tag) := tag.payload])
    else if !w.started then
      if IsKeyframeTag(tag) && TrackIdOf(tag) == 0 then w.(started := true, tracks := w.tracks + {0}) else w
    else if Waits(w, tag) || tag.tagType != TAG_VIDEO then w
    else w.(tracks := w.tracks + {TrackIdOf(tag)})
  }

  function AsWrites(tags: seq<Tag>): seq<Write>
  {
    seq(|tags|, i requires 0 <= i < |tags| => Out(tags[i]))
  }

  function Forwarded(w: Writer, tag: Tag): seq<Write>
  {
    if IsHeader(tag) then if w.started then [Out(tag)] else []
    else if !w.started then
      if IsKeyframeTag(tag) && TrackIdOf(tag) == 0 then [FileHeader] + AsWrites(HeaderBlock(w.headers, tag.ts)) + [Out(tag)]
      else []
    else if Waits(w, tag) then []
    else [Out(tag)]
  }

  function ForwardStep(s: State): State
  {
    if s.w.hand.None? then s
    else if s.w.out.None? then s.(w := s.w.(hand := None))
    else s.(w := ForwardWriter(s.w, s.w.hand.value).(hand := None))
  }

  // ----- the object -----

  class OutputSink {
    const isPrimary: bool
    var queue: seq<Tag>
    var out: Option<Conn>
    var seedHeaders: map<Key, bytes>
    var gen: nat
    var overflow: bool
    var dropped: nat
    var closed: bool
    // The writer's own variables.
    var localGen: nat
    var localOut: Option<Conn>
    var started: bool
    var startedTracks: set<byte>
    var headers: map<Key, bytes>
    var item: Option<Tag>
    var done: bool
    var written: map<Conn, seq<Write>>

    function Local(): Writer
      reads this
    {
      Writer(localGen, localOut, started, startedTracks, headers, item, done)
    }

    function Abs(): State
      reads this
    {
      State(isPrimary, queue, out, seedHeaders, gen, overflow, dropped, closed, Local())
    }

    constructor (primary: bool)
      ensures Abs() == Fresh(primary) && written == map[]
    {
      isPrimary := primary;
      queue, out, seedHeaders, gen, overflow, dropped, closed := [], None, map[], 0, false, 0, false;
      localGen, localOut, started, startedTracks, headers, item, done := 0, None, false, {}, map[], None, false;
      written := map[];
    }

    method Attach(conn: Conn, seed: map<Key, bytes>)
      modifies `out, `seedHeaders, `gen, `queue
      ensures Abs() == AttachStep(old(Abs()), conn, seed)
    {
      out, seedHeaders, gen, queue := Some(conn), seed, gen + 1, [];
    }

    method Detach()
      modifies `out, `gen, `queue
      ensures Abs() == DetachStep(old(Abs()))
    {
      out, gen, queue := None, gen + 1, [];
    }

    method Close()
      modifies `closed
      ensures Abs() == old(Abs()).(closed := true)
    {
      closed := true;
    }

    method Offer(tag: Tag)
      modifies `dropped, `queue, `overflow
      ensures Abs() == OfferStep(old(Abs()), tag)
    {
      if out.None? {
        return;
      }
      var maxlen := if isPrimary then PRIMARY_QUEUE_MAX else RESTREAM_QUEUE_MAX;
      if |queue| >= maxlen {
        dropped := dropped + |queue|;
        queue := [];
        overflow := true;
      }
      queue := queue + [tag];
    }

    /** A change of generation or an overflow noticed. */
    method Sync()
      modifies `localGen, `localOut, `headers, `started, `startedTracks, `overflow
      ensures Local() == SyncWriter(old(Abs())) && !overflow
    {
      if gen != localGen {
        localGen, localOut, headers, started, startedTracks := gen, out, seedHeaders, false, {};
      }
      if overflow {
        overflow, started, startedTracks := false, false, {};
      }
    }

    /** The locked part of the writer's loop. */
    method Take()
      requires item.None? && !done
      modifies `localGen, `localOut, `headers, `started, `startedTracks, `overflow, `queue, `item, `done
      ensures Abs() == TakeStep(old(Abs()))
    {
      hide SyncWriter;
      if closed {
        done := true;
        return;
      }
      Sync();
      SyncKeepsHand(old(Abs()));
      if |queue| > 0 {
        item := Some(queue[0]);
        queue := queue[1..];
      }
    }

    /** The part outside the lock. */
    method Forward()
      requires item.Some?
      modifies `started, `startedTracks, `headers, `item, `written
      ensures Abs() == ForwardStep(old(Abs()))
      ensures forall c: Conn :: WritesTo(written, c) == WritesTo(old(written), c)
                + if localOut == Some(c) then Forwarded(old(Local()), old(item).value) else []
    {
      hide ForwardWriter, Forwarded;
      if localOut.Some? {
        var lines := ForwardTag(item.value);
        written := written[localOut.value := WritesTo(written, localOut.value) + lines];
      }
      item := None;
    }

    method ForwardTag(tag: Tag) returns (lines: seq<Write>)
      modifies `started, `startedTracks, `headers
      ensures Local() == ForwardWriter(old(Local()), tag) && lines == Forwarded(old(Local()), tag)
    {
      hide IsHeader, KeyOf, HeaderBlock, IsVideoKeyframe, VideoTrackId;
      lines := [];
      if IsHeader(tag) {
        headers := headers[KeyOf(tag) := tag.payload];
        if started {
          lines := [Out(tag)];
        }
        return;
      }
      var isKeyframe := tag.tagType == TAG_VIDEO && IsVideoKeyframe(tag.payload);
      var trackId: byte := if tag.tagType == TAG_VIDEO then VideoTrackId(tag.payload) else 0;
      if !started {
        if !isKeyframe || trackId != 0 {
          return;
        }
        lines := HeaderLines(tag.ts);
        started, startedTracks := true, startedTracks + {0};
      } else if tag.tagType == TAG_VIDEO && trackId !in startedTracks {
        if !isKeyframe {
          return;
        }
        startedTracks := startedTracks + {trackId};
      }
      assert Local() == ForwardWriter(old(Local()), tag);
      lines := lines + [Out(tag)];
    }

    method HeaderLines(ts: int) returns (lines: seq<Write>)
      ensures lines == [FileHeader] + AsWrites(HeaderBlock(headers, ts))
    {
      HeaderBlockCanonical(headers, ts);
      var keys := OrderedHeaderKeys(headers.Keys);
      hide OrderedHeaderKeys;
      ghost var all := [FileHeader] + AsWrites(HeaderBlock(headers, ts));
      lines := [FileHeader];
      for i := 0 to |keys|
        invariant lines == all[..i + 1]
      {
        lines := lines + [Out(Tag(TagTypeOf(keys[i]), ts, headers[keys[i]]))];
      }
      assert all[..|keys| + 1] == all;
    }
  }

  lemma SyncKeepsHand(s: State)
    ensures SyncWriter(s).hand == s.w.hand && SyncWriter(s).stopped == s.w.stopped
  {
  }

  function WritesTo(written: map<Conn, seq<Write>>, c: Conn): seq<Write>
  {
    if c in written then written[c] else []
  }
}
