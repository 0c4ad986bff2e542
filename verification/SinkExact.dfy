// What an output's connections are written, exactly, from what the writer forwarded in each of its turns.
module SinkExact {
  import opened Bytes
  import opened Flv
  import opened Sink
  import opened SinkRuns

  /** The header cache after these tags. */
  function HeadersAfter(seed: map<Key, bytes>, tags: seq<Tag>): map<Key, bytes>
  {
    if tags == [] then seed
    else
      var h, last := HeadersAfter(seed, tags[..|tags| - 1]), tags[|tags| - 1];
      if IsHeader(last) then h[KeyOf(last) := last.payload] else h
  }

  /** All tags but the pictures of rungs that have had no keyframe. */
  ghost function Kept(tags: seq<Tag>): seq<Tag>
  {
    if tags == [] then []
    else Kept(tags[..|tags| - 1]) + if BeforeKey(tags, tags[|tags| - 1]) then [] else [tags[|tags| - 1]]
  }

  /** What is written for one turn: nothing up to its first anchor; there the file header, the latest codec headers and
      the anchor; and then all that is kept. */
  ghost function LinesOf(turn: Turn): seq<Write>
  {
    var a := AnchorAt(turn.tags);
    if a == |turn.tags| then []
    else
      [FileHeader] + AsWrites(HeaderBlock(HeadersAfter(turn.seed, turn.before + turn.tags[..a]), turn.tags[a].ts))
      + [Out(turn.tags[a])] + AsWrites(Kept(turn.tags[a + 1..]))
  }

  /** What the turns of one connection wrote to it. */
  ghost function WrittenIn(turns: seq<Turn>, c: Conn): seq<Write>
  {
    if turns == [] then []
    else
      WrittenIn(turns[..|turns| - 1], c)
      + if turns[|turns| - 1].conn == Some(c) then LinesOf(turns[|turns| - 1]) else []
  }

  /** All that was forwarded, in order. */
  function AllForwarded(turns: seq<Turn>): seq<Tag>
  {
    if turns == [] then [] else AllForwarded(turns[..|turns| - 1]) + turns[|turns| - 1].tags
  }

  /** The tags the writer has taken from the queue. */
  function TakenOf(gone: seq<(Tag, Fate)>): seq<Tag>
  {
    if gone == [] then []
    else TakenOf(gone[..|gone| - 1]) + if gone[|gone| - 1].1 == Taken then [gone[|gone| - 1].0] else []
  }

  function InHand(w: Writer): seq<Tag>
  {
    match w.hand
    case None => []
    case Some(tag) => [tag]
  }

  // ----- the writer in its turn -----

  /** The writer's own fields, told by what it has forwarded in this turn. */
  ghost predicate WriterTold(w: Writer, turn: Turn)
  {
    && turn.conn == w.out
    && (w.started <==> w.out.Some? && HasAnchor(turn.tags))
    && (w.out.Some? ==> w.headers == HeadersAfter(turn.seed, turn.before + turn.tags))
    && (w.started ==> forall id: byte :: id in w.tracks <==> id == 0 || KeyCame(turn.tags[AnchorAt(turn.tags) + 1..], id))
    && (!w.started ==> w.tracks == {})
  }

  lemma HeadersSnoc(seed: map<Key, bytes>, tags: seq<Tag>, tag: Tag)
    ensures HeadersAfter(seed, tags + [tag])
            == if IsHeader(tag) then HeadersAfter(seed, tags)[KeyOf(tag) := tag.payload] else HeadersAfter(seed, tags)
  {
    hide IsHeader, KeyOf;
    assert (tags + [tag])[..|tags|] == tags;
  }

  lemma KeptSnoc(tags: seq<Tag>, tag: Tag)
    ensures Kept(tags + [tag]) == Kept(tags) + if BeforeKey(tags + [tag], tag) then [] else [tag]
  {
    hide BeforeKey;
    assert (tags + [tag])[..|tags|] == tags;
  }

  lemma WritesAppend(a: seq<Tag>, b: seq<Tag>)
    ensures AsWrites(a + b) == AsWrites(a) + AsWrites(b)
  {
  }

  /** What one more tag adds to a turn. */
  ghost function Added(turn: Turn, tag: Tag): seq<Write>
  {
    if HasAnchor(turn.tags) then
      if BeforeKey(turn.tags[AnchorAt(turn.tags) + 1..] + [tag], tag) then [] else [Out(tag)]
    else if IsAnchor(tag) then
      [FileHeader] + AsWrites(HeaderBlock(HeadersAfter(turn.seed, turn.before + turn.tags), tag.ts)) + [Out(tag)]
    else []
  }

  lemma LinesGrow(turn: Turn, tag: Tag)
    requires HasAnchor(turn.tags)
    ensures LinesOf(turn.(tags := turn.tags + [tag])) == LinesOf(turn) + Added(turn, tag)
  {
    var rest := RestOf(turn);
    SameHead(turn, tag);
    LinesAre(turn);
    LinesAre(turn.(tags := turn.tags + [tag]));
    hide *;
    KeptSnoc(rest, tag);
    WritesAppend(Kept(rest), if BeforeKey(rest + [tag], tag) then [] else [tag]);
    WrittenTag(rest, tag);
    AddedIs(turn, tag);
    Joined(HeadOf(turn), AsWrites(Kept(rest)), Added(turn, tag));
  }

  lemma AddedIs(turn: Turn, tag: Tag)
    requires HasAnchor(turn.tags)
    ensures Added(turn, tag) == if BeforeKey(RestOf(turn) + [tag], tag) then [] else [Out(tag)]
  {
    hide BeforeKey, HasAnchor;
  }

  /** What comes after a turn's anchor. */
  function RestOf(turn: Turn): seq<Tag>
    requires HasAnchor(turn.tags)
  {
    turn.tags[AnchorAt(turn.tags) + 1..]
  }

  lemma LinesAre(turn: Turn)
    requires HasAnchor(turn.tags)
    ensures LinesOf(turn) == HeadOf(turn) + AsWrites(Kept(RestOf(turn)))
  {
    hide AnchorAt, Kept, HeaderBlock, HeadersAfter, AsWrites;
  }

  lemma SameHead(turn: Turn, tag: Tag)
    requires HasAnchor(turn.tags)
    ensures var turn' := turn.(tags := turn.tags + [tag]);
            HasAnchor(turn'.tags) && HeadOf(turn') == HeadOf(turn) && RestOf(turn') == RestOf(turn) + [tag]
  {
    AnchorSnoc(turn.tags, tag);
    hide AnchorAt, HeaderBlock, HeadersAfter, AsWrites;
    var a, tags' := AnchorAt(turn.tags), turn.tags + [tag];
    assert tags'[a + 1..] == turn.tags[a + 1..] + [tag] && tags'[..a] == turn.tags[..a] && tags'[a] == turn.tags[a];
  }

  /** A turn's lines up to its anchor. */
  function HeadOf(turn: Turn): seq<Write>
    requires HasAnchor(turn.tags)
  {
    var a := AnchorAt(turn.tags);
    [FileHeader] + AsWrites(HeaderBlock(HeadersAfter(turn.seed, turn.before + turn.tags[..a]), turn.tags[a].ts)) + [Out(turn.tags[a])]
  }

  lemma Joined<T>(a: seq<T>, b: seq<T>, c: seq<T>)
    ensures a + (b + c) == (a + b) + c
  {
  }

  lemma WrittenTag(rest: seq<Tag>, tag: Tag)
    ensures AsWrites(if BeforeKey(rest + [tag], tag) then [] else [tag]) == if BeforeKey(rest + [tag], tag) then [] else [Out(tag)]
  {
    hide BeforeKey;
  }

  lemma LinesBegin(turn: Turn, tag: Tag)
    requires !HasAnchor(turn.tags)
    ensures LinesOf(turn) == [] && LinesOf(turn.(tags := turn.tags + [tag])) == Added(turn, tag)
  {
    AnchorSnoc(turn.tags, tag);
    hide AnchorAt, HeaderBlock, HeadersAfter, IsAnchor;
    var tags' := turn.tags + [tag];
    if IsAnchor(tag) {
      assert tags'[|turn.tags| + 1..] == [] && tags'[..|turn.tags|] == turn.tags && tags'[|turn.tags|] == tag;
      assert AsWrites(Kept([])) == [];
    }
  }

  lemma LinesSnocTag(turn: Turn, tag: Tag)
    ensures LinesOf(turn.(tags := turn.tags + [tag])) == LinesOf(turn) + Added(turn, tag)
  {
    hide LinesOf, Added;
    if HasAnchor(turn.tags) {
      LinesGrow(turn, tag);
    } else {
      LinesBegin(turn, tag);
    }
  }

  /** A tag forwarded to a connection: what is written is what the turn says, and the writer goes on as told. */
  lemma ForwardTells(w: Writer, turn: Turn, tag: Tag)
    requires WriterTold(w, turn) && w.out.Some?
    ensures Forwarded(w, tag) == Added(turn, tag)
    ensures WriterTold(ForwardWriter(w, tag), turn.(tags := turn.tags + [tag]))
  {
    if w.started {
      StartedTells(w, turn, tag);
    } else {
      WaitingTells(w, turn, tag);
    }
  }

  lemma StartedWrites(w: Writer, turn: Turn, tag: Tag)
    requires WriterTold(w, turn) && w.started
    ensures Forwarded(w, tag) == Added(turn, tag)
  {
    var rest := RestOf(turn);
    AddedIs(turn, tag);
    RungTest(tag);
    KeyCameSnoc(rest, tag, TrackIdOf(tag));
    hide AnchorAt, HasAnchor, HeaderBlock, HeadersAfter, KeyCame, IsHeader, IsMedia, KeyOf, VideoTrackId, IsVideoKeyframe, IsAnchor, Added,
      IsRungKey;
  }

  lemma StartedHeaders(w: Writer, turn: Turn, tag: Tag)
    requires WriterTold(w, turn) && w.started
    ensures ForwardWriter(w, tag).headers == HeadersAfter(turn.seed, turn.before + (turn.tags + [tag]))
  {
    hide AnchorAt, HasAnchor, HeadersAfter, KeyCame, IsHeader, KeyOf, VideoTrackId, IsVideoKeyframe;
    assert turn.before + (turn.tags + [tag]) == (turn.before + turn.tags) + [tag];
    HeadersSnoc(turn.seed, turn.before + turn.tags, tag);
  }

  lemma StartedTracks(w: Writer, turn: Turn, tag: Tag)
    requires WriterTold(w, turn) && w.started
    ensures forall id: byte :: id in ForwardWriter(w, tag).tracks <==> id == 0 || KeyCame(RestOf(turn) + [tag], id)
  {
    RungTest(tag);
    hide AnchorAt, HasAnchor, HeadersAfter, KeyCame, IsHeader, IsMedia, KeyOf, VideoTrackId, IsVideoKeyframe, IsAnchor, IsRungKey;
    forall id: byte ensures KeyCame(RestOf(turn) + [tag], id) <==> KeyCame(RestOf(turn), id) || IsRungKey(tag, id) {
      KeyCameSnoc(RestOf(turn), tag, id);
    }
  }

  lemma StartedTells(w: Writer, turn: Turn, tag: Tag)
    requires WriterTold(w, turn) && w.started
    ensures Forwarded(w, tag) == Added(turn, tag)
    ensures WriterTold(ForwardWriter(w, tag), turn.(tags := turn.tags + [tag]))
  {
    StartedWrites(w, turn, tag);
    StartedHeaders(w, turn, tag);
    StartedTracks(w, turn, tag);
    SameHead(turn, tag);
    ForwardKeepsOut(w, tag);
    StaysStarted(w, tag);
    hide HasAnchor, HeadersAfter, KeyCame, Forwarded, ForwardWriter, Added, HeadOf;
  }

  lemma StaysStarted(w: Writer, tag: Tag)
    requires w.started
    ensures ForwardWriter(w, tag).started
  {
    hide IsHeader, KeyOf, IsKeyframeTag, TrackIdOf;
  }

  lemma RungTest(tag: Tag)
    ensures IsHeader(tag) <==> !IsMedia(tag)
    ensures forall id: byte :: IsRungKey(tag, id) <==> !IsHeader(tag) && IsKeyframeTag(tag) && TrackIdOf(tag) == id
    ensures IsAnchor(tag) <==> !IsHeader(tag) && IsKeyframeTag(tag) && TrackIdOf(tag) == 0
  {
    hide IsMultitrackVideo;
  }

  lemma WaitingTells(w: Writer, turn: Turn, tag: Tag)
    requires WriterTold(w, turn) && !w.started && w.out.Some?
    ensures Forwarded(w, tag) == Added(turn, tag)
    ensures WriterTold(ForwardWriter(w, tag), turn.(tags := turn.tags + [tag]))
  {
    AnchorSnoc(turn.tags, tag);
    RungTest(tag);
    hide AnchorAt, HeaderBlock, HeadersAfter, KeyCame, IsHeader, IsMedia, KeyOf, VideoTrackId, IsVideoKeyframe, IsAnchor;
    assert turn.before + (turn.tags + [tag]) == (turn.before + turn.tags) + [tag];
    HeadersSnoc(turn.seed, turn.before + turn.tags, tag);
    if IsAnchor(tag) {
      assert (turn.tags + [tag])[|turn.tags| + 1..] == [];
      forall id: byte ensures !KeyCame([], id) {
        NoKeyYet(id);
      }
    }
  }

  lemma NoKeyYet(id: byte)
    ensures !KeyCame([], id)
  {
  }

  // ----- whole runs -----

  ghost predicate TurnsTold(y: Sys)
  {
    && y.turns != []
    && (forall c: Conn :: WritesTo(y.written, c) == WrittenIn(y.turns, c))
    && WriterTold(y.s.w, y.turns[|y.turns| - 1])
    && TakenOf(y.gone) == AllForwarded(y.turns) + InHand(y.s.w)
  }

  lemma WrittenSnoc(turns: seq<Turn>, turn: Turn, c: Conn)
    ensures WrittenIn(turns + [turn], c) == WrittenIn(turns, c) + if turn.conn == Some(c) then LinesOf(turn) else []
    ensures AllForwarded(turns + [turn]) == AllForwarded(turns) + turn.tags
  {
    hide LinesOf;
    assert (turns + [turn])[..|turns|] == turns;
  }

  lemma WrittenMore(turns: seq<Turn>, tag: Tag, c: Conn)
    requires turns != []
    ensures var last := turns[|turns| - 1];
            && WrittenIn(MoreTurn(turns, tag), c) == WrittenIn(turns, c) + (if last.conn == Some(c) then Added(last, tag) else [])
            && AllForwarded(MoreTurn(turns, tag)) == AllForwarded(turns) + [tag]
  {
    var init, last := turns[..|turns| - 1], turns[|turns| - 1];
    var last' := last.(tags := last.tags + [tag]);
    hide WrittenIn, AllForwarded, LinesOf, Added;
    assert turns == init + [last] && MoreTurn(turns, tag) == init + [last'];
    WrittenSnoc(init, last, c);
    WrittenSnoc(init, last', c);
    LinesSnocTag(last, tag);
    hide *;
    Joined(AllForwarded(init), last.tags, [tag]);
    if last.conn == Some(c) {
      Joined(WrittenIn(init, c), LinesOf(last), Added(last, tag));
    } else {
      NothingMore(WrittenIn(init, c));
      NothingMore(WrittenIn(turns, c));
    }
  }

  lemma NothingMore<T>(a: seq<T>)
    ensures a + [] == a
  {
  }

  lemma WrittenNext(s: State, turns: seq<Turn>, c: Conn)
    requires turns != []
    ensures WrittenIn(NextTurn(s, turns), c) == WrittenIn(turns, c) && AllForwarded(NextTurn(s, turns)) == AllForwarded(turns)
  {
    hide WrittenIn, AllForwarded;
    var turn := NextTurn(s, turns)[|turns|];
    WrittenSnoc(turns, turn, c);
    NoLines(turn);
    assert WrittenIn(turns, c) + [] == WrittenIn(turns, c) && AllForwarded(turns) + [] == AllForwarded(turns);
  }

  lemma NoLines(turn: Turn)
    requires turn.tags == []
    ensures LinesOf(turn) == []
  {
  }

  lemma HandUnseen(w: Writer, turn: Turn, hand: Option<Tag>, stopped: bool)
    ensures WriterTold(w.(hand := hand, stopped := stopped), turn) <==> WriterTold(w, turn)
  {
    hide HasAnchor, HeadersAfter, KeyCame;
  }

  lemma TakenSnoc(gone: seq<(Tag, Fate)>, tag: Tag, fate: Fate)
    ensures TakenOf(gone + [(tag, fate)]) == TakenOf(gone) + if fate == Taken then [tag] else []
  {
    assert (gone + [(tag, fate)])[..|gone|] == gone;
  }

  lemma {:induction false} TakenMarked(gone: seq<(Tag, Fate)>, tags: seq<Tag>, mark: Fate)
    requires mark != Taken
    ensures TakenOf(gone + Mark(tags, mark)) == TakenOf(gone)
    decreases |tags|
  {
    if tags == [] {
      assert gone + Mark(tags, mark) == gone;
    } else {
      var init, last := tags[..|tags| - 1], tags[|tags| - 1];
      TakenMarked(gone, init, mark);
      TakenSnoc(gone + Mark(init, mark), last, mark);
      assert gone + Mark(tags, mark) == (gone + Mark(init, mark)) + [(last, mark)];
    }
  }

  lemma SyncTells(s: State, turns: seq<Turn>)
    requires turns != [] && WriterTold(s.w, turns[|turns| - 1])
    ensures var next := if s.gen != s.w.gen || s.overflow then NextTurn(s, turns) else turns;
            WriterTold(SyncWriter(s), next[|next| - 1])
  {
    NoTagsNoAnchor();
    hide AnchorAt, KeyCame;
    var last := turns[|turns| - 1];
    assert (last.before + last.tags) + [] == last.before + last.tags;
    assert HeadersAfter(s.seed, [] + []) == s.seed;
  }

  lemma TakeTells(y: Sys)
    requires TurnsTold(y)
    ensures TurnsTold(SysStep(y, Take))
  {
    hide WriterTold, WrittenIn, AllForwarded, SyncWriter, TakenOf, NextTurn;
    var (y', s) := (SysStep(y, Take), y.s);
    SyncTells(s, y.turns);
    SyncKeepsHand(s);
    NextNotEmpty(s, y.turns);
    forall c: Conn ensures WrittenIn(y'.turns, c) == WrittenIn(y.turns, c) && AllForwarded(y'.turns) == AllForwarded(y.turns) {
      WrittenNext(s, y.turns, c);
    }
    assert AllForwarded(y'.turns) == AllForwarded(y.turns) by { WrittenNext(s, y.turns, 0); }
    if s.w.hand.None? && !s.w.stopped {
      if s.closed {
        HandUnseen(s.w, y.turns[|y.turns| - 1], s.w.hand, true);
      } else if s.queue != [] {
        TakenSnoc(y.gone, s.queue[0], Taken);
        HandUnseen(SyncWriter(s), y'.turns[|y'.turns| - 1], Some(s.queue[0]), SyncWriter(s).stopped);
        assert AllForwarded(y.turns) + [] == AllForwarded(y.turns);
      }
    }
  }

  lemma NextNotEmpty(s: State, turns: seq<Turn>)
    requires turns != []
    ensures NextTurn(s, turns) != []
  {
  }

  /** One more tag forwarded, to a connection or to none. */
  lemma MoreTells(y: Sys, y': Sys, tag: Tag, lines: seq<Write>)
    requires TurnsTold(y) && y.s.w.hand == Some(tag) && y'.s.w.hand.None? && y'.gone == y.gone
    requires y'.turns == MoreTurn(y.turns, tag) && WriterTold(y'.s.w, y'.turns[|y'.turns| - 1])
    requires lines == if y.s.w.out.Some? then Added(y.turns[|y.turns| - 1], tag) else []
    requires forall c: Conn :: WritesTo(y'.written, c) == WritesTo(y.written, c) + if y.s.w.out == Some(c) then lines else []
    ensures TurnsTold(y')
  {
    hide WrittenIn, AllForwarded, WriterTold, TakenOf, Added, WritesTo;
    var last := y.turns[|y.turns| - 1];
    assert last.conn == y.s.w.out by { ToldConn(y.s.w, last); }
    forall c: Conn ensures WritesTo(y'.written, c) == WrittenIn(y'.turns, c) {
      WrittenMore(y.turns, tag, c);
    }
    WrittenMore(y.turns, tag, 0);
    NothingMore(AllForwarded(y'.turns));
  }

  lemma ToldConn(w: Writer, turn: Turn)
    requires WriterTold(w, turn)
    ensures turn.conn == w.out
  {
  }

  lemma ForwardTellsTurns(y: Sys)
    requires TurnsTold(y)
    ensures TurnsTold(SysStep(y, Forward))
  {
    hide WrittenIn, AllForwarded, Forwarded, ForwardWriter, TakenOf, GrowRuns, Added, HeadersAfter, HasAnchor, KeyCame, WriterTold;
    var (y', w, last) := (SysStep(y, Forward), y.s.w, y.turns[|y.turns| - 1]);
    if w.hand.Some? {
      var tag := w.hand.value;
      var last' := last.(tags := last.tags + [tag]);
      assert MoreTurn(y.turns, tag)[|y.turns| - 1] == last';
      if w.out.Some? {
        ForwardTells(w, last, tag);
        ForwardKeepsOut(w, tag);
        HandUnseen(ForwardWriter(w, tag), last', None, ForwardWriter(w, tag).stopped);
        MoreTells(y, y', tag, Forwarded(w, tag));
      } else {
        IdleTells(w, last, tag);
        HandUnseen(w, last', None, w.stopped);
        MoreTells(y, y', tag, []);
      }
    }
  }

  /** Nothing is written while there is no connection. */
  lemma IdleTells(w: Writer, turn: Turn, tag: Tag)
    requires WriterTold(w, turn) && w.out.None?
    ensures WriterTold(w, turn.(tags := turn.tags + [tag]))
  {
    hide HasAnchor, HeadersAfter, KeyCame;
  }

  lemma StepTells(y: Sys, step: Step)
    requires TurnsTold(y)
    ensures TurnsTold(SysStep(y, step))
  {
    hide WriterTold, WrittenIn, AllForwarded, TakeStep, ForwardStep, Forwarded, TakenOf;
    match step
    case Offer(tag) => TakenMarked(y.gone, y.s.queue, Overflowed);
    case Attach(conn, seed) => TakenMarked(y.gone, y.s.queue, Cleared);
    case Detach => TakenMarked(y.gone, y.s.queue, Cleared);
    case Close =>
    case Take => TakeTells(y);
    case Forward => ForwardTellsTurns(y);
  }

  lemma {:induction false} RunTells(y: Sys, steps: seq<Step>)
    requires TurnsTold(y)
    ensures TurnsTold(SysRun(y, steps))
    decreases |steps|
  {
    hide TurnsTold, SysStep;
    if steps != [] {
      StepTells(y, steps[0]);
      RunTells(SysStep(y, steps[0]), steps[1..]);
    }
  }

  lemma StartTold(isPrimary: bool)
    ensures TurnsTold(Start(isPrimary))
  {
    NoTagsNoAnchor();
    forall c: Conn ensures WrittenIn([Turn(None, map[], [], [])], c) == [] {
      assert [Turn(None, map[], [], [])][..0] == [];
    }
    assert AllForwarded([Turn(None, map[], [], [])][..0]) == [];
    hide KeyCame, AnchorAt;
  }

  /** Whatever the interleaving: a connection is written exactly what its turns say, each from its own first anchor on;
      and what is forwarded in all the turns, in order, is what the writer took from the queue, but for a tag it still
      holds. */
  lemma ConnectionsGetTurns(isPrimary: bool, steps: seq<Step>)
    ensures var y := SysRun(Start(isPrimary), steps);
            && (forall c: Conn :: WritesTo(y.written, c) == WrittenIn(y.turns, c))
            && TakenOf(y.gone) == AllForwarded(y.turns) + InHand(y.s.w)
  {
    StartTold(isPrimary);
    RunTells(Start(isPrimary), steps);
    hide SysRun, WrittenIn, AllForwarded, TakenOf, WriterTold;
  }

  /** The headers a turn announces are the latest of what its connection was attached with and has been forwarded. */
  lemma {:induction false} HeadersAreLatest(seed: map<Key, bytes>, tags: seq<Tag>)
    ensures Caches(HeadersAfter(seed, tags), seed, tags)
    decreases |tags|
  {
    hide Caches, IsHeader, KeyOf;
    if tags == [] {
      CachesSeed(seed);
    } else {
      var init, last := tags[..|tags| - 1], tags[|tags| - 1];
      HeadersAreLatest(seed, init);
      CachesSnoc(HeadersAfter(seed, init), seed, init, last);
      assert tags == init + [last];
    }
  }
}
