// Runs of a sink: offers, attachments and the writer's turns in any interleaving. The writer forwards outside
// the lock, so anything may happen between taking a tag and forwarding it.
module SinkRuns {
  import opened Bytes
  import opened Flv
  import opened Sink

  /** What became of a tag that has left the queue. */
  datatype Fate = Taken | Overflowed | Cleared

  /** What one connection gets from a start or a resynchronisation on. With it, the headers the connection was
      attached with and all that was forwarded to it before. */
  datatype Run = Run(headers: map<Key, bytes>, anchor: Tag, body: seq<Tag>, seed: map<Key, bytes>, heard: seq<Tag>)

  datatype Step = Offer(tag: Tag) | Attach(conn: Conn, seed: map<Key, bytes>) | Detach | Close | Take | Forward

  /** What the writer forwarded, to a connection or to none, between two moments at which it noticed an attachment, a
      detachment or an overflow; with it, the headers the connection was attached with and what was forwarded to it
      before. */
  datatype Turn = Turn(conn: Option<Conn>, seed: map<Key, bytes>, before: seq<Tag>, tags: seq<Tag>)

  /** With the state: the tags accepted, those gone from the queue and how, what each connection was written, the
      same in runs, what the writer's connection was attached with and has been forwarded, and the writer's turns. */
  datatype Sys = Sys(s: State, accepted: seq<Tag>, gone: seq<(Tag, Fate)>, written: map<Conn, seq<Write>>,
                     runs: map<Conn, seq<Run>>, seed: map<Key, bytes>, heard: seq<Tag>, turns: seq<Turn>)

  function Start(isPrimary: bool): Sys
  {
    Sys(Fresh(isPrimary), [], [], map[], map[], map[], [], [Turn(None, map[], [], [])])
  }

  function Mark(tags: seq<Tag>, fate: Fate): seq<(Tag, Fate)>
  {
    seq(|tags|, i requires 0 <= i < |tags| => (tags[i], fate))
  }

  function RunsOf(runs: map<Conn, seq<Run>>, c: Conn): seq<Run>
  {
    if c in runs then runs[c] else []
  }

  /** The runs of a connection after one more tag was forwarded to it. */
  function GrowRuns(w: Writer, tag: Tag, runs: seq<Run>, seed: map<Key, bytes>, heard: seq<Tag>): seq<Run>
  {
    if Forwarded(w, tag) == [] then runs
    else if !w.started then runs + [Run(w.headers, tag, [], seed, heard)]
    else if runs == [] then runs
    else runs[..|runs| - 1] + [runs[|runs| - 1].(body := runs[|runs| - 1].body + [tag])]
  }

  /** The writer is at its turn under the lock, and something has changed since the last time. */
  predicate Notices(s: State)
  {
    s.w.hand.None? && !s.w.stopped && !s.closed && (s.gen != s.w.gen || s.overflow)
  }

  /** A new attachment starts over; an overflow goes on with the same connection. */
  function NextTurn(s: State, turns: seq<Turn>): seq<Turn>
  {
    if turns == [] then turns
    else
      var last := turns[|turns| - 1];
      turns + [if s.gen != s.w.gen then Turn(s.out, s.seed, [], []) else last.(before := last.before + last.tags, tags := [])]
  }

  function MoreTurn(turns: seq<Turn>, tag: Tag): seq<Turn>
  {
    if turns == [] then turns
    else turns[..|turns| - 1] + [turns[|turns| - 1].(tags := turns[|turns| - 1].tags + [tag])]
  }

  function SysStep(y: Sys, step: Step): Sys
  {
    match step
    case Offer(tag) =>
      if y.s.out.None? then y
      else
        y.(s := OfferStep(y.s, tag), accepted := y.accepted + [tag],
           gone := if |y.s.queue| >= MaxLen(y.s) then y.gone + Mark(y.s.queue, Overflowed) else y.gone)
    case Attach(conn, seed) => y.(s := AttachStep(y.s, conn, seed), gone := y.gone + Mark(y.s.queue, Cleared))
    case Detach => y.(s := DetachStep(y.s), gone := y.gone + Mark(y.s.queue, Cleared))
    case Close => y.(s := y.s.(closed := true))
    case Take =>
      var s' := TakeStep(y.s);
      var attached := s'.w.gen != y.s.w.gen;
      y.(s := s', seed := if attached then y.s.seed else y.seed, heard := if attached then [] else y.heard,
         turns := if Notices(y.s) then NextTurn(y.s, y.turns) else y.turns,
         gone := if |s'.queue| < |y.s.queue| then y.gone + [(y.s.queue[0], Taken)] else y.gone)
    case Forward =>
      var w := y.s.w;
      if w.hand.None? then y.(s := ForwardStep(y.s))
      else if w.out.None? then y.(s := ForwardStep(y.s), turns := MoreTurn(y.turns, w.hand.value))
      else
        var (c, tag) := (w.out.value, w.hand.value);
        y.(s := ForwardStep(y.s),
           written := y.written[c := WritesTo(y.written, c) + Forwarded(w, tag)],
           runs := y.runs[c := GrowRuns(w, tag, RunsOf(y.runs, c), y.seed, y.heard)],
           heard := y.heard + [tag], turns := MoreTurn(y.turns, tag))
  }

  function SysRun(y: Sys, steps: seq<Step>): Sys
    decreases |steps|
  {
    if steps == [] then y else SysRun(SysStep(y, steps[0]), steps[1..])
  }

  // ----- conservation -----

  function Tags(gone: seq<(Tag, Fate)>): seq<Tag>
  {
    seq(|gone|, i requires 0 <= i < |gone| => gone[i].0)
  }

  function Count(gone: seq<(Tag, Fate)>, fate: Fate): nat
  {
    if gone == [] then 0
    else Count(gone[..|gone| - 1], fate) + if gone[|gone| - 1].1 == fate then 1 else 0
  }

  lemma CountSnoc(gone: seq<(Tag, Fate)>, x: (Tag, Fate), fate: Fate)
    ensures Count(gone + [x], fate) == Count(gone, fate) + if x.1 == fate then 1 else 0
  {
    assert (gone + [x])[..|gone|] == gone;
  }

  lemma {:induction false} CountMarked(gone: seq<(Tag, Fate)>, tags: seq<Tag>, mark: Fate, fate: Fate)
    ensures Count(gone + Mark(tags, mark), fate) == Count(gone, fate) + if mark == fate then |tags| else 0
    decreases |tags|
  {
    if tags == [] {
      assert gone + Mark(tags, mark) == gone;
    } else {
      var init, last := tags[..|tags| - 1], tags[|tags| - 1];
      CountMarked(gone, init, mark, fate);
      CountSnoc(gone + Mark(init, mark), (last, mark), fate);
      assert gone + Mark(tags, mark) == (gone + Mark(init, mark)) + [(last, mark)];
    }
  }

  ghost predicate Accounted(y: Sys)
  {
    && |y.s.queue| <= MaxLen(y.s)
    && y.accepted == Tags(y.gone) + y.s.queue
    && Count(y.gone, Overflowed) == y.s.dropped
  }

  lemma TagsMarked(gone: seq<(Tag, Fate)>, tags: seq<Tag>, mark: Fate)
    ensures Tags(gone + Mark(tags, mark)) == Tags(gone) + tags
  {
  }

  lemma OfferAccounts(y: Sys, tag: Tag)
    requires Accounted(y)
    ensures Accounted(SysStep(y, Offer(tag)))
  {
    hide Tags, Count, Mark;
    var q := y.s.queue;
    TagsMarked(y.gone, q, Overflowed);
    CountMarked(y.gone, q, Overflowed, Overflowed);
    assert (Tags(y.gone) + q) + [tag] == Tags(y.gone) + (q + [tag]);
  }

  lemma ClearAccounts(y: Sys, y': Sys)
    requires Accounted(y) && y'.s.queue == [] && y'.gone == y.gone + Mark(y.s.queue, Cleared) && y'.accepted == y.accepted
    requires y'.s.dropped == y.s.dropped && y'.s.isPrimary == y.s.isPrimary
    ensures Accounted(y')
  {
    hide Tags, Count, Mark;
    TagsMarked(y.gone, y.s.queue, Cleared);
    CountMarked(y.gone, y.s.queue, Cleared, Overflowed);
    assert (Tags(y.gone) + y.s.queue) + [] == Tags(y.gone) + y.s.queue;
  }

  lemma StepAccounts(y: Sys, step: Step)
    requires Accounted(y)
    ensures Accounted(SysStep(y, step))
  {
    hide Forwarded, ForwardWriter, Tags, Count, Mark, GrowRuns, MoreTurn, NextTurn, Notices, TakeStep, OfferStep;
    match step
    case Offer(tag) => OfferAccounts(y, tag);
    case Attach(conn, seed) => ClearAccounts(y, SysStep(y, step));
    case Detach => ClearAccounts(y, SysStep(y, step));
    case Close =>
    case Take => TakeAccounts(y);
    case Forward =>
  }

  lemma TakeAccounts(y: Sys)
    requires Accounted(y)
    ensures Accounted(SysStep(y, Take))
  {
    hide SyncWriter, Tags, Count;
    var q := y.s.queue;
    if q != [] {
      TagsMarked(y.gone, [q[0]], Taken);
      assert Mark([q[0]], Taken) == [(q[0], Taken)];
      CountSnoc(y.gone, (q[0], Taken), Overflowed);
      assert (Tags(y.gone) + [q[0]]) + q[1..] == Tags(y.gone) + q;
    }
  }

  lemma {:induction false} RunAccounts(y: Sys, steps: seq<Step>)
    requires Accounted(y)
    ensures Accounted(SysRun(y, steps))
    decreases |steps|
  {
    hide Accounted, SysStep;
    if steps != [] {
      StepAccounts(y, steps[0]);
      RunAccounts(SysStep(y, steps[0]), steps[1..]);
    }
  }

  lemma {:induction false} FatesAreAll(gone: seq<(Tag, Fate)>)
    ensures Count(gone, Taken) + Count(gone, Overflowed) + Count(gone, Cleared) == |gone|
    decreases |gone|
  {
    if gone != [] {
      FatesAreAll(gone[..|gone| - 1]);
    }
  }

  /** The queue stays within its limit, and every accepted tag has one fate: taken by the writer, counted as
      dropped, cleared by an attachment or detachment, or still queued; all in the order accepted. */
  lemma EveryTagAccounted(isPrimary: bool, steps: seq<Step>)
    ensures var y := SysRun(Start(isPrimary), steps);
            && |y.s.queue| <= MaxLen(y.s)
            && y.accepted == Tags(y.gone) + y.s.queue
            && |y.accepted| == Count(y.gone, Taken) + y.s.dropped + Count(y.gone, Cleared) + |y.s.queue|
  {
    hide SysStep;
    RunAccounts(Start(isPrimary), steps);
    FatesAreAll(SysRun(Start(isPrimary), steps).gone);
  }

  // ----- what a connection receives -----

  function LinesOf(run: Run): seq<Write>
  {
    [FileHeader] + AsWrites(HeaderBlock(run.headers, run.anchor.ts)) + [Out(run.anchor)] + AsWrites(run.body)
  }

  function Flatten(runs: seq<Run>): seq<Write>
  {
    if runs == [] then [] else Flatten(runs[..|runs| - 1]) + LinesOf(runs[|runs| - 1])
  }

  predicate IsPicture(tag: Tag)
  {
    tag.tagType == TAG_VIDEO && IsMedia(tag)
  }

  /** The video tracks that have pictures among the tags. */
  ghost predicate HasTrack(tags: seq<Tag>, track: byte)
  {
    exists i :: 0 <= i < |tags| && IsPicture(tags[i]) && TrackIdOf(tags[i]) == track
  }

  /** On every track but the anchor's, the first picture is a keyframe. */
  ghost predicate FirstsAreKeys(body: seq<Tag>)
  {
    forall i :: 0 <= i < |body| && IsPicture(body[i]) && TrackIdOf(body[i]) != 0 && !HasTrack(body[..i], TrackIdOf(body[i])) ==>
      IsKeyframeTag(body[i])
  }

  ghost predicate RunOk(run: Run)
  {
    && IsAnchor(run.anchor)
    && Caches(run.headers, run.seed, run.heard)
    && CanonicalOrder(OrderedHeaderKeys(run.headers.Keys), run.headers.Keys)
    && FirstsAreKeys(run.body)
  }

  /** The writer's own idea of its current run. */
  ghost predicate RunCurrent(w: Writer, runs: seq<Run>)
  {
    && runs != []
    && forall track :: track in w.tracks <==> track == 0 || HasTrack(runs[|runs| - 1].body, track)
  }

  ghost predicate Delivered(written: map<Conn, seq<Write>>, runs: map<Conn, seq<Run>>, c: Conn)
  {
    && WritesTo(written, c) == Flatten(RunsOf(runs, c))
    && forall r :: r in RunsOf(runs, c) ==> RunOk(r)
  }

  ghost predicate ConnInv(y: Sys)
  {
    && (forall c: Conn :: Delivered(y.written, y.runs, c))
    && (y.s.w.started ==> y.s.w.out.Some? && RunCurrent(y.s.w, RunsOf(y.runs, y.s.w.out.value)))
    && (!y.s.w.started ==> y.s.w.tracks == {})
    && Caches(y.s.w.headers, y.seed, y.heard)
  }

  lemma AsWritesSnoc(tags: seq<Tag>, tag: Tag)
    ensures AsWrites(tags + [tag]) == AsWrites(tags) + [Out(tag)]
  {
  }

  lemma FlattenSnoc(runs: seq<Run>, run: Run)
    ensures Flatten(runs + [run]) == Flatten(runs) + LinesOf(run)
  {
    hide LinesOf;
    assert (runs + [run])[..|runs|] == runs;
  }

  lemma LinesSnoc(run: Run, tag: Tag)
    ensures LinesOf(run.(body := run.body + [tag])) == LinesOf(run) + [Out(tag)]
  {
    AsWritesSnoc(run.body, tag);
    hide HeaderBlock, AsWrites;
  }

  lemma LastGrows(init: seq<Run>, last: Run, tag: Tag)
    ensures Flatten(init + [last.(body := last.body + [tag])]) == Flatten(init + [last]) + [Out(tag)]
  {
    hide *;
    LinesSnoc(last, tag);
    FlattenSnoc(init, last.(body := last.body + [tag]));
    FlattenSnoc(init, last);
  }

  lemma BodyGrows(runs: seq<Run>, tag: Tag)
    requires runs != []
    ensures var last := runs[|runs| - 1];
            Flatten(runs[..|runs| - 1] + [last.(body := last.body + [tag])]) == Flatten(runs) + [Out(tag)]
  {
    hide *;
    assert runs == runs[..|runs| - 1] + [runs[|runs| - 1]];
    LastGrows(runs[..|runs| - 1], runs[|runs| - 1], tag);
  }

  lemma HasTrackSnoc(tags: seq<Tag>, tag: Tag, track: byte)
    ensures HasTrack(tags + [tag], track) <==> HasTrack(tags, track) || (IsPicture(tag) && TrackIdOf(tag) == track)
  {
    hide IsPicture, TrackIdOf;
    var all := tags + [tag];
    if HasTrack(tags, track) {
      var i :| 0 <= i < |tags| && IsPicture(tags[i]) && TrackIdOf(tags[i]) == track;
      assert all[i] == tags[i];
    }
    assert all[|tags|] == tag;
  }

  lemma FirstsSnoc(body: seq<Tag>, tag: Tag)
    requires FirstsAreKeys(body)
    requires IsPicture(tag) && TrackIdOf(tag) != 0 && !HasTrack(body, TrackIdOf(tag)) ==> IsKeyframeTag(tag)
    ensures FirstsAreKeys(body + [tag])
  {
    hide IsPicture, TrackIdOf, HasTrack, IsKeyframeTag;
    var all := body + [tag];
    forall i | 0 <= i < |all| && IsPicture(all[i]) && TrackIdOf(all[i]) != 0 && !HasTrack(all[..i], TrackIdOf(all[i]))
      ensures IsKeyframeTag(all[i])
    {
      assert all[..i] == if i == |body| then body else body[..i];
    }
  }

  /** A tag written to a started connection. */
  lemma StartedForward(w: Writer, tag: Tag, runs: seq<Run>, seed: map<Key, bytes>, heard: seq<Tag>)
    requires w.started && RunCurrent(w, runs) && (forall r :: r in runs ==> RunOk(r))
    ensures var runs' := GrowRuns(w, tag, runs, seed, heard);
            && Flatten(runs') == Flatten(runs) + Forwarded(w, tag)
            && (forall r :: r in runs' ==> RunOk(r))
            && ForwardWriter(w, tag).started && RunCurrent(ForwardWriter(w, tag), runs')
  {
    hide HeaderBlock, Flatten, OrderedHeaderKeys, CanonicalOrder, FirstsAreKeys, HasTrack, IsVideoKeyframe, VideoTrackId,
      IsAnchor, KeyOf, IsSeqHeader, Caches;
    var last := runs[|runs| - 1];
    assert last in runs;
    if Forwarded(w, tag) == [] {
      assert Flatten(runs) + [] == Flatten(runs);
    } else {
      BodyGrows(runs, tag);
      FirstsSnoc(last.body, tag);
      forall track: byte ensures HasTrack(last.body + [tag], track) <==>
                           HasTrack(last.body, track) || (IsPicture(tag) && TrackIdOf(tag) == track) {
        HasTrackSnoc(last.body, tag, track);
      }
    }
  }

  lemma AnchorIs(tag: Tag)
    ensures IsAnchor(tag) <==> !IsHeader(tag) && IsKeyframeTag(tag) && TrackIdOf(tag) == 0
  {
  }

  lemma NoTracksYet(track: byte)
    ensures !HasTrack([], track)
    ensures FirstsAreKeys([])
  {
  }

  /** A tag for a connection that waits for its anchor. */
  lemma WaitingForward(w: Writer, tag: Tag, runs: seq<Run>, seed: map<Key, bytes>, heard: seq<Tag>)
    requires Caches(w.headers, seed, heard)
    requires !w.started && w.tracks == {} && (forall r :: r in runs ==> RunOk(r))
    ensures var runs', w' := GrowRuns(w, tag, runs, seed, heard), ForwardWriter(w, tag);
            && Flatten(runs') == Flatten(runs) + Forwarded(w, tag)
            && (forall r :: r in runs' ==> RunOk(r))
            && (if w'.started then RunCurrent(w', runs') else w'.tracks == {})
  {
    hide HeaderBlock, Flatten, OrderedHeaderKeys, CanonicalOrder, FirstsAreKeys, HasTrack, IsVideoKeyframe, VideoTrackId,
      IsAnchor, KeyOf, IsHeader, Caches;
    AnchorIs(tag);
    if Forwarded(w, tag) == [] {
      assert Flatten(runs) + [] == Flatten(runs);
    } else {
      var run := Run(w.headers, tag, [], seed, heard);
      OrderedHeaderKeysCanonical(w.headers.Keys);
      NoTracksYet(0);
      FlattenSnoc(runs, run);
      forall track: byte ensures !HasTrack(run.body, track) {
        NoTracksYet(track);
      }
      assert LinesOf(run) == Forwarded(w, tag);
    }
  }

  lemma ForwardKeepsConns(y: Sys)
    requires ConnInv(y)
    ensures ConnInv(SysStep(y, Forward))
  {
    hide Forwarded, ForwardWriter, GrowRuns, Flatten, RunOk, RunCurrent, Caches;
    var w := y.s.w;
    if w.hand.Some? && w.out.Some? {
      var (c, tag) := (w.out.value, w.hand.value);
      assert Delivered(y.written, y.runs, c);
      ForwardKeepsOut(w, tag);
      CachesSnoc(w.headers, y.seed, y.heard, tag);
      if w.started {
        StartedForward(w, tag, RunsOf(y.runs, c), y.seed, y.heard);
      } else {
        WaitingForward(w, tag, RunsOf(y.runs, c), y.seed, y.heard);
      }
      var y' := SysStep(y, Forward);
      HandUnseen(ForwardWriter(w, tag), RunsOf(y'.runs, c));
      forall d: Conn ensures Delivered(y'.written, y'.runs, d) {
        assert Delivered(y.written, y.runs, d);
      }
    } else if w.out.Some? {
      HandUnseen(w, RunsOf(y.runs, w.out.value));
    }
  }

  lemma ForwardKeepsOut(w: Writer, tag: Tag)
    ensures ForwardWriter(w, tag).out == w.out
    ensures ForwardWriter(w, tag).headers == if IsHeader(tag) then w.headers[KeyOf(tag) := tag.payload] else w.headers
  {
    hide IsHeader, KeyOf, IsKeyframeTag, TrackIdOf;
  }

  lemma HandUnseen(w: Writer, runs: seq<Run>)
    ensures forall hand, stopped :: RunCurrent(w.(hand := hand, stopped := stopped), runs) <==> RunCurrent(w, runs)
  {
    hide HasTrack;
  }

  lemma TakeKeepsConns(y: Sys)
    requires ConnInv(y)
    ensures ConnInv(SysStep(y, Take))
  {
    CachesSeed(y.s.seed);
    hide Flatten, RunOk, RunCurrent, Delivered, Caches;
    if y.s.w.out.Some? {
      HandUnseen(y.s.w, RunsOf(y.runs, y.s.w.out.value));
    }
  }

  lemma StepKeepsConns(y: Sys, step: Step)
    requires ConnInv(y)
    ensures ConnInv(SysStep(y, step))
  {
    hide RunCurrent, Delivered, TakeStep, ForwardStep, Forwarded, Caches;
    match step
    case Offer(tag) =>
    case Attach(conn, seed) =>
    case Detach =>
    case Close =>
    case Take => TakeKeepsConns(y);
    case Forward => ForwardKeepsConns(y);
  }

  lemma {:induction false} RunKeepsConns(y: Sys, steps: seq<Step>)
    requires ConnInv(y)
    ensures ConnInv(SysRun(y, steps))
    decreases |steps|
  {
    hide ConnInv, SysStep;
    if steps != [] {
      StepKeepsConns(y, steps[0]);
      RunKeepsConns(SysStep(y, steps[0]), steps[1..]);
    }
  }

  lemma StartInv(isPrimary: bool)
    ensures ConnInv(Start(isPrimary))
  {
    CachesSeed(map[]);
    hide RunOk, Caches;
  }

  /** Whatever the interleaving, all a connection ever gets is a row of runs: the file header, the latest codec
      headers it was attached with or forwarded, in canonical order at the anchor's time, a track-0 keyframe, then
      tags among which every other rung's first picture is that rung's own keyframe. */
  lemma ConnectionGetsRuns(isPrimary: bool, steps: seq<Step>, c: Conn)
    ensures var y := SysRun(Start(isPrimary), steps);
            && WritesTo(y.written, c) == Flatten(RunsOf(y.runs, c))
            && forall r :: r in RunsOf(y.runs, c) ==> RunOk(r)
  {
    hide SysStep, RunOk, Flatten;
    StartInv(isPrimary);
    RunKeepsConns(Start(isPrimary), steps);
    assert Delivered(SysRun(Start(isPrimary), steps).written, SysRun(Start(isPrimary), steps).runs, c);
  }
}
