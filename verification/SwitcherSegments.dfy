// What the segments of the switcher's output hold: tags their source sent, and on each rung of a ladder the pictures
// from the rung's opening on.
module SwitcherSegments {
  import opened Bytes
  import opened Flv
  import opened Switcher
  import opened SwitcherRuns

  // ----- runs, step by step from their end -----

  lemma {:induction false} SysRunAppend(y: Sys, a: seq<Step>, b: seq<Step>)
    ensures SysRun(y, a + b) == SysRun(SysRun(y, a), b)
    decreases |a|
  {
    hide SysStep;
    if a == [] {
      assert a + b == b;
    } else {
      assert (a + b)[0] == a[0] && (a + b)[1..] == a[1..] + b;
      SysRunAppend(SysStep(y, a[0]), a[1..], b);
    }
  }

  lemma LastStep(y: Sys, steps: seq<Step>)
    requires steps != []
    ensures SysRun(y, steps) == SysStep(SysRun(y, steps[..|steps| - 1]), steps[|steps| - 1])
  {
    hide SysStep;
    var init, last := steps[..|steps| - 1], steps[|steps| - 1];
    assert steps == init + [last];
    SysRunAppend(y, init, [last]);
    assert [last][1..] == [];
    assert SysRun(SysStep(SysRun(y, init), last), []) == SysStep(SysRun(y, init), last);
  }

  // ----- what a segment is made of -----

  /** The source has sent the tag since the reset, or had a reader inside with it then. */
  predicate Known(early: map<nat, Reader>, sent: map<Source, seq<Tag>>, source: Source, tag: Tag)
  {
    tag in SentBy(sent, source) || exists r :: r in early && early[r].source == source && early[r].tag == tag
  }

  ghost predicate TagsKnown(early: map<nat, Reader>, y: Sys)
  {
    && |y.visits| == |y.log|
    && (forall r :: r in y.readers ==> Known(early, y.sent, y.readers[r].source, y.readers[r].tag))
    && (forall i :: 0 <= i < |y.log| ==> Known(early, y.sent, y.log[i].source, y.log[i].anchor))
    && (forall i, t :: 0 <= i < |y.log| && t in y.visits[i].tags ==> Known(early, y.sent, y.log[i].source, t))
    && (forall i, t :: 0 <= i < |y.log| && t in y.log[i].body ==> t in y.visits[i].tags)
  }

  lemma KnownGrows(early: map<nat, Reader>, sent: map<Source, seq<Tag>>, source: Source, tag: Tag)
    ensures var sent' := sent[source := SentBy(sent, source) + [tag]];
            && Known(early, sent', source, tag)
            && forall q, t :: Known(early, sent, q, t) ==> Known(early, sent', q, t)
  {
    var sent' := sent[source := SentBy(sent, source) + [tag]];
    assert tag in SentBy(sent', source);
    forall q, t | Known(early, sent, q, t) ensures Known(early, sent', q, t) {
      assert t in SentBy(sent, q) ==> t in SentBy(sent', q);
    }
  }

  /** How the log and the visits grow, segment by segment. */
  lemma GrowsBy(log: seq<Segment>, visits: seq<Visit>, s: State, source: Source, tag: Tag, heard: seq<Tag>, i: nat)
    requires |visits| == |log| && i < |Grow(log, s, source, tag, heard)|
    ensures var (log', visits') := (Grow(log, s, source, tag, heard), Meet(visits, s, source, tag));
            && |visits'| == |log'| && |log| <= |log'| <= |log| + 1
            && (if i == |log| then
                  log'[i] == Segment(source, EnterStep(s, source).switchOut, HeadersOf(EnterStep(s, source), source), tag, [], heard)
                  && visits'[i] == Visit(EnterStep(s, source).trackOut, []) && IsAnchor(tag) && EnterStep(s, source).waitKeyframe
                else if i < |log| - 1 || EnterStep(s, source).waitKeyframe then log'[i] == log[i] && visits'[i] == visits[i]
                else
                  && log'[i] == log[i].(body := if Dropped(EnterStep(s, source), tag) then log[i].body else log[i].body + [tag])
                  && visits'[i] == visits[i].(tags := visits[i].tags + [tag]))
  {
    hide Dropped, IsAnchor, HeadersOf;
  }

  lemma PlaceKeepsKnown(early: map<nat, Reader>, y: Sys, r: nat)
    requires TagsKnown(early, y) && LogSources(y) && r in y.readers && y.readers[r].Passed?
    ensures TagsKnown(early, SysStep(y, Place(r)))
  {
    hide Known, TimelineStep, Grow, Meet, HeadersOf;
    var (source, tag, heard) := (y.readers[r].source, y.readers[r].tag, SentBy(y.sent, y.readers[r].source));
    var y' := SysStep(y, Place(r));
    SameLength(y.log, y.visits, y.s, source, tag, heard);
    assert Known(early, y.sent, source, tag);
    forall i | 0 <= i < |y'.log|
      ensures Known(early, y.sent, y'.log[i].source, y'.log[i].anchor)
      ensures forall t :: t in y'.visits[i].tags ==> Known(early, y.sent, y'.log[i].source, t)
      ensures forall t :: t in y'.log[i].body ==> t in y'.visits[i].tags
    {
      GrowsBy(y.log, y.visits, y.s, source, tag, heard, i);
      if i == |y.log| - 1 && !EnterStep(y.s, source).waitKeyframe {
        LastIsOpen(y, source);
      }
    }
  }

  lemma SameLength(log: seq<Segment>, visits: seq<Visit>, s: State, source: Source, tag: Tag, heard: seq<Tag>)
    requires |visits| == |log|
    ensures |Meet(visits, s, source, tag)| == |Grow(log, s, source, tag, heard)|
  {
    hide Dropped, IsAnchor, HeadersOf;
  }

  /** The open segment is the output source's own. */
  ghost predicate LogSources(y: Sys)
  {
    y.s.outputSource.Some? && !y.s.waitKeyframe ==>
      y.log != [] && Some(y.log[|y.log| - 1].source) == y.s.outputSource && OffsetOf(y.log[|y.log| - 1]) == y.s.offset
  }

  lemma LastIsOpen(y: Sys, source: Source)
    requires LogSources(y) && y.log != [] && !EnterStep(y.s, source).waitKeyframe
    ensures y.log[|y.log| - 1].source == source && EnterStep(y.s, source) == y.s && OffsetOf(y.log[|y.log| - 1]) == y.s.offset
  {
  }

  lemma InvSources(y: Sys)
    requires SysInv(y)
    ensures LogSources(y) && y.out == Flatten(y.log) && (y.s.waitKeyframe ==> y.s.outputSource.Some?)
  {
    hide Bounded, TracksForward, TracksKnown, LogOk, Flatten, AllBelow, CachesOk;
  }

  lemma StepKeepsKnown(early: map<nat, Reader>, y: Sys, step: Step)
    requires TagsKnown(early, y) && LogSources(y)
    ensures TagsKnown(early, SysStep(y, step))
  {
    hide Known, StoreStep, DecideStep, TimelineStep, Commits, ParamsChanged, Grow, Meet, SentBy;
    match step
    case Read(r, source, tag) => KnownGrows(early, y.sent, source, tag);
    case Decide(r, now) =>
    case Place(r) =>
      if r in y.readers && y.readers[r].Passed? {
        PlaceKeepsKnown(early, y, r);
      }
    case SetActive(to) =>
    case Request(source, callback, notBefore) =>
  }

  lemma {:induction false} RunKeepsKnown(early: map<nat, Reader>, y: Sys, steps: seq<Step>)
    requires TagsKnown(early, y) && SysInv(y)
    ensures TagsKnown(early, SysRun(y, steps))
    decreases |steps|
  {
    hide TagsKnown, SysStep, SysInv, LogSources;
    if steps != [] {
      InvSources(y);
      StepKeepsKnown(early, y, steps[0]);
      SwitcherRuns.StepKeepsInv(y, steps[0]);
      RunKeepsKnown(early, SysStep(y, steps[0]), steps[1..]);
    }
  }

  /** Every segment's anchor and all it goes on with are tags that its own source sent, since the reset or in a call
      that was under way then. */
  lemma SegmentsHoldSentTags(y: Sys, steps: seq<Step>)
    requires JustReset(y)
    ensures var y' := SysRun(y, steps);
            forall i, t :: 0 <= i < |y'.log| && (t == y'.log[i].anchor || t in y'.log[i].body) ==>
              Known(y.readers, y'.sent, y'.log[i].source, t)
  {
    EarlyKnown(y);
    JustResetInv(y);
    RunKeepsKnown(y.readers, y, steps);
    hide SysRun, Known;
  }

  lemma EarlyKnown(y: Sys)
    requires JustReset(y)
    ensures TagsKnown(y.readers, y)
  {
  }

  // ----- what a segment had heard -----

  /** Segment i was opened by step n of the run, and what it heard is all its source had sent by then. */
  ghost predicate OpenedBy(y: Sys, steps: seq<Step>, log: seq<Segment>, i: nat, n: nat)
    requires n < |steps| && i < |log|
  {
    var before := SysRun(y, steps[..n]);
    && |before.log| == i && |SysStep(before, steps[n]).log| == i + 1
    && log[i].heard == SentBy(before.sent, log[i].source)
    && log[i].headers == HeadersOf(before.s, log[i].source)
  }

  ghost predicate OpenedInRun(y: Sys, steps: seq<Step>, log: seq<Segment>, i: nat)
    requires i < |log|
  {
    exists n :: 0 <= n < |steps| && OpenedBy(y, steps, log, i, n)
  }

  lemma StepGrowsLog(y: Sys, step: Step, i: nat)
    requires i < |SysStep(y, step).log|
    ensures var log' := SysStep(y, step).log;
            && |y.log| <= |log'| <= |y.log| + 1
            && (if i < |y.log| then log'[i].heard == y.log[i].heard && log'[i].headers == y.log[i].headers
                                    && log'[i].source == y.log[i].source
                else log'[i].heard == SentBy(y.sent, log'[i].source) && log'[i].headers == HeadersOf(y.s, log'[i].source))
  {
    hide StoreStep, DecideStep, TimelineStep, Commits, ParamsChanged, IsAnchor, Dropped, Meet, SentBy;
  }

  /** Every segment was opened by some step of the run, with the headers stored at that moment, when its source had sent
      exactly what the segment has heard: neither more nor less. */
  lemma {:induction false} SegmentsHeardAllSent(y: Sys, steps: seq<Step>)
    requires JustReset(y)
    ensures var log := SysRun(y, steps).log;
            forall i :: 0 <= i < |log| ==> OpenedInRun(y, steps, log, i)
    decreases |steps|
  {
    hide SysStep;
    if steps != [] {
      var init := steps[..|steps| - 1];
      LastStep(y, steps);
      hide SysRun, OpenedBy;
      SegmentsHeardAllSent(y, init);
      var (before, log) := (SysRun(y, init), SysRun(y, steps).log);
      forall i | 0 <= i < |log| ensures OpenedInRun(y, steps, log, i) {
        StepGrowsLog(before, steps[|steps| - 1], i);
        if i < |before.log| {
          assert OpenedInRun(y, init, before.log, i);
          var n :| 0 <= n < |init| && OpenedBy(y, init, before.log, i, n);
          StillOpenedBy(y, steps, log, i, n);
        } else {
          JustOpened(y, steps, i);
        }
      }
    }
  }

  lemma StillOpenedBy(y: Sys, steps: seq<Step>, log: seq<Segment>, i: nat, n: nat)
    requires steps != [] && n < |steps| - 1
    requires var init := steps[..|steps| - 1];
             var before := SysRun(y, init);
             && i < |log| && i < |before.log| && OpenedBy(y, init, before.log, i, n)
             && log[i].heard == before.log[i].heard && log[i].headers == before.log[i].headers && log[i].source == before.log[i].source
    ensures OpenedBy(y, steps, log, i, n)
  {
    hide SysStep, SysRun;
    assert steps[..|steps| - 1][..n] == steps[..n] && steps[..|steps| - 1][n] == steps[n];
  }

  lemma JustOpened(y: Sys, steps: seq<Step>, i: nat)
    requires steps != []
    requires var before := SysRun(y, steps[..|steps| - 1]);
             var log := SysRun(y, steps).log;
             && SysRun(y, steps) == SysStep(before, steps[|steps| - 1]) && |before.log| <= i < |log| <= |before.log| + 1
             && log[i].heard == SentBy(before.sent, log[i].source) && log[i].headers == HeadersOf(before.s, log[i].source)
    ensures OpenedBy(y, steps, SysRun(y, steps).log, i, |steps| - 1)
  {
    hide SysStep, SysRun;
  }

  // ----- the last time of every track -----

  function Look(times: map<Key, int>, key: Key): Option<int>
  {
    if key in times then Some(times[key]) else None
  }

  ghost predicate TimesTold(out: seq<Tag>, times: map<Key, int>)
  {
    forall key :: LastTime(out, key) == Look(times, key)
  }

  lemma TimeSnoc(out: seq<Tag>, tag: Tag, times: map<Key, int>)
    requires TimesTold(out, times)
    ensures TimesTold(out + [tag], if IsMedia(tag) then times[KeyOf(tag) := tag.ts] else times)
  {
    hide IsMedia, KeyOf;
    assert (out + [tag])[..|out|] == out;
    forall key ensures LastTime(out + [tag], key) == Look(if IsMedia(tag) then times[KeyOf(tag) := tag.ts] else times, key) {
      assert LastTime(out, key) == Look(times, key);
    }
  }

  lemma {:induction false} HeadersTellNoTime(out: seq<Tag>, more: seq<Tag>, times: map<Key, int>)
    requires TimesTold(out, times) && forall t :: t in more ==> !IsMedia(t)
    ensures TimesTold(out + more, times)
    decreases |more|
  {
    hide IsMedia, TimesTold;
    if more == [] {
      assert out + more == out;
    } else {
      var init, last := more[..|more| - 1], more[|more| - 1];
      assert last in more && out + more == (out + init) + [last];
      HeadersTellNoTime(out, init, times);
      TimeSnoc(out + init, last, times);
    }
  }

  lemma PlaceTellsTime(s: State, tag: Tag, out: seq<Tag>)
    requires TimesTold(out, s.trackOut)
    ensures TimesTold(out + Placed(s, tag), PlaceStep(s, tag).trackOut)
  {
    hide KeyOf, IsMedia, TimesTold, TooEarly, Shift;
    KeyShifted(tag, s.offset);
    if Dropped(s, tag) {
      assert out + [] == out;
    } else {
      TimeSnoc(out, Shift(tag, s.offset), s.trackOut);
    }
  }

  lemma BlockIsNoMedia(headers: map<Key, bytes>, ts: int)
    requires HeadersOnly(headers)
    ensures forall t :: t in HeaderBlock(headers, ts) ==> !IsMedia(t)
  {
    HeaderBlockCanonical(headers, ts);
    hide OrderedHeaderKeys, HeaderBlock, KeyOf, CanonicalOrder;
    var block := HeaderBlock(headers, ts);
    forall i | 0 <= i < |block| ensures !IsMedia(block[i]) {
      assert OrderedHeaderKeys(headers.Keys)[i] in headers;
    }
  }

  lemma TimelineTellsTime(s: State, source: Source, tag: Tag, out: seq<Tag>)
    requires TimesTold(out, s.trackOut) && CachesOk(s)
    ensures var (s', lines) := TimelineStep(s, source, tag); TimesTold(out + lines, s'.trackOut)
  {
    hide TimesTold, PlaceStep, Placed, IsAnchor, HeaderBlock, HeadersOnly;
    NoHeaders();
    assert out + [] == out;
    var s1 := EnterStep(s, source);
    assert s1.trackOut == s.trackOut;
    if !s1.waitKeyframe {
      PlaceTellsTime(s1, tag, out);
    } else if IsAnchor(tag) {
      var s2 := OpenStep(s1, tag);
      var block := HeaderBlock(HeadersOf(s2, source), s2.switchOut);
      BlockIsNoMedia(HeadersOf(s2, source), s2.switchOut);
      HeadersTellNoTime(out, block, s.trackOut);
      PlaceTellsTime(s2, tag, out + block);
      assert out + (block + Placed(s2, tag)) == (out + block) + Placed(s2, tag);
    }
  }

  // ----- the opening of a rung -----

  /** The first picture of a rung among the tags. */
  function FirstOn(tags: seq<Tag>, id: byte): (r: Option<Tag>)
  {
    if tags == [] then None
    else
      var first := FirstOn(tags[..|tags| - 1], id);
      if first.Some? then first else if OnRung(tags[|tags| - 1], id) then Some(tags[|tags| - 1]) else None
  }

  /** A picture of the rung that is not behind the time the rung was left at, when one of the rung's keyframes has come
      by then, be it itself or one that was dropped. */
  ghost predicate MayOpen(tags: seq<Tag>, id: byte, floor: Option<int>, offset: int, j: nat)
    requires j < |tags|
  {
    && OnRung(tags[j], id) && (floor.Some? ==> Shift(tags[j], offset).ts >= floor.value)
    && exists k :: 0 <= k <= j && IsRungKey(tags[k], id)
  }

  /** The first such picture. */
  ghost predicate Opens(tags: seq<Tag>, id: byte, floor: Option<int>, offset: int, j: nat)
    requires j < |tags|
  {
    MayOpen(tags, id, floor, offset, j) && forall i :: 0 <= i < j ==> !MayOpen(tags, id, floor, offset, i)
  }

  lemma MayOpenSnoc(tags: seq<Tag>, tag: Tag, id: byte, floor: Option<int>, offset: int, j: nat)
    requires j < |tags|
    ensures MayOpen(tags + [tag], id, floor, offset, j) <==> MayOpen(tags, id, floor, offset, j)
  {
    hide IsRungKey, OnRung, Shift;
    var all := tags + [tag];
    assert forall k :: 0 <= k < |tags| ==> all[k] == tags[k];
  }

  lemma MayOpenLast(tags: seq<Tag>, tag: Tag, id: byte, floor: Option<int>, offset: int)
    ensures MayOpen(tags + [tag], id, floor, offset, |tags|)
            <==> OnRung(tag, id) && (floor.Some? ==> Shift(tag, offset).ts >= floor.value)
                 && (IsRungKey(tag, id) || exists k :: 0 <= k < |tags| && IsRungKey(tags[k], id))
  {
    hide IsRungKey, OnRung, Shift;
    var all := tags + [tag];
    assert forall k :: 0 <= k < |tags| ==> all[k] == tags[k];
    assert all[|tags|] == tag;
  }

  /** The rung's first picture in the segment is the one that opens it; there is none if none may. */
  ghost predicate RungTold(body: seq<Tag>, tags: seq<Tag>, id: byte, floor: Option<int>, offset: int)
  {
    match FirstOn(body, id)
    case Some(t) => exists j :: 0 <= j < |tags| && Opens(tags, id, floor, offset, j) && tags[j] == t
    case None => forall j :: 0 <= j < |tags| ==> !MayOpen(tags, id, floor, offset, j)
  }

  /** While the segment is open: the rung counts as begun once a keyframe of it has come, and until its first picture
      its last time stays what it was. */
  ghost predicate RungOpen(s: State, body: seq<Tag>, visit: Visit, id: byte)
  {
    && (id in s.started <==> exists k :: 0 <= k < |visit.tags| && IsRungKey(visit.tags[k], id))
    && (FirstOn(body, id).None? ==> Look(s.trackOut, VideoTrack(id)) == Look(visit.floors, VideoTrack(id)))
  }

  lemma FirstSnoc(tags: seq<Tag>, tag: Tag, id: byte)
    ensures FirstOn(tags + [tag], id)
            == if FirstOn(tags, id).Some? then FirstOn(tags, id) else if OnRung(tag, id) then Some(tag) else None
  {
    hide OnRung;
    assert (tags + [tag])[..|tags|] == tags;
  }

  lemma RungKey(tag: Tag, id: byte)
    requires id != 0
    ensures OnRung(tag, id) ==> KeyOf(tag) == VideoTrack(id)
    ensures IsMedia(tag) && KeyOf(tag) == VideoTrack(id) ==> OnRung(tag, id)
  {
  }

  /** A rung that has its first picture keeps it. */
  lemma OpenedStays(body: seq<Tag>, tags: seq<Tag>, tag: Tag, body': seq<Tag>, id: byte, floor: Option<int>, offset: int)
    requires RungTold(body, tags, id, floor, offset) && FirstOn(body, id).Some? && FirstOn(body', id) == FirstOn(body, id)
    ensures RungTold(body', tags + [tag], id, floor, offset)
  {
    hide MayOpen, FirstOn;
    var j :| 0 <= j < |tags| && Opens(tags, id, floor, offset, j) && tags[j] == FirstOn(body, id).value;
    forall i | 0 <= i <= j ensures MayOpen(tags + [tag], id, floor, offset, i) <==> MayOpen(tags, id, floor, offset, i) {
      MayOpenSnoc(tags, tag, id, floor, offset, i);
    }
    assert Opens(tags + [tag], id, floor, offset, j) && (tags + [tag])[j] == tags[j];
  }

  /** A rung without a picture gets its first one with the tag that opens it, or none. */
  lemma OpensOrNot(body: seq<Tag>, tags: seq<Tag>, tag: Tag, body': seq<Tag>, id: byte, floor: Option<int>, offset: int)
    requires RungTold(body, tags, id, floor, offset) && FirstOn(body, id).None?
    requires FirstOn(body', id) == if MayOpen(tags + [tag], id, floor, offset, |tags|) then Some(tag) else None
    ensures RungTold(body', tags + [tag], id, floor, offset)
  {
    hide MayOpen, FirstOn;
    var all := tags + [tag];
    forall i | 0 <= i < |tags| ensures !MayOpen(all, id, floor, offset, i) {
      MayOpenSnoc(tags, tag, id, floor, offset, i);
    }
    assert all[|tags|] == tag;
    if MayOpen(all, id, floor, offset, |tags|) {
      assert Opens(all, id, floor, offset, |tags|);
    }
  }

  /** One tag placed, as one rung sees it: what it does to the rung's record of beginning and last time. */
  lemma PlacedOnRung(s: State, tag: Tag, id: byte)
    requires id != 0
    ensures var s' := PlaceStep(s, tag);
            && (id in s'.started <==> id in s.started || IsRungKey(tag, id))
            && (OnRung(tag, id) ==>
                  Dropped(s, tag) == ((id !in s.started && !IsRungKey(tag, id))
                    || (Look(s.trackOut, VideoTrack(id)).Some? && Shift(tag, s.offset).ts < s.trackOut[VideoTrack(id)])))
            && (!OnRung(tag, id) || Dropped(s, tag) ==> Look(s'.trackOut, VideoTrack(id)) == Look(s.trackOut, VideoTrack(id)))
  {
    RungKey(tag, id);
    hide KeyOf, IsMedia, VideoTrackId, IsVideoKeyframe, Shift;
  }

  lemma RungGoesOn(s: State, tag: Tag, body: seq<Tag>, visit: Visit, id: byte)
    requires id != 0 && RungOpen(s, body, visit, id)
    requires RungTold(body, visit.tags, id, Look(visit.floors, VideoTrack(id)), s.offset)
    ensures var body' := if Dropped(s, tag) then body else body + [tag];
            var visit' := visit.(tags := visit.tags + [tag]);
            && RungOpen(PlaceStep(s, tag), body', visit', id)
            && RungTold(body', visit'.tags, id, Look(visit.floors, VideoTrack(id)), s.offset)
  {
    hide PlaceStep, Dropped, OnRung, IsRungKey, RungTold, FirstOn, MayOpen, Shift;
    var floor := Look(visit.floors, VideoTrack(id));
    var body' := if Dropped(s, tag) then body else body + [tag];
    KeyIsOnRung(tag, id);
    PlacedOnRung(s, tag, id);
    FirstSnoc(body, tag, id);
    assert KeyCame(visit.tags, id) <==> id in s.started;
    KeyCameSnoc(visit.tags, tag, id);
    assert KeyCame(visit.tags + [tag], id) <==> id in PlaceStep(s, tag).started;
    MayOpenLast(visit.tags, tag, id, floor, s.offset);
    if FirstOn(body, id).Some? {
      OpenedStays(body, visit.tags, tag, body', id, floor, s.offset);
    } else {
      OpensOrNot(body, visit.tags, tag, body', id, floor, s.offset);
    }
  }

  lemma KeyIsOnRung(tag: Tag, id: byte)
    ensures IsRungKey(tag, id) ==> OnRung(tag, id)
  {
  }

  /** A segment just opened: the anchor is of no rung but the canonical one. */
  lemma RungBegins(s: State, anchor: Tag, id: byte)
    requires id != 0 && IsAnchor(anchor)
    ensures RungOpen(PlaceStep(OpenStep(s, anchor), anchor), [], Visit(s.trackOut, []), id)
    ensures forall floor, offset :: RungTold([], [], id, floor, offset)
  {
    AnchorOffRung(anchor, id);
    PlacedOnRung(OpenStep(s, anchor), anchor, id);
    hide PlaceStep, OnRung, Dropped;
  }

  lemma AnchorOffRung(anchor: Tag, id: byte)
    requires id != 0 && IsAnchor(anchor)
    ensures !OnRung(anchor, id)
  {
  }

  // ----- rungs over runs -----

  ghost predicate SegmentTold(seg: Segment, visit: Visit, id: byte)
  {
    RungTold(seg.body, visit.tags, id, Look(visit.floors, VideoTrack(id)), OffsetOf(seg))
  }

  ghost predicate RungInv(y: Sys, id: byte)
  {
    && |y.visits| == |y.log|
    && TimesTold(y.out, y.s.trackOut)
    && (forall i :: 0 <= i < |y.log| ==> SegmentTold(y.log[i], y.visits[i], id))
    && (forall i :: 0 <= i < |y.log| ==> TimesTold(Flatten(y.log[..i]), y.visits[i].floors))
    && (y.s.outputSource.Some? && !y.s.waitKeyframe && y.log != [] ==>
          RungOpen(y.s, y.log[|y.log| - 1].body, y.visits[|y.log| - 1], id))
  }

  /** All segments but the last stay as they were. */
  lemma RungInvGrows(y: Sys, y': Sys, n: nat, id: byte)
    requires RungInv(y, id) && n <= |y.log| && |y'.log| == n + 1 == |y'.visits|
    requires y'.log[..n] == y.log[..n] && y'.visits[..n] == y.visits[..n]
    requires TimesTold(y'.out, y'.s.trackOut)
    requires SegmentTold(y'.log[n], y'.visits[n], id) && TimesTold(Flatten(y.log[..n]), y'.visits[n].floors)
    requires RungOpen(y'.s, y'.log[n].body, y'.visits[n], id)
    ensures RungInv(y', id)
  {
    hide SegmentTold, TimesTold, RungOpen, Flatten;
    forall i | 0 <= i < |y'.log|
      ensures SegmentTold(y'.log[i], y'.visits[i], id) && TimesTold(Flatten(y'.log[..i]), y'.visits[i].floors)
    {
      if i < n {
        assert y'.log[i] == y'.log[..n][i] && y'.visits[i] == y'.visits[..n][i];
        assert y'.log[..i] == y.log[..i] by { assert y'.log[..i] == y'.log[..n][..i] && y.log[..i] == y.log[..n][..i]; }
      }
    }
  }

  /** The timeline section while a segment is open. */
  lemma RunningKeepsRung(y: Sys, r: nat, id: byte)
    requires id != 0 && SysInv(y) && RungInv(y, id) && r in y.readers && y.readers[r].Passed?
    requires !EnterStep(y.s, y.readers[r].source).waitKeyframe
    ensures RungInv(SysStep(y, Place(r)), id)
  {
    hide SysInv, CachesOk, RungOpen, RungTold, TimesTold, Flatten, TimelineStep, Grow, Meet, PlaceStep, Dropped, LogSources, EnterStep,
      SysStep, OffsetOf;
    var (source, tag, last) := (y.readers[r].source, y.readers[r].tag, |y.log| - 1);
    InvSources(y);
    SysInvCaches(y);
    EnteredOpen(y, source);
    LastIsOpen(y, source);
    TimelineTellsTime(y.s, source, tag, y.out);
    PlaceWhileOpen(y, r, source, tag);
    var y' := SysStep(y, Place(r));
    assert SegmentTold(y.log[last], y.visits[last], id);
    RungGoesOn(y.s, tag, y.log[last].body, y.visits[last], id);
    SameOffset(y.log[last], y'.log[last]);
    RungInvGrows(y, y', last, id);
  }

  lemma SysInvCaches(y: Sys)
    requires SysInv(y)
    ensures CachesOk(y.s)
  {
  }

  lemma EnteredOpen(y: Sys, source: Source)
    requires LogSources(y) && !EnterStep(y.s, source).waitKeyframe
    ensures y.s.outputSource == Some(source) && !y.s.waitKeyframe && y.log != []
  {
  }

  lemma SameOffset(a: Segment, b: Segment)
    requires a.at == b.at && a.anchor == b.anchor
    ensures OffsetOf(a) == OffsetOf(b)
  {
  }

  /** What the section does then, field by field. */
  lemma PlaceWhileOpen(y: Sys, r: nat, source: Source, tag: Tag)
    requires r in y.readers && y.readers[r] == Passed(source, tag) && |y.visits| == |y.log| > 0
    requires y.s.outputSource == Some(source) && !y.s.waitKeyframe
    ensures var (y', last) := (SysStep(y, Place(r)), |y.log| - 1);
            && y'.s == PlaceStep(y.s, tag) && y'.out == y.out + TimelineStep(y.s, source, tag).1
            && TimelineStep(y.s, source, tag).0 == y'.s
            && |y'.log| == |y.log| == |y'.visits| && y'.log[..last] == y.log[..last] && y'.visits[..last] == y.visits[..last]
            && y'.log[last] == y.log[last].(body := if Dropped(y.s, tag) then y.log[last].body else y.log[last].body + [tag])
            && y'.visits[last] == y.visits[last].(tags := y.visits[last].tags + [tag])
  {
    hide PlaceStep, Dropped, Placed;
  }

  /** The timeline section while it waits for an anchor. */
  lemma WaitingKeepsRung(y: Sys, r: nat, id: byte)
    requires id != 0 && SysInv(y) && RungInv(y, id) && r in y.readers && y.readers[r].Passed?
    requires EnterStep(y.s, y.readers[r].source).waitKeyframe
    ensures RungInv(SysStep(y, Place(r)), id)
  {
    hide SysInv, CachesOk, RungOpen, RungTold, TimesTold, Flatten, TimelineStep, Grow, Meet, PlaceStep, Dropped, LogSources, EnterStep,
      SysStep, OffsetOf, IsAnchor, OpenStep;
    var (source, tag) := (y.readers[r].source, y.readers[r].tag);
    InvSources(y);
    SysInvCaches(y);
    TimelineTellsTime(y.s, source, tag, y.out);
    PlaceWhileWaiting(y, r, source, tag);
    if IsAnchor(tag) {
      RungBegins(EnterStep(y.s, source), tag, id);
      assert y.log[..|y.log|] == y.log && y.visits[..|y.visits|] == y.visits;
      RungInvGrows(y, SysStep(y, Place(r)), |y.log|, id);
    }
  }

  lemma PlaceWhileWaiting(y: Sys, r: nat, source: Source, tag: Tag)
    requires r in y.readers && y.readers[r] == Passed(source, tag) && |y.visits| == |y.log|
    requires EnterStep(y.s, source).waitKeyframe
    ensures var (y', s1) := (SysStep(y, Place(r)), EnterStep(y.s, source));
            && y'.out == y.out + TimelineStep(y.s, source, tag).1 && TimelineStep(y.s, source, tag).0 == y'.s
            && s1.trackOut == y.s.trackOut
            && if IsAnchor(tag) then
                 && y'.s == PlaceStep(OpenStep(s1, tag), tag)
                 && |y'.log| == |y.log| + 1 == |y'.visits|
                 && y'.log[..|y.log|] == y.log && y'.visits[..|y.log|] == y.visits
                 && y'.log[|y.log|].body == [] && y'.visits[|y.log|] == Visit(s1.trackOut, [])
               else y'.s == s1 && y'.log == y.log && y'.visits == y.visits
  {
    hide PlaceStep, Dropped, Placed, IsAnchor, HeaderBlock;
  }

  lemma StepKeepsRung(y: Sys, step: Step, id: byte)
    requires id != 0 && SysInv(y) && RungInv(y, id)
    ensures RungInv(SysStep(y, step), id)
  {
    hide SysInv, StoreStep, DecideStep, TimelineStep, Commits, ParamsChanged, Grow, Meet, SegmentTold, TimesTold, Flatten, EnterStep,
      IsRungKey, FirstOn;
    match step
    case Read(r, source, tag) => StoreSame(y.s, source, tag);
    case Decide(r, now) =>
      if r in y.readers {
        DecideKeepsTimeline(y.s, y.readers[r].source, y.readers[r].tag, now);
      }
    case Place(r) =>
      if r in y.readers && y.readers[r].Passed? {
        if EnterStep(y.s, y.readers[r].source).waitKeyframe {
          WaitingKeepsRung(y, r, id);
        } else {
          RunningKeepsRung(y, r, id);
        }
      }
    case SetActive(to) =>
    case Request(source, callback, notBefore) =>
  }

  lemma StoreSame(s: State, source: Source, tag: Tag)
    ensures SameTimeline(s, StoreStep(s, source, tag))
  {
    hide IsHeader, KeyOf;
  }

  lemma {:induction false} RunKeepsRung(y: Sys, steps: seq<Step>, id: byte)
    requires id != 0 && SysInv(y) && RungInv(y, id)
    ensures RungInv(SysRun(y, steps), id)
    decreases |steps|
  {
    hide SysStep, SysInv, RungInv;
    if steps != [] {
      StepKeepsRung(y, steps[0], id);
      SwitcherRuns.StepKeepsInv(y, steps[0]);
      RunKeepsRung(SysStep(y, steps[0]), steps[1..], id);
    }
  }

  lemma NoRungYet(y: Sys, id: byte)
    requires JustReset(y)
    ensures RungInv(y, id)
  {
    hide OnRung, IsMedia, KeyOf;
  }

  /** In any run and any segment: the first picture a rung is offered is the one that opens it, the first that is not
      behind the rung's last time in the segments before, at or after the first keyframe of the rung to come; and a
      rung of which there is no such picture is offered none. */
  lemma RungOpensAt(y: Sys, steps: seq<Step>, i: nat, id: byte)
    requires JustReset(y) && id != 0 && i < |SysRun(y, steps).log|
    ensures var y' := SysRun(y, steps);
            && |y'.visits| == |y'.log|
            && RungTold(y'.log[i].body, y'.visits[i].tags, id, LastTime(Flatten(y'.log[..i]), VideoTrack(id)), OffsetOf(y'.log[i]))
  {
    NoRungYet(y, id);
    JustResetInv(y);
    RunKeepsRung(y, steps, id);
    hide SysRun, SysInv, RungTold, Flatten, OffsetOf, LastTime;
    var y' := SysRun(y, steps);
    assert SegmentTold(y'.log[i], y'.visits[i], id) && TimesTold(Flatten(y'.log[..i]), y'.visits[i].floors);
  }

  /** So a rung begins a segment with a keyframe, or not at all, if and only if the picture that opens it is one. */
  lemma RungOpensWithKeyframeIff(y: Sys, steps: seq<Step>, i: nat, id: byte)
    requires JustReset(y) && id != 0 && i < |SysRun(y, steps).log|
    ensures var y' := SysRun(y, steps);
            var first := FirstOn(y'.log[i].body, id);
            var floor := LastTime(Flatten(y'.log[..i]), VideoTrack(id));
            var tags := if i < |y'.visits| then y'.visits[i].tags else [];
            (first.Some? ==> IsVideoKeyframe(first.value.payload)) <==>
              forall j :: 0 <= j < |tags| && Opens(tags, id, floor, OffsetOf(y'.log[i]), j) ==> IsVideoKeyframe(tags[j].payload)
  {
    RungOpensAt(y, steps, i, id);
    hide SysRun, FirstOn, Flatten, OffsetOf, LastTime, IsVideoKeyframe, JustReset;
    var y' := SysRun(y, steps);
    ToldIff(y'.log[i].body, y'.visits[i].tags, id, LastTime(Flatten(y'.log[..i]), VideoTrack(id)), OffsetOf(y'.log[i]));
  }

  lemma ToldIff(body: seq<Tag>, tags: seq<Tag>, id: byte, floor: Option<int>, offset: int)
    requires RungTold(body, tags, id, floor, offset)
    ensures var first := FirstOn(body, id);
            (first.Some? ==> IsVideoKeyframe(first.value.payload)) <==>
              forall j :: 0 <= j < |tags| && Opens(tags, id, floor, offset, j) ==> IsVideoKeyframe(tags[j].payload)
  {
    hide MayOpen, FirstOn, IsVideoKeyframe;
    if FirstOn(body, id).Some? {
      var k :| 0 <= k < |tags| && Opens(tags, id, floor, offset, k) && tags[k] == FirstOn(body, id).value;
      forall j | 0 <= j < |tags| && Opens(tags, id, floor, offset, j) ensures j == k {
      }
    }
  }

  // ----- a rung that begins without a keyframe -----

  function RungTag(isKey: bool, ts: int): Tag
  {
    Tag(TAG_VIDEO, ts, [if isKey then 0x96 else 0xA6, 1, 0x61, 0x76, 0x63, 0x31, 1])
  }

  function AnchorTag(ts: int): Tag
  {
    Tag(TAG_VIDEO, ts, [0x17, 1])
  }

  lemma RungTagIs(isKey: bool, ts: int)
    ensures var t := RungTag(isKey, ts);
            && IsMedia(t) && !IsAnchor(t) && VideoTrackId(t.payload) == 1 && KeyOf(t) == VideoTrack(1) && OnRung(t, 1)
            && (IsVideoKeyframe(t.payload) <==> isKey) && t.ts == ts && t.tagType == TAG_VIDEO
  {
  }

  lemma AnchorTagIs(ts: int)
    ensures var t := AnchorTag(ts);
            && IsMedia(t) && IsAnchor(t) && VideoTrackId(t.payload) == 0 && KeyOf(t) == Video
            && IsVideoKeyframe(t.payload) && t.ts == ts && t.tagType == TAG_VIDEO
  {
  }

  /** One reader's whole call, undisturbed. */
  function Feed(source: Source, tag: Tag): seq<Step>
  {
    [Read(0, source, tag), Decide(0, 0), Place(0)]
  }

  /** The switcher at rest with a source active. */
  predicate Rests(y: Sys, source: Source)
  {
    y.readers == map[] && y.s.active == Some(source) && y.s.pending.None? && |y.visits| == |y.log|
  }

  lemma FeedRuns(y: Sys, source: Source, tag: Tag)
    requires Rests(y, source) && !IsHeader(tag)
    ensures var y' := SysRun(y, Feed(source, tag));
            && y'.s == TimelineStep(y.s, source, tag).0 && Rests(y', source)
            && y'.log == Grow(y.log, y.s, source, tag, SentBy(y.sent, source) + [tag])
            && y'.visits == Meet(y.visits, y.s, source, tag)
  {
    hide TimelineStep, Grow, Meet, IsAnchor;
    var y1 := SysStep(y, Read(0, source, tag));
    var y2 := SysStep(y1, Decide(0, 0));
    assert y2.s == y.s && y2.readers == map[0 := Passed(source, tag)];
    ThreeSteps(y, Read(0, source, tag), Decide(0, 0), Place(0));
    TimelineKeepsTurn(y.s, source, tag);
    SameLength(y.log, y.visits, y.s, source, tag, SentBy(y2.sent, source));
    assert SentBy(y2.sent, source) == SentBy(y.sent, source) + [tag];
  }

  lemma TimelineKeepsTurn(s: State, source: Source, tag: Tag)
    ensures TimelineStep(s, source, tag).0.active == s.active && TimelineStep(s, source, tag).0.pending == s.pending
  {
    hide IsAnchor, TooEarly, Behind, IsMedia, HeaderBlock, Shift, KeyOf;
  }

  lemma ThreeSteps(y: Sys, a: Step, b: Step, c: Step)
    ensures SysRun(y, [a, b, c]) == SysStep(SysStep(SysStep(y, a), b), c)
  {
    hide SysStep;
    assert [a, b, c][1..] == [b, c] && [b, c][1..] == [c] && [c][1..] == [];
    var y1 := SysStep(y, a);
    assert SysRun(y1, [b, c]) == SysRun(SysStep(y1, b), [c]);
    assert SysRun(SysStep(SysStep(y1, b), c), []) == SysStep(SysStep(y1, b), c);
  }

  const START := Sys(FRESH, map[], [], [], [], [], [], map[])

  /** A first source with a rung, whose last picture is late on the clock. */
  const FIRST_SOURCE := [SetActive(Some(0))] + Feed(0, AnchorTag(0)) + Feed(0, RungTag(true, 1000))

  /** A second source, whose rung's keyframe comes far behind its anchor and whose next picture does not. */
  const SECOND_SOURCE := [SetActive(Some(1))] + Feed(1, AnchorTag(5000)) + Feed(1, RungTag(true, 100)) + Feed(1, RungTag(false, 5010))

  /** What the timeline is like after the first source. */
  predicate FirstDone(y: Sys)
  {
    && Rests(y, 0) && y.s.outputSource == Some(0) && !y.s.waitKeyframe && y.s.lastOut == 1066
    && y.s.trackOut == map[Video := 66, VideoTrack(1) := 1066] && |y.log| == 1
  }

  lemma FirstSourceRuns()
    ensures FirstDone(SysRun(START, FIRST_SOURCE))
  {
    AnchorTagIs(0);
    RungTagIs(true, 1000);
    hide RungTag, AnchorTag, KeyOf, IsMedia, IsAnchor, VideoTrackId, IsVideoKeyframe, HeaderBlock, HeadersOf;
    var y1 := SysStep(START, SetActive(Some(0)));
    FeedRuns(y1, 0, AnchorTag(0));
    var y2 := SysRun(y1, Feed(0, AnchorTag(0)));
    assert y2.s.trackOut == map[Video := 66] && y2.s.lastOut == 66 && y2.s.offset == 66 && y2.s.started == {0};
    FeedRuns(y2, 0, RungTag(true, 1000));
    SetThenFeeds(START, Some(0), Feed(0, AnchorTag(0)), Feed(0, RungTag(true, 1000)));
  }

  lemma SetThenFeeds(y: Sys, to: Option<Source>, a: seq<Step>, b: seq<Step>)
    ensures SysRun(y, [SetActive(to)] + a + b) == SysRun(SysRun(SysStep(y, SetActive(to)), a), b)
  {
    hide SysStep;
    SysRunAppend(y, [SetActive(to)] + a, b);
    SysRunAppend(y, [SetActive(to)], a);
    assert [SetActive(to)][1..] == [];
    assert SysRun(SysStep(y, SetActive(to)), []) == SysStep(y, SetActive(to));
  }

  /** Its second segment: where it lies, and what came to it. */
  predicate SecondDone(y: Sys)
  {
    && |y.log| == 2 == |y.visits| && OffsetOf(y.log[1]) == -3868 && y.visits[1].floors == map[Video := 66, VideoTrack(1) := 1066]
    && y.visits[1].tags == [RungTag(true, 100), RungTag(false, 5010)]
  }

  lemma SecondSourceRuns(y: Sys)
    requires FirstDone(y)
    ensures SecondDone(SysRun(y, SECOND_SOURCE))
  {
    AnchorTagIs(5000);
    RungTagIs(true, 100);
    RungTagIs(false, 5010);
    hide RungTag, AnchorTag, KeyOf, IsMedia, IsAnchor, VideoTrackId, IsVideoKeyframe, HeaderBlock, HeadersOf;
    var y1 := SysStep(y, SetActive(Some(1)));
    SecondOpens(y1);
    var y2 := SysRun(y1, Feed(1, AnchorTag(5000)));
    FeedRuns(y2, 1, RungTag(true, 100));
    OneMore(y2.visits, y2.s, y2.log, RungTag(true, 100), SentBy(y2.sent, 1) + [RungTag(true, 100)]);
    var y3 := SysRun(y2, Feed(1, RungTag(true, 100)));
    FeedRuns(y3, 1, RungTag(false, 5010));
    OneMore(y3.visits, y3.s, y3.log, RungTag(false, 5010), SentBy(y3.sent, 1) + [RungTag(false, 5010)]);
    SetThenFeeds(y, Some(1), Feed(1, AnchorTag(5000)), Feed(1, RungTag(true, 100)));
    SysRunAppend(y, [SetActive(Some(1))] + Feed(1, AnchorTag(5000)) + Feed(1, RungTag(true, 100)), Feed(1, RungTag(false, 5010)));
  }

  lemma SecondOpens(y: Sys)
    requires Rests(y, 1) && y.s.outputSource == Some(0) && y.s.lastOut == 1066 && |y.log| == 1
    requires y.s.trackOut == map[Video := 66, VideoTrack(1) := 1066]
    ensures var y' := SysRun(y, Feed(1, AnchorTag(5000)));
            && Rests(y', 1) && y'.s.outputSource == Some(1) && !y'.s.waitKeyframe && |y'.log| == 2
            && OffsetOf(y'.log[1]) == -3868
            && y'.visits[1] == Visit(map[Video := 66, VideoTrack(1) := 1066], [])
  {
    AnchorTagIs(5000);
    hide AnchorTag, KeyOf, IsMedia, IsAnchor, VideoTrackId, IsVideoKeyframe, HeaderBlock, HeadersOf, PlaceStep, Placed;
    FeedRuns(y, 1, AnchorTag(5000));
    PlaceKeepsRest(OpenStep(EnterStep(y.s, 1), AnchorTag(5000)), AnchorTag(5000));
  }

  /** A tag that comes to an open segment of the second source. */
  lemma OneMore(visits: seq<Visit>, s: State, log: seq<Segment>, tag: Tag, heard: seq<Tag>)
    requires |visits| == |log| == 2 && s.outputSource == Some(1) && !s.waitKeyframe
    ensures var (log', visits', s') := (Grow(log, s, 1, tag, heard), Meet(visits, s, 1, tag), TimelineStep(s, 1, tag).0);
            && |log'| == |visits'| == 2 && OffsetOf(log'[1]) == OffsetOf(log[1])
            && visits'[1] == visits[1].(tags := visits[1].tags + [tag])
            && s'.outputSource == Some(1) && !s'.waitKeyframe
  {
    PlaceKeepsRest(s, tag);
    hide PlaceStep, Placed, Dropped;
  }

  /** After a second switch a rung begins with an inter frame: its keyframe is behind the time the rung was left at and
      is dropped, the rung counts as begun, and so the next picture opens it. */
  lemma RungMayBeginWithoutKeyframe()
    ensures var y := SysRun(START, FIRST_SOURCE + SECOND_SOURCE);
            |y.log| == 2 && FirstOn(y.log[1].body, 1) == Some(RungTag(false, 5010)) && !IsVideoKeyframe(RungTag(false, 5010).payload)
  {
    FirstSourceRuns();
    SecondSourceRuns(SysRun(START, FIRST_SOURCE));
    SysRunAppend(START, FIRST_SOURCE, SECOND_SOURCE);
    StartJustReset();
    var y := SysRun(START, FIRST_SOURCE + SECOND_SOURCE);
    hide *;
    assert SecondDone(y);
    SecondTold(y);
  }

  lemma StartJustReset()
    ensures JustReset(START)
  {
  }

  lemma SecondTold(y: Sys)
    requires SecondDone(y) && y == SysRun(START, FIRST_SOURCE + SECOND_SOURCE)
    ensures |y.log| == 2 && FirstOn(y.log[1].body, 1) == Some(RungTag(false, 5010)) && !IsVideoKeyframe(RungTag(false, 5010).payload)
  {
    StartJustReset();
    hide SysRun, FirstOn, Flatten, OffsetOf, MayOpen, IsVideoKeyframe;
    RungOpensAt(START, FIRST_SOURCE + SECOND_SOURCE, 1, 1);
    RungFloor(START, FIRST_SOURCE + SECOND_SOURCE, 1, 1);
    OpensSecond();
    RungTagIs(false, 5010);
  }

  lemma RungFloor(y: Sys, steps: seq<Step>, i: nat, id: byte)
    requires JustReset(y) && id != 0 && i < |SysRun(y, steps).log|
    ensures var y' := SysRun(y, steps);
            |y'.visits| == |y'.log| && LastTime(Flatten(y'.log[..i]), VideoTrack(id)) == Look(y'.visits[i].floors, VideoTrack(id))
  {
    NoRungYet(y, id);
    JustResetInv(y);
    RunKeepsRung(y, steps, id);
    hide SysRun, SysInv, RungTold, Flatten, OffsetOf, LastTime;
    var y' := SysRun(y, steps);
    assert TimesTold(Flatten(y'.log[..i]), y'.visits[i].floors);
  }

  lemma OpensSecond()
    ensures var tags := [RungTag(true, 100), RungTag(false, 5010)];
            !MayOpen(tags, 1, Some(1066), -3868, 0) && MayOpen(tags, 1, Some(1066), -3868, 1)
  {
    RungTagIs(true, 100);
    RungTagIs(false, 5010);
    hide RungTag, OnRung, IsVideoKeyframe;
    var tags := [RungTag(true, 100), RungTag(false, 5010)];
    assert IsRungKey(tags[0], 1);
  }
}
