// Runs of the switcher: readers inside their sections in any interleaving, with switches at any moment.
module SwitcherRuns {
  import opened Bytes
  import opened Flv
  import opened Switcher

  /** What the outputs are offered between two switches: the headers, the anchor keyframe, and the tags after it,
      given as the source sent them; all are shifted by the one offset that puts the anchor a step past the
      headers. With it, all the source had sent by then. */
  datatype Segment = Segment(source: Source, at: int, headers: map<Key, bytes>, anchor: Tag, body: seq<Tag>, heard: seq<Tag>)

  function OffsetOf(seg: Segment): int
  {
    seg.at + SWITCH_STEP_MS - seg.anchor.ts
  }

  function ShiftAll(tags: seq<Tag>, offset: int): seq<Tag>
  {
    seq(|tags|, i requires 0 <= i < |tags| => Shift(tags[i], offset))
  }

  function Lines(seg: Segment): seq<Tag>
  {
    HeaderBlock(seg.headers, seg.at) + [Shift(seg.anchor, OffsetOf(seg))] + ShiftAll(seg.body, OffsetOf(seg))
  }

  function Flatten(log: seq<Segment>): seq<Tag>
  {
    if log == [] then [] else Flatten(log[..|log| - 1]) + Lines(log[|log| - 1])
  }

  /** A reader between its sections: the header is stored, or the source was found active. */
  datatype Reader = Stored(source: Source, tag: Tag) | Passed(source: Source, tag: Tag)

  datatype Call = Call(callback: nat, paramsChanged: bool)

  /** What came to the timeline section while a segment was open, after its anchor, kept or not; and the last time of
      every track when it opened. */
  datatype Visit = Visit(floors: map<Key, int>, tags: seq<Tag>)

  /** A tag that came to the timeline section. */
  datatype Came = Came(source: Source, tag: Tag)

  /** With the state: where each reader stands, all that came to the timeline section, what the outputs were offered,
      the same in segments, what came to the timeline section in each of them, the callbacks called, and what each
      source has sent since the reset. */
  datatype Sys = Sys(s: State, readers: map<nat, Reader>, came: seq<Came>, out: seq<Tag>, log: seq<Segment>, visits: seq<Visit>,
                     calls: seq<Call>, sent: map<Source, seq<Tag>>)

  function SentBy(sent: map<Source, seq<Tag>>, source: Source): seq<Tag>
  {
    if source in sent then sent[source] else []
  }

  datatype Step =
    | Read(reader: nat, source: Source, tag: Tag)
    | Decide(reader: nat, now: int)
    | Place(reader: nat)
    | SetActive(to: Option<Source>)
    | Request(source: Source, callback: Option<nat>, notBefore: Option<int>)

  /** The log after a timeline section. */
  function Grow(log: seq<Segment>, s: State, source: Source, tag: Tag, heard: seq<Tag>): seq<Segment>
  {
    var s1 := EnterStep(s, source);
    if s1.waitKeyframe then
      if IsAnchor(tag) then log + [Segment(source, s1.switchOut, HeadersOf(s1, source), tag, [], heard)] else log
    else if Dropped(s1, tag) || log == [] then log
    else
      var last := log[|log| - 1];
      log[..|log| - 1] + [last.(body := last.body + [tag])]
  }

  function Meet(visits: seq<Visit>, s: State, source: Source, tag: Tag): seq<Visit>
  {
    var s1 := EnterStep(s, source);
    if s1.waitKeyframe then if IsAnchor(tag) then visits + [Visit(s1.trackOut, [])] else visits
    else if visits == [] then visits
    else
      var last := visits[|visits| - 1];
      visits[..|visits| - 1] + [last.(tags := last.tags + [tag])]
  }

  function SysStep(y: Sys, step: Step): Sys
  {
    match step
    case Read(r, source, tag) =>
      if r in y.readers then y
      else
        y.(s := StoreStep(y.s, source, tag), readers := y.readers[r := Stored(source, tag)],
           sent := y.sent[source := SentBy(y.sent, source) + [tag]])
    case Decide(r, now) =>
      if r !in y.readers || !y.readers[r].Stored? then y
      else
        var (source, tag) := (y.readers[r].source, y.readers[r].tag);
        var s' := DecideStep(y.s, source, tag, now);
        y.(s := s',
           readers := if s'.active == Some(source) then y.readers[r := Passed(source, tag)] else y.readers - {r},
           calls := if Commits(y.s, source, tag, now) && y.s.callback.Some?
                    then y.calls + [Call(y.s.callback.value, ParamsChanged(y.s, source))] else y.calls)
    case Place(r) =>
      if r !in y.readers || !y.readers[r].Passed? then y
      else
        var (source, tag) := (y.readers[r].source, y.readers[r].tag);
        var (s', lines) := TimelineStep(y.s, source, tag);
        y.(s := s', readers := y.readers - {r}, came := y.came + [Came(source, tag)], out := y.out + lines,
           log := Grow(y.log, y.s, source, tag, SentBy(y.sent, source)), visits := Meet(y.visits, y.s, source, tag))
    case SetActive(to) => y.(s := SetActiveStep(y.s, to))
    case Request(source, callback, notBefore) => y.(s := RequestStep(y.s, source, callback, notBefore))
  }

  function SysRun(y: Sys, steps: seq<Step>): Sys
    decreases |steps|
  {
    if steps == [] then y else SysRun(SysStep(y, steps[0]), steps[1..])
  }

  // ----- the invariant -----

  /** On every track, media timestamps never decrease. */
  ghost predicate TracksForward(out: seq<Tag>)
  {
    forall i, j :: 0 <= i < j < |out| && IsMedia(out[i]) && IsMedia(out[j]) && KeyOf(out[i]) == KeyOf(out[j]) ==>
      out[i].ts <= out[j].ts
  }

  ghost predicate AllBelow(out: seq<Tag>, bound: int)
  {
    forall i :: 0 <= i < |out| ==> out[i].ts < bound
  }

  ghost predicate Bounded(out: seq<Tag>, last: int)
  {
    forall i :: 0 <= i < |out| ==> out[i].ts <= last
  }

  ghost predicate TracksKnown(out: seq<Tag>, trackOut: map<Key, int>)
  {
    forall i :: 0 <= i < |out| && IsMedia(out[i]) ==> KeyOf(out[i]) in trackOut && out[i].ts <= trackOut[KeyOf(out[i])]
  }

  /** Every segment begins with its headers strictly above all that came before, and an anchor keyframe. */
  ghost predicate LogOk(log: seq<Segment>)
  {
    forall i :: 0 <= i < |log| ==> log[i].at >= 0 && IsAnchor(log[i].anchor) && AllBelow(Flatten(log[..i]), log[i].at)
  }

  /** What the segment now being written and the timeline's own fields have to do with each other. */
  ghost predicate LogCurrent(s: State, log: seq<Segment>)
  {
    s.outputSource.Some? && !s.waitKeyframe ==>
      log != [] && log[|log| - 1].source == s.outputSource.value && OffsetOf(log[|log| - 1]) == s.offset
  }

  ghost predicate Inv(s: State, out: seq<Tag>, log: seq<Segment>)
  {
    && s.lastOut >= 0
    && Bounded(out, s.lastOut)
    && (forall k :: k in s.trackOut ==> s.trackOut[k] <= s.lastOut)
    && (s.waitKeyframe ==> s.outputSource.Some? && s.switchOut == s.lastOut && AllBelow(out, s.lastOut))
    && TracksKnown(out, s.trackOut)
    && TracksForward(out)
    && out == Flatten(log)
    && LogOk(log)
    && LogCurrent(s, log)
  }

  // ----- one section at a time -----

  lemma EnterKeepsInv(s: State, source: Source, out: seq<Tag>, log: seq<Segment>)
    requires Inv(s, out, log)
    ensures Inv(EnterStep(s, source), out, log) && EnterStep(s, source).outputSource == Some(source)
    ensures s.lastOut <= EnterStep(s, source).lastOut
  {
    hide Flatten, KeyOf, IsMedia, LogOk, OffsetOf;
  }

  lemma ShiftSnoc(tags: seq<Tag>, tag: Tag, offset: int)
    ensures ShiftAll(tags + [tag], offset) == ShiftAll(tags, offset) + [Shift(tag, offset)]
  {
    hide Shift;
  }

  lemma FlattenSnoc(log: seq<Segment>, seg: Segment)
    ensures Flatten(log + [seg]) == Flatten(log) + Lines(seg)
  {
    hide Lines;
    assert (log + [seg])[..|log|] == log;
  }

  lemma LinesSnoc(seg: Segment, tag: Tag)
    ensures Lines(seg.(body := seg.body + [tag])) == Lines(seg) + [Shift(tag, OffsetOf(seg))]
  {
    ShiftSnoc(seg.body, tag, OffsetOf(seg));
    hide HeaderBlock, Shift, ShiftAll;
  }

  lemma LastGrows(init: seq<Segment>, last: Segment, tag: Tag)
    ensures Flatten(init + [last.(body := last.body + [tag])]) == Flatten(init + [last]) + [Shift(tag, OffsetOf(last))]
  {
    hide *;
    LinesSnoc(last, tag);
    FlattenSnoc(init, last.(body := last.body + [tag]));
    FlattenSnoc(init, last);
  }

  /** The log grows by exactly what was offered. */
  lemma BodyGrows(log: seq<Segment>, tag: Tag)
    requires log != []
    ensures var last := log[|log| - 1];
            var log' := log[..|log| - 1] + [last.(body := last.body + [tag])];
            Flatten(log') == Flatten(log) + [Shift(tag, OffsetOf(last))]
  {
    hide *;
    assert log == log[..|log| - 1] + [log[|log| - 1]];
    LastGrows(log[..|log| - 1], log[|log| - 1], tag);
  }

  lemma BodyKeepsLogOk(log: seq<Segment>, tag: Tag)
    requires log != [] && LogOk(log)
    ensures var last := log[|log| - 1]; LogOk(log[..|log| - 1] + [last.(body := last.body + [tag])])
  {
    hide Flatten, IsAnchor, AllBelow;
    var last := log[|log| - 1];
    var log' := log[..|log| - 1] + [last.(body := last.body + [tag])];
    forall i | 0 <= i < |log'| ensures log'[i].at >= 0 && IsAnchor(log'[i].anchor) && AllBelow(Flatten(log'[..i]), log'[i].at) {
      assert log'[..i] == log[..i];
      assert log'[i].anchor == log[i].anchor && log'[i].at == log[i].at;
    }
  }

  lemma OpenKeepsLogOk(log: seq<Segment>, seg: Segment)
    requires LogOk(log) && seg.at >= 0 && IsAnchor(seg.anchor) && AllBelow(Flatten(log), seg.at)
    ensures LogOk(log + [seg])
  {
    hide Flatten, IsAnchor, AllBelow;
    var log' := log + [seg];
    forall i | 0 <= i < |log'| ensures log'[i].at >= 0 && IsAnchor(log'[i].anchor) && AllBelow(Flatten(log'[..i]), log'[i].at) {
      assert log'[..i] == if i == |log| then log else log[..i];
    }
  }

  lemma ForwardSnoc(out: seq<Tag>, trackOut: map<Key, int>, tag: Tag)
    requires TracksForward(out) && TracksKnown(out, trackOut)
    requires IsMedia(tag) && KeyOf(tag) in trackOut ==> trackOut[KeyOf(tag)] <= tag.ts
    ensures TracksForward(out + [tag])
    ensures TracksKnown(out + [tag], if IsMedia(tag) then trackOut[KeyOf(tag) := tag.ts] else trackOut)
  {
    hide KeyOf, IsMedia;
  }

  lemma KeyShifted(tag: Tag, offset: int)
    ensures IsMedia(Shift(tag, offset)) == IsMedia(tag) && KeyOf(Shift(tag, offset)) == KeyOf(tag) && Shift(tag, offset).ts >= 0
  {
    hide IsSeqHeader, HeaderKey;
  }

  /** Placing a tag keeps all but the log's shape. */
  ghost predicate TimesOk(s: State, out: seq<Tag>)
  {
    && s.lastOut >= 0
    && Bounded(out, s.lastOut)
    && (forall k :: k in s.trackOut ==> s.trackOut[k] <= s.lastOut)
    && TracksKnown(out, s.trackOut)
    && TracksForward(out)
  }

  lemma PlaceKeepsTimes(s: State, tag: Tag, out: seq<Tag>)
    requires TimesOk(s, out)
    ensures TimesOk(PlaceStep(s, tag), out + Placed(s, tag)) && s.lastOut <= PlaceStep(s, tag).lastOut
  {
    hide KeyOf, IsMedia, TracksForward, TracksKnown, TooEarly, Shift;
    KeyShifted(tag, s.offset);
    if Dropped(s, tag) {
      assert out + [] == out;
    } else {
      ForwardSnoc(out, s.trackOut, Shift(tag, s.offset));
    }
  }

  lemma PlaceKeepsRest(s: State, tag: Tag)
    ensures var s' := PlaceStep(s, tag);
            && s'.outputSource == s.outputSource && s'.waitKeyframe == s.waitKeyframe && s'.offset == s.offset
            && s'.switchOut == s.switchOut
  {
    hide KeyOf, IsMedia, Shift, TooEarly, Behind;
  }

  /** Tags placed while a segment is open. */
  lemma RunningKeepsInv(s: State, tag: Tag, out: seq<Tag>, log: seq<Segment>, heard: seq<Tag>)
    requires Inv(s, out, log) && s.outputSource.Some? && !s.waitKeyframe
    ensures var log' := Grow(log, s, s.outputSource.value, tag, heard);
            Inv(PlaceStep(s, tag), out + Placed(s, tag), log')
  {
    hide KeyOf, IsMedia, Shift, TooEarly, Behind, PlaceStep, Flatten, LogOk, TracksForward, TracksKnown, Bounded, AllBelow;
    PlaceKeepsTimes(s, tag, out);
    PlaceKeepsRest(s, tag);
    if Dropped(s, tag) {
      assert out + [] == out;
    } else {
      BodyGrows(log, tag);
      BodyKeepsLogOk(log, tag);
    }
  }

  /** Headers at the switch time: no media, nothing later than the switch. */
  lemma HeadersKeepTimes(s: State, out: seq<Tag>, headers: map<Key, bytes>)
    requires TimesOk(s, out) && s.switchOut == s.lastOut && HeadersOnly(headers)
    ensures TimesOk(s, out + HeaderBlock(headers, s.switchOut))
  {
    HeaderBlockCanonical(headers, s.switchOut);
    hide OrderedHeaderKeys, HeaderBlock, KeyOf, CanonicalOrder;
    var block := HeaderBlock(headers, s.switchOut);
    forall i | 0 <= i < |block| ensures !IsMedia(block[i]) {
      assert OrderedHeaderKeys(headers.Keys)[i] in headers;
    }
    hide IsMedia;
    var all := out + block;
    forall i | |out| <= i < |all| ensures all[i].ts == s.switchOut && !IsMedia(all[i]) {
      assert all[i] == block[i - |out|];
    }
  }

  /** Every cached payload classifies as the header its key says. */
  ghost predicate HeadersOnly(headers: map<Key, bytes>)
  {
    forall k :: k in headers ==> k == Meta || IsSeqHeader(TagTypeOf(k), headers[k])
  }

  ghost predicate CachesOk(s: State)
  {
    forall source :: source in s.headers ==> HeadersOnly(s.headers[source])
  }

  /** The anchor is never dropped: it lands one step past the switch, above every track's last time. */
  lemma AnchorIsPlaced(s: State, tag: Tag)
    requires s.waitKeyframe && s.lastOut >= 0 && IsAnchor(tag) && s.switchOut == s.lastOut
    requires forall k :: k in s.trackOut ==> s.trackOut[k] <= s.lastOut
    ensures var s2 := OpenStep(s, tag);
            && Placed(s2, tag) == [Tag(tag.tagType, s.switchOut + SWITCH_STEP_MS, tag.payload)]
            && Placed(s2, tag) == [Shift(tag, s2.offset)]
            && s2.offset == s.switchOut + SWITCH_STEP_MS - tag.ts
  {
    hide HeaderKey, IsSeqHeader;
  }

  lemma OpeningKeepsInv(s: State, source: Source, tag: Tag, out: seq<Tag>, log: seq<Segment>, heard: seq<Tag>)
    requires Inv(s, out, log) && CachesOk(s) && s.outputSource == Some(source) && s.waitKeyframe && IsAnchor(tag)
    ensures var s2 := OpenStep(s, tag);
            Inv(PlaceStep(s2, tag), out + (HeaderBlock(HeadersOf(s2, source), s2.switchOut) + Placed(s2, tag)),
                Grow(log, s, source, tag, heard))
  {
    hide KeyOf, IsMedia, Shift, TooEarly, Behind, PlaceStep, Flatten, LogOk, TracksForward, TracksKnown, Bounded, AllBelow,
      IsAnchor, HeaderBlock, HeadersOnly, Placed;
    var s2 := OpenStep(s, tag);
    var headers := HeadersOf(s2, source);
    NoHeaders();
    AnchorIsPlaced(s, tag);
    HeadersKeepTimes(s2, out, headers);
    var block := HeaderBlock(headers, s2.switchOut);
    PlaceKeepsTimes(s2, tag, out + block);
    PlaceKeepsRest(s2, tag);
    var seg := Segment(source, s.switchOut, headers, tag, [], heard);
    OpenKeepsLogOk(log, seg);
    FlattenSnoc(log, seg);
    assert out + (block + Placed(s2, tag)) == (out + block) + Placed(s2, tag);
    OpeningLines(seg, s2);
  }

  lemma OpeningLines(seg: Segment, s2: State)
    requires seg.body == [] && OffsetOf(seg) == s2.offset && Placed(s2, seg.anchor) == [Shift(seg.anchor, s2.offset)]
    ensures Lines(seg) == HeaderBlock(seg.headers, seg.at) + Placed(s2, seg.anchor)
  {
    hide HeaderBlock, Shift, Placed;
  }

  lemma NoHeaders()
    ensures HeadersOnly(map[])
  {
  }

  /** The timeline section, whoever runs it. */
  lemma TimelineKeepsInv(s: State, source: Source, tag: Tag, out: seq<Tag>, log: seq<Segment>, heard: seq<Tag>)
    requires Inv(s, out, log) && CachesOk(s)
    ensures var (s', lines) := TimelineStep(s, source, tag);
            Inv(s', out + lines, Grow(log, s, source, tag, heard)) && s.lastOut <= s'.lastOut
  {
    hide Inv, PlaceStep, Placed, IsAnchor, HeaderBlock, Dropped, EnterStep;
    EnterKeepsInv(s, source, out, log);
    var s1 := EnterStep(s, source);
    InvLast(s1, out, log);
    EnterTwice(s, source);
    if !s1.waitKeyframe {
      RunningKeepsInv(s1, tag, out, log, heard);
      PlaceKeepsTimes(s1, tag, out);
    } else if IsAnchor(tag) {
      OpeningKeepsInv(s1, source, tag, out, log, heard);
      LastRisesOnPlace(OpenStep(s1, tag), tag);
    } else {
      assert out + [] == out;
    }
  }

  lemma InvLast(s: State, out: seq<Tag>, log: seq<Segment>)
    requires Inv(s, out, log)
    ensures TimesOk(s, out)
  {
    hide Bounded, TracksForward, TracksKnown, LogOk, Flatten;
  }

  lemma LastRisesOnPlace(s: State, tag: Tag)
    ensures s.lastOut <= PlaceStep(s, tag).lastOut
  {
    hide KeyOf, IsMedia, Shift, TooEarly, Behind;
  }

  lemma EnterTwice(s: State, source: Source)
    ensures EnterStep(EnterStep(s, source), source) == EnterStep(s, source)
    ensures EnterStep(s, source).headers == s.headers
    ensures EnterStep(s, source).outputSource == Some(source)
  {
  }

  // ----- runs -----

  /** What no section but the timeline's touches. */
  predicate SameTimeline(s: State, s': State)
  {
    && s'.outputSource == s.outputSource && s'.lastOut == s.lastOut && s'.offset == s.offset
    && s'.waitKeyframe == s.waitKeyframe && s'.started == s.started && s'.trackOut == s.trackOut && s'.switchOut == s.switchOut
  }

  lemma InvOfSame(s: State, s': State, out: seq<Tag>, log: seq<Segment>)
    requires Inv(s, out, log) && SameTimeline(s, s')
    ensures Inv(s', out, log)
  {
    hide Bounded, TracksForward, TracksKnown, LogOk, Flatten, AllBelow;
  }

  lemma StoreKeepsCaches(s: State, source: Source, tag: Tag)
    requires CachesOk(s)
    ensures CachesOk(StoreStep(s, source, tag)) && SameTimeline(s, StoreStep(s, source, tag))
  {
    if IsHeader(tag) {
      HeaderKeyFits(tag);
      hide HeaderKey, IsSeqHeader;
    }
  }

  lemma HeaderKeyFits(tag: Tag)
    requires IsHeader(tag)
    ensures KeyOf(tag) == Meta || IsSeqHeader(TagTypeOf(KeyOf(tag)), tag.payload)
  {
  }

  lemma {:induction false} DecideKeepsTimeline(s: State, source: Source, tag: Tag, now: int)
    ensures var s' := DecideStep(s, source, tag, now); SameTimeline(s, s') && s'.headers == s.headers
  {
    hide IsAnchor, HeadersDiffer;
  }

  ghost predicate SysInv(y: Sys)
  {
    Inv(y.s, y.out, y.log) && CachesOk(y.s)
  }

  lemma TimelineKeepsCaches(s: State, source: Source, tag: Tag)
    ensures TimelineStep(s, source, tag).0.headers == s.headers
  {
    hide IsAnchor, TooEarly, Behind, IsMedia, HeaderBlock, Shift, KeyOf;
  }

  lemma StepKeepsInv(y: Sys, step: Step)
    requires SysInv(y)
    ensures SysInv(SysStep(y, step)) && y.s.lastOut <= SysStep(y, step).s.lastOut && y.out <= SysStep(y, step).out
  {
    hide Inv, StoreStep, DecideStep, TimelineStep, Commits, ParamsChanged, Grow;
    match step
    case Read(r, source, tag) =>
      StoreKeepsCaches(y.s, source, tag);
      InvOfSame(y.s, StoreStep(y.s, source, tag), y.out, y.log);
    case Decide(r, now) =>
      if r in y.readers {
        DecideKeepsTimeline(y.s, y.readers[r].source, y.readers[r].tag, now);
        InvOfSame(y.s, DecideStep(y.s, y.readers[r].source, y.readers[r].tag, now), y.out, y.log);
      }
    case Place(r) =>
      if r in y.readers {
        TimelineKeepsInv(y.s, y.readers[r].source, y.readers[r].tag, y.out, y.log, SentBy(y.sent, y.readers[r].source));
        TimelineKeepsCaches(y.s, y.readers[r].source, y.readers[r].tag);
      }
    case SetActive(to) => InvOfSame(y.s, SetActiveStep(y.s, to), y.out, y.log);
    case Request(source, callback, notBefore) =>
      InvOfSame(y.s, RequestStep(y.s, source, callback, notBefore), y.out, y.log);
  }

  /** A timeline just created or reset; readers may still be inside a call that began before. */
  predicate JustReset(y: Sys)
  {
    SameTimeline(FRESH, y.s) && y.s.headers == map[] && y.came == [] && y.out == [] && y.log == [] && y.visits == [] && y.sent == map[]
  }

  lemma ResetIsFresh(s: State)
    ensures var s' := ResetTimelineStep(s); SameTimeline(FRESH, s') && s'.headers == map[]
  {
  }

  lemma JustResetInv(y: Sys)
    requires JustReset(y)
    ensures SysInv(y)
  {
    hide IsMedia, KeyOf, IsAnchor;
  }

  lemma {:induction false} RunKeepsInv(y: Sys, steps: seq<Step>)
    requires SysInv(y)
    ensures SysInv(SysRun(y, steps)) && y.s.lastOut <= SysRun(y, steps).s.lastOut && y.out <= SysRun(y, steps).out
    decreases |steps|
  {
    hide SysInv, SysStep;
    if steps != [] {
      StepKeepsInv(y, steps[0]);
      RunKeepsInv(SysStep(y, steps[0]), steps[1..]);
    }
  }

  /** Until the next reset, whatever the interleaving and however often the source switches: media timestamps
      never go back on any track, and the last output time bounds everything offered. */
  lemma TimelineNeverGoesBack(y: Sys, steps: seq<Step>)
    requires JustReset(y)
    ensures var y' := SysRun(y, steps); TracksForward(y'.out) && Bounded(y'.out, y'.s.lastOut)
  {
    hide SysStep, TracksForward, Bounded;
    JustResetInv(y);
    RunKeepsInv(y, steps);
  }

  /** The last output time and the output itself only grow. */
  lemma LastOutputOnlyGrows(y: Sys, first: seq<Step>, more: seq<Step>)
    requires JustReset(y)
    ensures var y1, y2 := SysRun(y, first), SysRun(SysRun(y, first), more);
            y1.s.lastOut <= y2.s.lastOut && y1.out <= y2.out
  {
    hide SysInv, SysStep;
    JustResetInv(y);
    RunKeepsInv(y, first);
    RunKeepsInv(SysRun(y, first), more);
  }

  // ----- the headers of a segment -----

  /** The stored headers are the latest each source has sent, and so are those each segment began with. */
  ghost predicate HeadersLatest(y: Sys)
  {
    && (forall source :: Caches(HeadersOf(y.s, source), map[], SentBy(y.sent, source)))
    && forall i :: 0 <= i < |y.log| ==>
         Caches(y.log[i].headers, map[], y.log[i].heard) && y.log[i].heard <= SentBy(y.sent, y.log[i].source)
  }

  lemma GrowKeepsHeaders(log: seq<Segment>, s: State, source: Source, tag: Tag, heard: seq<Tag>, i: nat)
    requires i < |Grow(log, s, source, tag, heard)|
    ensures var seg := Grow(log, s, source, tag, heard)[i];
            if i < |log| then seg.headers == log[i].headers && seg.heard == log[i].heard && seg.source == log[i].source
            else seg.headers == HeadersOf(s, source) && seg.heard == heard && seg.source == source
  {
    hide Dropped, IsAnchor;
  }

  lemma ReadKeepsLatest(y: Sys, source: Source, tag: Tag)
    requires HeadersLatest(y)
    ensures HeadersLatest(y.(s := StoreStep(y.s, source, tag), sent := y.sent[source := SentBy(y.sent, source) + [tag]]))
  {
    hide Caches, IsHeader, KeyOf;
    var y' := y.(s := StoreStep(y.s, source, tag), sent := y.sent[source := SentBy(y.sent, source) + [tag]]);
    CachesSnoc(HeadersOf(y.s, source), map[], SentBy(y.sent, source), tag);
    forall q ensures Caches(HeadersOf(y'.s, q), map[], SentBy(y'.sent, q)) {
      assert Caches(HeadersOf(y.s, q), map[], SentBy(y.sent, q));
    }
  }

  lemma StepKeepsLatest(y: Sys, step: Step)
    requires HeadersLatest(y)
    ensures HeadersLatest(SysStep(y, step))
  {
    hide Caches, StoreStep, DecideStep, TimelineStep, Commits, ParamsChanged, Grow;
    match step
    case Read(r, source, tag) => ReadKeepsLatest(y, source, tag);
    case Decide(r, now) =>
      if r in y.readers {
        DecideKeepsTimeline(y.s, y.readers[r].source, y.readers[r].tag, now);
      }
    case Place(r) =>
      if r in y.readers && y.readers[r].Passed? {
        var (source, tag) := (y.readers[r].source, y.readers[r].tag);
        TimelineKeepsCaches(y.s, source, tag);
        var y' := SysStep(y, step);
        assert Caches(HeadersOf(y.s, source), map[], SentBy(y.sent, source));
        forall i | 0 <= i < |y'.log|
          ensures Caches(y'.log[i].headers, map[], y'.log[i].heard) && y'.log[i].heard <= SentBy(y'.sent, y'.log[i].source)
        {
          GrowKeepsHeaders(y.log, y.s, source, tag, SentBy(y.sent, source), i);
        }
      }
    case SetActive(to) =>
    case Request(source, callback, notBefore) =>
  }

  lemma {:induction false} RunKeepsLatest(y: Sys, steps: seq<Step>)
    requires HeadersLatest(y)
    ensures HeadersLatest(SysRun(y, steps))
    decreases |steps|
  {
    hide HeadersLatest, SysStep;
    if steps != [] {
      StepKeepsLatest(y, steps[0]);
      RunKeepsLatest(SysStep(y, steps[0]), steps[1..]);
    }
  }

  /** A segment as the outputs see it. */
  ghost predicate SegmentOk(seg: Segment, before: seq<Tag>, sent: seq<Tag>)
  {
    && CanonicalOrder(OrderedHeaderKeys(seg.headers.Keys), seg.headers.Keys)
    && Caches(seg.headers, map[], seg.heard) && seg.heard <= sent
    && AllBelow(before, seg.at)
    && IsAnchor(seg.anchor)
    && Shift(seg.anchor, OffsetOf(seg)).ts == seg.at + SWITCH_STEP_MS
  }

  /** What the outputs are offered is a row of segments: the latest headers the source has sent, in canonical order,
      all at one time strictly above everything before, then a track-0 keyframe exactly one step later, then the
      source's tags under one offset. */
  lemma OutputIsSegments(y: Sys, steps: seq<Step>)
    requires JustReset(y)
    ensures var y' := SysRun(y, steps);
            && y'.out == Flatten(y'.log)
            && forall i :: 0 <= i < |y'.log| ==>
                 SegmentOk(y'.log[i], Flatten(y'.log[..i]), SentBy(y'.sent, y'.log[i].source))
  {
    NothingSentYet(y);
    hide *;
    JustResetInv(y);
    RunKeepsInv(y, steps);
    RunKeepsLatest(y, steps);
    SegmentsOfInv(SysRun(y, steps));
  }

  lemma NothingSentYet(y: Sys)
    requires JustReset(y)
    ensures HeadersLatest(y)
  {
    CachesSeed(map[]);
    hide Caches;
  }

  lemma SegmentsOfInv(y: Sys)
    requires SysInv(y) && HeadersLatest(y)
    ensures y.out == Flatten(y.log)
    ensures forall i :: 0 <= i < |y.log| ==> SegmentOk(y.log[i], Flatten(y.log[..i]), SentBy(y.sent, y.log[i].source))
  {
    hide Flatten, OrderedHeaderKeys, CanonicalOrder, IsAnchor, AllBelow, TracksForward, TracksKnown, Caches;
    forall i | 0 <= i < |y.log| ensures SegmentOk(y.log[i], Flatten(y.log[..i]), SentBy(y.sent, y.log[i].source)) {
      OrderedHeaderKeysCanonical(y.log[i].headers.Keys);
      SwitchTimeNotNegative(y.log, i);
    }
  }

  lemma SwitchTimeNotNegative(log: seq<Segment>, i: nat)
    requires i < |log|
    ensures Shift(log[i].anchor, OffsetOf(log[i])).ts == if log[i].at + SWITCH_STEP_MS < 0 then 0 else log[i].at + SWITCH_STEP_MS
  {
  }

  // ----- callbacks -----

  function CallsOf(calls: seq<Call>, callback: nat): nat
  {
    if calls == [] then 0
    else CallsOf(calls[..|calls| - 1], callback) + if calls[|calls| - 1].callback == callback then 1 else 0
  }

  lemma CallsSnoc(calls: seq<Call>, call: Call, callback: nat)
    ensures CallsOf(calls + [call], callback) == CallsOf(calls, callback) + if call.callback == callback then 1 else 0
  {
    assert (calls + [call])[..|calls|] == calls;
  }

  predicate Requests(steps: seq<Step>, callback: nat)
  {
    exists step :: step in steps && step.Request? && step.callback == Some(callback)
  }

  lemma StepCalls(y: Sys, step: Step, callback: nat)
    requires !(step.Request? && step.callback == Some(callback))
    ensures var y' := SysStep(y, step);
            && CallsOf(y'.calls, callback) + (if y'.s.callback == Some(callback) then 1 else 0)
               <= CallsOf(y.calls, callback) + (if y.s.callback == Some(callback) then 1 else 0)
            && CallsOf(y'.calls, callback) >= CallsOf(y.calls, callback)
  {
    hide TimelineStep, IsAnchor, ParamsChanged, IsHeader, KeyOf, Grow, Meet, SentBy, CallsOf;
    match step
    case Read(r, source, tag) =>
    case Decide(r, now) =>
      if y.s.callback.Some? && r in y.readers {
        CallsSnoc(y.calls, Call(y.s.callback.value, ParamsChanged(y.s, y.readers[r].source)), callback);
      }
    case Place(r) =>
      if r in y.readers {
        TimelineKeepsCallback(y.s, y.readers[r].source, y.readers[r].tag);
      }
    case SetActive(to) =>
    case Request(source, cb, notBefore) =>
  }

  lemma TimelineKeepsCallback(s: State, source: Source, tag: Tag)
    ensures TimelineStep(s, source, tag).0.callback == s.callback
  {
    hide IsAnchor, TooEarly, Behind, IsMedia, HeaderBlock, Shift, KeyOf;
  }

  /** A callback is called at most once for its request, and never once the request was replaced, cancelled or
      served: over any run that does not request it anew, it is called at most as often as it is pending. */
  lemma {:induction false} CallbackAtMostOnce(y: Sys, steps: seq<Step>, callback: nat)
    requires !Requests(steps, callback)
    ensures var y' := SysRun(y, steps);
            CallsOf(y'.calls, callback) <= CallsOf(y.calls, callback) + (if y.s.callback == Some(callback) then 1 else 0)
    decreases |steps|
  {
    hide SysStep, CallsOf;
    if steps != [] {
      assert steps[0] in steps && forall step :: step in steps[1..] ==> step in steps;
      StepCalls(y, steps[0], callback);
      CallbackAtMostOnce(SysStep(y, steps[0]), steps[1..], callback);
    }
  }
}
