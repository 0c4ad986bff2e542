// Where every tag of an episode goes, told by what has arrived and gone out before it.
module PlayerExact {
  import opened Bytes
  import opened Flv
  import opened Player

  function OutOf(before: State, steps: seq<Step>): seq<Tag>
  {
    Episode(ResetEpisode(before), steps).1
  }

  /** Killed, with no segment begun since. */
  predicate Quiet(before: State, steps: seq<Step>)
  {
    if steps == [] then before.interrupted
    else
      match steps[|steps| - 1]
      case NewSegment => false
      case Killed => true
      case Arrives(_) => Quiet(before, steps[..|steps| - 1])
  }

  /** The first tag heard of the current segment. */
  function FirstHeard(before: State, steps: seq<Step>): Option<Tag>
  {
    if steps == [] then None
    else
      var init := steps[..|steps| - 1];
      match steps[|steps| - 1]
      case NewSegment => None
      case Killed => FirstHeard(before, init)
      case Arrives(tag) => if Quiet(before, init) || FirstHeard(before, init).Some? then FirstHeard(before, init) else Some(tag)
  }

  /** What had gone out when the current segment began. */
  function Earlier(before: State, steps: seq<Step>): seq<Tag>
  {
    if steps == [] then []
    else if steps[|steps| - 1].NewSegment? then OutOf(before, steps[..|steps| - 1])
    else Earlier(before, steps[..|steps| - 1])
  }

  /** The audio step known by now. */
  function StepNow(before: State, steps: seq<Step>): int
  {
    LatestStep(OutOf(before, steps), before.audioStep)
  }

  /** The offset that puts the current segment's first running audio, come with the step known, one step after its
      track's last tag before the segment. */
  function Alignment(before: State, steps: seq<Step>): Option<int>
  {
    if steps == [] then None
    else
      var init := steps[..|steps| - 1];
      match steps[|steps| - 1]
      case NewSegment => None
      case Killed => Alignment(before, init)
      case Arrives(tag) =>
        if Quiet(before, init) || Alignment(before, init).Some? then Alignment(before, init)
        else if !IsAudio(tag) || StepNow(before, init) == 0 then None
        else
          match LastTime(Earlier(before, init), KeyOf(tag))
          case None => None
          case Some(last) => Some(last + StepNow(before, init) - tag.ts)
  }

  /** The latest media time, and 0 before there is any. */
  function MediaTop(out: seq<Tag>): int
  {
    if out == [] then 0
    else
      var (top, last) := (MediaTop(out[..|out| - 1]), out[|out| - 1]);
      if IsMedia(last) && last.ts > top then last.ts else top
  }

  /** The offset of the current segment: as its audio was aligned, or else one step past all before its first tag. */
  function OffsetOf(before: State, steps: seq<Step>): int
    requires FirstHeard(before, steps).Some?
  {
    match Alignment(before, steps)
    case Some(offset) => offset
    case None => MediaTop(Earlier(before, steps)) + STEP_MS - FirstHeard(before, steps).value.ts
  }

  ghost predicate Told(s: State, before: State, steps: seq<Step>)
  {
    var (out, first) := (OutOf(before, steps), FirstHeard(before, steps));
    && (s.interrupted <==> Quiet(before, steps))
    && (s.needAnchor <==> first.None?)
    && s.lastOut == MediaTop(out)
    && Inv(s, out) && TimesKept(s, out, before.audioStep)
    && (match first
        case None => out == Earlier(before, steps) && Alignment(before, steps).None?
        case Some(_) =>
          && s.epOffset == OffsetOf(before, steps)
          && (s.alignAudio <==> Alignment(before, steps).None?)
          && forall key :: LastTime(Earlier(before, steps), key) == if key in s.alignBase then Some(s.alignBase[key]) else None)
  }

  lemma StepsSnoc(before: State, steps: seq<Step>, step: Step)
    ensures (steps + [step])[..|steps|] == steps
    ensures var (s, all) := (Episode(ResetEpisode(before), steps).0, steps + [step]);
            && Episode(ResetEpisode(before), all).0 == EpisodeStep(s, step).0
            && OutOf(before, all) == OutOf(before, steps) + EpisodeStep(s, step).1
  {
    assert (steps + [step])[..|steps|] == steps;
    hide EpisodeStep;
  }

  lemma TopSnoc(out: seq<Tag>, tag: Tag)
    ensures MediaTop(out + [tag]) == if IsMedia(tag) && tag.ts > MediaTop(out) then tag.ts else MediaTop(out)
  {
    assert (out + [tag])[..|out|] == out;
  }

  /** The alignment after a tag is heard. */
  function AlignedBy(alignment: Option<int>, earlier: seq<Tag>, step: int, tag: Tag): Option<int>
  {
    if alignment.Some? || !IsAudio(tag) || step == 0 then alignment
    else
      match LastTime(earlier, KeyOf(tag))
      case None => None
      case Some(last) => Some(last + step - tag.ts)
  }

  lemma Unchanged(before: State, steps: seq<Step>, tag: Tag)
    requires !Quiet(before, steps)
    ensures var all := steps + [Arrives(tag)];
            && Earlier(before, all) == Earlier(before, steps)
            && FirstHeard(before, all) == (if FirstHeard(before, steps).Some? then FirstHeard(before, steps) else Some(tag))
            && Alignment(before, all) == AlignedBy(Alignment(before, steps), Earlier(before, steps), StepNow(before, steps), tag)
  {
    assert (steps + [Arrives(tag)])[..|steps|] == steps;
    hide OutOf, LastTime, IsAudio, KeyOf, LatestStep;
  }

  lemma AlignsAsTold(s: State, alignment: Option<int>, earlier: seq<Tag>, tag: Tag)
    requires s.alignAudio <==> alignment.None?
    requires forall key :: LastTime(earlier, key) == if key in s.alignBase then Some(s.alignBase[key]) else None
    ensures var (s1, al) := (Aligned(s, tag), AlignedBy(alignment, earlier, s.audioStep, tag));
            && s1.needAnchor == s.needAnchor && s1.alignBase == s.alignBase && (s1.alignAudio <==> al.None?)
            && s1.epOffset == (if al.Some? && alignment.None? then al.value else s.epOffset)
  {
    hide IsAudio, KeyOf, LastTime;
    assert LastTime(earlier, KeyOf(tag)) == if KeyOf(tag) in s.alignBase then Some(s.alignBase[KeyOf(tag)]) else None;
  }

  /** A tag that is heard: where it is put. */
  lemma PlacedAsTold(s: State, before: State, steps: seq<Step>, tag: Tag)
    requires Told(s, before, steps) && !Quiet(before, steps)
    ensures var (s1, all) := (Placing(s, tag), steps + [Arrives(tag)]);
            && !s1.needAnchor && FirstHeard(before, all).Some?
            && s1.epOffset == OffsetOf(before, all)
            && (s1.alignAudio <==> Alignment(before, all).None?)
            && (forall key :: LastTime(Earlier(before, all), key) == if key in s1.alignBase then Some(s1.alignBase[key]) else None)
  {
    Unchanged(before, steps, tag);
    AnchoredAsTold(s, before, steps, tag);
    AlignsAsTold(Anchored(s, tag.ts), Alignment(before, steps), Earlier(before, steps), tag);
    hide Aligned, Anchored, AlignedBy, LastTime, MediaTop, OutOf, FirstHeard, Alignment, Earlier, Quiet, Told, StepNow;
  }

  lemma AnchoredAsTold(s: State, before: State, steps: seq<Step>, tag: Tag)
    requires Told(s, before, steps) && !Quiet(before, steps)
    ensures var (s1, first) := (Anchored(s, tag.ts), FirstHeard(before, steps));
            && !s1.needAnchor && (s1.alignAudio <==> Alignment(before, steps).None?) && s1.audioStep == StepNow(before, steps)
            && s1.epOffset == (if first.Some? then OffsetOf(before, steps) else MediaTop(Earlier(before, steps)) + STEP_MS - tag.ts)
            && (first.None? ==> Alignment(before, steps).None?)
            && (forall key :: LastTime(Earlier(before, steps), key) == if key in s1.alignBase then Some(s1.alignBase[key]) else None)
  {
    hide KeyOf, IsMedia, LastTime, LatestStep, MediaTop, TracksForward, TracksKnown, NoRepeats, LatestHeader, OutOf, FirstHeard,
      Alignment, Earlier, Quiet;
  }

  /** What goes out for a tag, told by what has gone out before. */
  function LineFor(before: State, steps: seq<Step>, tag: Tag): seq<Tag>
  {
    var all := steps + [Arrives(tag)];
    if Quiet(before, steps) || FirstHeard(before, all).None? then []
    else
      var (out, ts) := (OutOf(before, steps), tag.ts + OffsetOf(before, all));
      if IsHeader(tag) then
        if LatestHeader(out, KeyOf(tag)) == Some(tag.payload) then [] else [Tag(tag.tagType, ts, tag.payload)]
      else
        match LastTime(out, KeyOf(tag))
        case Some(last) => if ts < last then [] else [Tag(tag.tagType, ts, tag.payload)]
        case None => [Tag(tag.tagType, ts, tag.payload)]
  }

  lemma EmittedAt(s: State, out: seq<Tag>, tag: Tag, offset: int, first: int)
    requires !s.interrupted && Placing(s, tag).epOffset == offset && Inv(s, out) && TimesKept(s, out, first)
    ensures var (ts, last) := (tag.ts + offset, LastTime(out, KeyOf(tag)));
            Emitted(s, tag) ==
            if IsHeader(tag) && LatestHeader(out, KeyOf(tag)) == Some(tag.payload) then []
            else if !IsHeader(tag) && last.Some? && ts < last.value then []
            else [Tag(tag.tagType, ts, tag.payload)]
  {
    PlacingKeeps(s, tag);
    MediaOrHeader(tag);
    hide KeyOf, IsMedia, IsHeader, LastTime, LatestStep, TracksForward, TracksKnown, NoRepeats, LatestHeader, Placing;
  }

  lemma EmittedAsTold(s: State, before: State, steps: seq<Step>, tag: Tag)
    requires Told(s, before, steps)
    ensures Emitted(s, tag) == LineFor(before, steps, tag)
  {
    if Quiet(before, steps) {
      hide OutOf, Earlier, Alignment, FirstHeard, OffsetOf, KeyOf, IsHeader, Skips, LastTime, LatestHeader;
    } else {
      PlacedAsTold(s, before, steps, tag);
      EmittedAt(s, OutOf(before, steps), tag, OffsetOf(before, steps + [Arrives(tag)]), before.audioStep);
      hide OutOf, Earlier, Alignment, FirstHeard, OffsetOf, KeyOf, IsHeader, Skips, LastTime, LatestHeader, Emitted, Placing, Told;
    }
  }

  lemma ArrivalTells(s: State, before: State, steps: seq<Step>, tag: Tag)
    requires Told(s, before, steps) && s == Episode(ResetEpisode(before), steps).0
    ensures Told(TagStep(s, tag), before, steps + [Arrives(tag)])
  {
    StepsSnoc(before, steps, Arrives(tag));
    TagKeepsInv(s, OutOf(before, steps), tag);
    TagKeepsTimes(s, OutOf(before, steps), tag, before.audioStep);
    TopKept(s, OutOf(before, steps), tag);
    PlacingKeeps(s, tag);
    hide Inv, TimesKept;
    if Quiet(before, steps) {
      hide OffsetOf, OutOf, MediaTop, LastTime;
      QuietTells(s, before, steps, tag);
    } else {
      PlacedAsTold(s, before, steps, tag);
      hide OffsetOf, OutOf, MediaTop, LastTime, Alignment, Earlier, FirstHeard, Placing, KeyOf, IsMedia, IsHeader, Emitted, Skips;
      HeardKeepsPlace(s, tag);
    }
  }

  lemma HeardKeepsPlace(s: State, tag: Tag)
    requires !s.interrupted
    ensures var (s1, s2) := (Placing(s, tag), TagStep(s, tag));
            && !s2.interrupted && s2.needAnchor == s1.needAnchor && s2.epOffset == s1.epOffset && s2.alignAudio == s1.alignAudio
            && s2.alignBase == s1.alignBase
  {
    hide KeyOf, IsMedia, IsHeader;
  }

  lemma QuietTells(s: State, before: State, steps: seq<Step>, tag: Tag)
    requires Quiet(before, steps) && Told(s, before, steps) && s == Episode(ResetEpisode(before), steps).0
    ensures var all := steps + [Arrives(tag)];
            && Quiet(before, all) && FirstHeard(before, all) == FirstHeard(before, steps) && OutOf(before, all) == OutOf(before, steps)
            && Earlier(before, all) == Earlier(before, steps) && Alignment(before, all) == Alignment(before, steps)
            && TagStep(s, tag) == s
            && (FirstHeard(before, all).Some? ==> OffsetOf(before, all) == OffsetOf(before, steps))
  {
    StepsSnoc(before, steps, Arrives(tag));
    hide MediaTop, LastTime, LatestStep, IsMedia, KeyOf, Inv, TimesKept, OutOf;
    assert OutOf(before, steps) + [] == OutOf(before, steps);
  }

  lemma TopKept(s: State, out: seq<Tag>, tag: Tag)
    requires s.lastOut == MediaTop(out)
    ensures TagStep(s, tag).lastOut == MediaTop(out + Emitted(s, tag))
  {
    PlacingKeeps(s, tag);
    MediaOrHeader(tag);
    SameKind(tag, OutTs(s, tag));
    hide KeyOf, IsMedia, IsHeader, Placing, MediaTop;
    if s.interrupted || Skips(s, tag) {
      assert out + [] == out;
    } else {
      TopSnoc(out, Tag(tag.tagType, OutTs(s, tag), tag.payload));
    }
  }

  lemma OtherTells(s: State, before: State, steps: seq<Step>, step: Step)
    requires Told(s, before, steps) && s == Episode(ResetEpisode(before), steps).0 && !step.Arrives?
    ensures Told(EpisodeStep(s, step).0, before, steps + [step])
  {
    StepsSnoc(before, steps, step);
    hide MediaTop, LastTime, LatestStep, IsMedia, KeyOf, TracksForward, TracksKnown, NoRepeats, LatestHeader, OutOf, Episode;
    assert OutOf(before, steps) + [] == OutOf(before, steps);
  }

  lemma BeginTells(before: State)
    ensures Told(ResetEpisode(before), before, [])
  {
    NewEpisodeInv(before);
    hide KeyOf, IsMedia, Inv;
  }

  lemma {:induction false} EpisodeTells(before: State, steps: seq<Step>)
    ensures Told(Episode(ResetEpisode(before), steps).0, before, steps)
    decreases |steps|
  {
    hide Told, EpisodeStep;
    if steps == [] {
      BeginTells(before);
    } else {
      var init, last := steps[..|steps| - 1], steps[|steps| - 1];
      var s := Episode(ResetEpisode(before), init).0;
      EpisodeTells(before, init);
      assert steps == init + [last];
      StepsSnoc(before, init, last);
      match last
      case NewSegment => OtherTells(s, before, init, last);
      case Killed => OtherTells(s, before, init, last);
      case Arrives(tag) => ArrivalTells(s, before, init, tag);
      ArriveIs(s, last);
    }
  }

  lemma ArriveIs(s: State, step: Step)
    ensures step.Arrives? ==> EpisodeStep(s, step).0 == TagStep(s, step.tag)
  {
  }

  /** At any moment of an episode: an arriving tag goes out if and only if its segment has not been killed, it is not
      behind the last of its own track, and it is no header that repeats the last of its key; it goes out as it came,
      at its time plus its segment's offset, which only the alignment of the audio changes. */
  lemma TagsArePlaced(before: State, steps: seq<Step>, tag: Tag)
    ensures OutOf(before, steps + [Arrives(tag)]) == OutOf(before, steps) + LineFor(before, steps, tag)
    ensures !Quiet(before, steps) ==> FirstHeard(before, steps + [Arrives(tag)]).Some?
  {
    EpisodeTells(before, steps);
    StepsSnoc(before, steps, Arrives(tag));
    EmittedAsTold(Episode(ResetEpisode(before), steps).0, before, steps, tag);
    hide Told, LineFor, OutOf, Emitted, TagStep;
  }

  /** Nothing else goes out. */
  lemma OnlyTagsGoOut(before: State, steps: seq<Step>, step: Step)
    requires !step.Arrives?
    ensures OutOf(before, steps + [step]) == OutOf(before, steps)
  {
    StepsSnoc(before, steps, step);
    hide OutOf;
    assert OutOf(before, steps) + [] == OutOf(before, steps);
  }
}
