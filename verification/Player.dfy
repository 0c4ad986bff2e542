// The backup player: segments of a fallback episode spliced into one continuous stream of tags.
module Player {
  import opened Bytes
  import opened Flv

  const STEP_MS := 1

  /** A larger gap between audio tags is a splice, not the length of a frame. */
  const AUDIO_STEP_LIMIT := 100

  datatype State = State(epOffset: int, lastOut: int, trackTs: map<Key, int>, needAnchor: bool, alignAudio: bool,
                         alignBase: map<Key, int>, audioStep: int, lastSeq: map<Key, bytes>, interrupted: bool)

  const NEW_PLAYER := State(0, 0, map[], false, false, map[], 0, map[], false)

  /** A new episode; only the audio step is remembered from the one before. */
  function ResetEpisode(s: State): State
  {
    s.(epOffset := 0, lastOut := 0, trackTs := map[], needAnchor := true, lastSeq := map[])
  }

  function BeginSegment(s: State): State
  {
    s.(interrupted := false, needAnchor := true)
  }

  function Interrupt(s: State): State
  {
    s.(interrupted := true)
  }

  /** The first tag of a segment lands one step past the latest time given out. */
  function Anchored(s: State, ts: int): State
  {
    if s.needAnchor then
      s.(epOffset := s.lastOut + STEP_MS - ts, needAnchor := false, alignAudio := true, alignBase := s.trackTs)
    else s
  }

  predicate IsAudio(tag: Tag)
  {
    tag.tagType == TAG_AUDIO && IsMedia(tag)
  }

  /** Audio goes on exactly one step after the same track's last tag before the splice. */
  predicate Aligns(s: State, tag: Tag)
  {
    s.alignAudio && IsAudio(tag) && s.audioStep != 0 && KeyOf(tag) in s.alignBase
  }

  function Aligned(s: State, tag: Tag): State
  {
    if Aligns(s, tag) then s.(epOffset := s.alignBase[KeyOf(tag)] + s.audioStep - tag.ts, alignAudio := false) else s
  }

  predicate Behind(s: State, tag: Tag, outTs: int)
  {
    IsMedia(tag) && KeyOf(tag) in s.trackTs && outTs < s.trackTs[KeyOf(tag)]
  }

  predicate Repeats(s: State, tag: Tag)
  {
    IsHeader(tag) && KeyOf(tag) in s.lastSeq && s.lastSeq[KeyOf(tag)] == tag.payload
  }

  function NextAudioStep(s: State, tag: Tag, outTs: int): int
  {
    if tag.tagType == TAG_AUDIO && KeyOf(tag) in s.trackTs && 0 < outTs - s.trackTs[KeyOf(tag)] < AUDIO_STEP_LIMIT
    then outTs - s.trackTs[KeyOf(tag)] else s.audioStep
  }

  function Recorded(s: State, tag: Tag, outTs: int): State
  {
    if IsHeader(tag) then s.(lastSeq := s.lastSeq[KeyOf(tag) := tag.payload])
    else
      s.(audioStep := NextAudioStep(s, tag, outTs), trackTs := s.trackTs[KeyOf(tag) := outTs],
         lastOut := if outTs > s.lastOut then outTs else s.lastOut)
  }

  function Placing(s: State, tag: Tag): State
  {
    Aligned(Anchored(s, tag.ts), tag)
  }

  function OutTs(s: State, tag: Tag): int
  {
    tag.ts + Placing(s, tag).epOffset
  }

  predicate Skips(s: State, tag: Tag)
  {
    var s1 := Placing(s, tag);
    Behind(s1, tag, tag.ts + s1.epOffset) || Repeats(s1, tag)
  }

  function TagStep(s: State, tag: Tag): State
  {
    if s.interrupted then s
    else
      var s1 := Placing(s, tag);
      if Skips(s, tag) then s1 else Recorded(s1, tag, tag.ts + s1.epOffset)
  }

  function Emitted(s: State, tag: Tag): seq<Tag>
  {
    if s.interrupted || Skips(s, tag) then [] else [Tag(tag.tagType, OutTs(s, tag), tag.payload)]
  }

  // ----- the object -----

  class Player {
    var epOffset: int
    var lastOutTs: int
    var trackTs: map<Key, int>
    var needAnchor: bool
    var alignAudio: bool
    var alignBase: map<Key, int>
    var audioStep: int
    var lastSeq: map<Key, bytes>
    var interrupted: bool
    var processed: seq<Tag>

    function Abs(): State
      reads this
    {
      State(epOffset, lastOutTs, trackTs, needAnchor, alignAudio, alignBase, audioStep, lastSeq, interrupted)
    }

    constructor ()
      ensures Abs() == NEW_PLAYER && processed == []
    {
      epOffset, lastOutTs, trackTs, needAnchor, alignAudio := 0, 0, map[], false, false;
      alignBase, audioStep, lastSeq, interrupted, processed := map[], 0, map[], false, [];
    }

    method StartEpisode()
      modifies `epOffset, `lastOutTs, `trackTs, `needAnchor, `lastSeq
      ensures Abs() == ResetEpisode(old(Abs()))
    {
      epOffset, lastOutTs, trackTs, needAnchor, lastSeq := 0, 0, map[], true, map[];
    }

    method StartSegment()
      modifies `interrupted, `needAnchor
      ensures Abs() == BeginSegment(old(Abs()))
    {
      interrupted, needAnchor := false, true;
    }

    method Kill()
      modifies `interrupted
      ensures Abs() == Interrupt(old(Abs()))
    {
      interrupted := true;
    }

    method Place(tag: Tag) returns (outTs: int)
      modifies `epOffset, `needAnchor, `alignAudio, `alignBase
      ensures Abs() == Placing(old(Abs()), tag) && outTs == OutTs(old(Abs()), tag)
    {
      hide KeyOf, IsMedia;
      if needAnchor {
        epOffset := lastOutTs + STEP_MS - tag.ts;
        needAnchor, alignAudio, alignBase := false, true, trackTs;
      }
      outTs := tag.ts + epOffset;
      if alignAudio && IsAudio(tag) && audioStep != 0 && KeyOf(tag) in alignBase {
        var shift := alignBase[KeyOf(tag)] + audioStep - outTs;
        epOffset := epOffset + shift;
        outTs := outTs + shift;
        alignAudio := false;
      }
    }

    method Record(tag: Tag, outTs: int)
      modifies `lastSeq, `audioStep, `trackTs, `lastOutTs
      ensures Abs() == Recorded(old(Abs()), tag, outTs)
    {
      hide KeyOf, IsHeader;
      if IsHeader(tag) {
        lastSeq := lastSeq[KeyOf(tag) := tag.payload];
        return;
      }
      if tag.tagType == TAG_AUDIO && KeyOf(tag) in trackTs {
        var step := outTs - trackTs[KeyOf(tag)];
        if 0 < step < AUDIO_STEP_LIMIT {
          audioStep := step;
        }
      }
      trackTs := trackTs[KeyOf(tag) := outTs];
      if outTs > lastOutTs {
        lastOutTs := outTs;
      }
    }

    method OnTag(tag: Tag)
      modifies `epOffset, `needAnchor, `alignAudio, `alignBase, `lastSeq, `audioStep, `trackTs, `lastOutTs, `processed
      ensures Abs() == TagStep(old(Abs()), tag) && processed == old(processed) + Emitted(old(Abs()), tag)
    {
      hide KeyOf, IsHeader, IsMedia, Placing, Recorded;
      if interrupted {
        return;
      }
      var outTs := Place(tag);
      if IsMedia(tag) && KeyOf(tag) in trackTs && outTs < trackTs[KeyOf(tag)] {
        return;
      }
      if IsHeader(tag) && KeyOf(tag) in lastSeq && lastSeq[KeyOf(tag)] == tag.payload {
        return;
      }
      Record(tag, outTs);
      processed := processed + [Tag(tag.tagType, outTs, tag.payload)];
    }
  }

  // ----- episodes -----

  datatype Step = NewSegment | Killed | Arrives(tag: Tag)

  function EpisodeStep(s: State, step: Step): (State, seq<Tag>)
  {
    match step
    case NewSegment => (BeginSegment(s), [])
    case Killed => (Interrupt(s), [])
    case Arrives(tag) => (TagStep(s, tag), Emitted(s, tag))
  }

  function Episode(s: State, steps: seq<Step>): (State, seq<Tag>)
  {
    if steps == [] then (s, [])
    else
      var (s1, out) := Episode(s, steps[..|steps| - 1]);
      var (s2, more) := EpisodeStep(s1, steps[|steps| - 1]);
      (s2, out + more)
  }

  /** On every track, media timestamps never decrease. */
  ghost predicate TracksForward(out: seq<Tag>)
  {
    forall i, j :: 0 <= i < j < |out| && IsMedia(out[i]) && IsMedia(out[j]) && KeyOf(out[i]) == KeyOf(out[j]) ==>
      out[i].ts <= out[j].ts
  }

  ghost predicate TracksKnown(out: seq<Tag>, trackTs: map<Key, int>)
  {
    forall i :: 0 <= i < |out| && IsMedia(out[i]) ==> KeyOf(out[i]) in trackTs && out[i].ts <= trackTs[KeyOf(out[i])]
  }

  /** No header repeats the one before it of the same key. */
  ghost predicate NoRepeats(out: seq<Tag>)
  {
    forall i :: 0 <= i < |out| && IsHeader(out[i]) ==> LatestHeader(out[..i], KeyOf(out[i])) != Some(out[i].payload)
  }

  ghost predicate Inv(s: State, out: seq<Tag>)
  {
    && TracksForward(out)
    && TracksKnown(out, s.trackTs)
    && NoRepeats(out)
    && (forall key :: LatestHeader(out, key) == if key in s.lastSeq then Some(s.lastSeq[key]) else None)
    && (forall key :: key in s.trackTs ==> s.trackTs[key] <= s.lastOut)
  }

  lemma MediaOrHeader(tag: Tag)
    ensures IsMedia(tag) <==> !IsHeader(tag)
  {
  }

  lemma SameKind(tag: Tag, ts: int)
    ensures var t := Tag(tag.tagType, ts, tag.payload);
            IsMedia(t) == IsMedia(tag) && IsHeader(t) == IsHeader(tag) && KeyOf(t) == KeyOf(tag)
  {
    hide IsSeqHeader, HeaderKey;
  }

  lemma ForwardSnoc(out: seq<Tag>, trackTs: map<Key, int>, tag: Tag)
    requires TracksForward(out) && TracksKnown(out, trackTs)
    requires IsMedia(tag) && KeyOf(tag) in trackTs ==> trackTs[KeyOf(tag)] <= tag.ts
    ensures TracksForward(out + [tag])
    ensures TracksKnown(out + [tag], if IsMedia(tag) then trackTs[KeyOf(tag) := tag.ts] else trackTs)
  {
    hide KeyOf, IsMedia;
  }

  lemma NoRepeatsSnoc(out: seq<Tag>, tag: Tag)
    requires NoRepeats(out)
    requires IsHeader(tag) ==> LatestHeader(out, KeyOf(tag)) != Some(tag.payload)
    ensures NoRepeats(out + [tag])
    ensures forall key :: LatestHeader(out + [tag], key) ==
                          if IsHeader(tag) && KeyOf(tag) == key then Some(tag.payload) else LatestHeader(out, key)
  {
    hide KeyOf, IsHeader;
    var all := out + [tag];
    assert all[..|out|] == out;
    forall i | 0 <= i < |all| && IsHeader(all[i]) ensures LatestHeader(all[..i], KeyOf(all[i])) != Some(all[i].payload) {
      assert all[..i] == if i == |out| then out else out[..i];
    }
  }

  lemma PlacingKeeps(s: State, tag: Tag)
    ensures var s1 := Placing(s, tag);
            s1.trackTs == s.trackTs && s1.lastSeq == s.lastSeq && s1.lastOut == s.lastOut && s1.audioStep == s.audioStep
            && !s1.needAnchor
  {
    hide KeyOf, IsMedia;
  }

  lemma TagKeepsInv(s: State, out: seq<Tag>, tag: Tag)
    requires Inv(s, out)
    ensures Inv(TagStep(s, tag), out + Emitted(s, tag))
  {
    hide KeyOf, IsMedia, IsHeader, Placing, TracksForward, TracksKnown, NoRepeats, LatestHeader;
    PlacingKeeps(s, tag);
    MediaOrHeader(tag);
    SameKind(tag, OutTs(s, tag));
    if s.interrupted || Skips(s, tag) {
      assert out + [] == out;
    } else {
      var line := Tag(tag.tagType, OutTs(s, tag), tag.payload);
      ForwardSnoc(out, s.trackTs, line);
      NoRepeatsSnoc(out, line);
    }
  }

  lemma {:induction false} EpisodeKeepsInv(s: State, steps: seq<Step>)
    requires Inv(s, [])
    ensures var (s', out) := Episode(s, steps); Inv(s', out)
    decreases |steps|
  {
    hide TagStep, Emitted, TracksForward, TracksKnown, NoRepeats, LatestHeader;
    if steps != [] {
      var init := steps[..|steps| - 1];
      EpisodeKeepsInv(s, init);
      var (s1, out) := Episode(s, init);
      match steps[|steps| - 1]
      case NewSegment => assert out + [] == out;
      case Killed => assert out + [] == out;
      case Arrives(tag) => TagKeepsInv(s1, out, tag);
    }
  }

  lemma NewEpisodeInv(s: State)
    ensures Inv(ResetEpisode(s), [])
  {
    hide KeyOf, IsMedia;
  }

  /** Through any sequence of segments in one episode, whatever was interrupted: timestamps never go back on any
      track, and a header goes out only when it differs from the one before it of its key. */
  lemma EpisodeIsContinuous(before: State, steps: seq<Step>)
    ensures var out := Episode(ResetEpisode(before), steps).1; TracksForward(out) && NoRepeats(out)
  {
    NewEpisodeInv(before);
    EpisodeKeepsInv(ResetEpisode(before), steps);
    hide Episode, TracksForward, NoRepeats;
  }

  // ----- the audio step -----

  /** The time between an audio tag and its track's last, when it is a frame's and not a splice's. */
  function GapOf(before: seq<Tag>, tag: Tag): Option<int>
  {
    if !IsAudio(tag) then None
    else
      match LastTime(before, KeyOf(tag))
      case None => None
      case Some(t) => if 0 < tag.ts - t < AUDIO_STEP_LIMIT then Some(tag.ts - t) else None
  }

  /** The latest such gap in what went out. */
  function LatestStep(out: seq<Tag>, first: int): int
  {
    if out == [] then first
    else
      match GapOf(out[..|out| - 1], out[|out| - 1])
      case None => LatestStep(out[..|out| - 1], first)
      case Some(gap) => gap
  }

  ghost predicate TimesKept(s: State, out: seq<Tag>, first: int)
  {
    && (forall key :: LastTime(out, key) == if key in s.trackTs then Some(s.trackTs[key]) else None)
    && s.audioStep == LatestStep(out, first)
  }

  lemma TimesSnoc(out: seq<Tag>, line: Tag, first: int)
    ensures LatestStep(out + [line], first)
            == (match GapOf(out, line) case None => LatestStep(out, first) case Some(gap) => gap)
    ensures forall key :: LastTime(out + [line], key)
                          == if IsMedia(line) && KeyOf(line) == key then Some(line.ts) else LastTime(out, key)
  {
    hide GapOf, IsMedia, KeyOf;
    assert (out + [line])[..|out|] == out;
  }

  lemma TagKeepsTimes(s: State, out: seq<Tag>, tag: Tag, first: int)
    requires TimesKept(s, out, first)
    ensures TimesKept(TagStep(s, tag), out + Emitted(s, tag), first)
  {
    hide KeyOf, IsMedia, IsHeader, Placing, LastTime, LatestStep;
    PlacingKeeps(s, tag);
    MediaOrHeader(tag);
    SameKind(tag, OutTs(s, tag));
    if s.interrupted || Skips(s, tag) {
      assert out + [] == out;
    } else {
      TimesSnoc(out, Tag(tag.tagType, OutTs(s, tag), tag.payload), first);
    }
  }

  lemma {:induction false} EpisodeKeepsTimes(s: State, steps: seq<Step>, first: int)
    requires TimesKept(s, [], first)
    ensures var (s', out) := Episode(s, steps); TimesKept(s', out, first)
    decreases |steps|
  {
    hide TagStep, Emitted, LastTime, LatestStep;
    if steps != [] {
      var init := steps[..|steps| - 1];
      EpisodeKeepsTimes(s, init, first);
      var (s1, out) := Episode(s, init);
      match steps[|steps| - 1]
      case NewSegment => assert out + [] == out;
      case Killed => assert out + [] == out;
      case Arrives(tag) => TagKeepsTimes(s1, out, tag, first);
    }
  }

  /** The audio step known at any moment of an episode is the latest gap, of less than 100 ms, between two successive
      audio tags of one track that went out; before there is one, that of the episode before. */
  lemma AudioStepIsLatestGap(before: State, steps: seq<Step>)
    ensures var (s, out) := Episode(ResetEpisode(before), steps);
            && s.audioStep == LatestStep(out, before.audioStep)
            && forall key :: key in s.trackTs ==> LastTime(out, key) == Some(s.trackTs[key])
  {
    EpisodeKeepsTimes(ResetEpisode(before), steps, before.audioStep);
    hide Episode, LastTime, LatestStep;
  }

  // ----- splices -----

  /** The first tag of a segment lands one step past everything before it, unless it is audio that is aligned. */
  lemma SegmentBeginsOneStepOn(s: State, tag: Tag)
    requires !s.interrupted && s.needAnchor && !Aligns(Anchored(s, tag.ts), tag)
    requires forall key :: key in s.trackTs ==> s.trackTs[key] <= s.lastOut
    ensures OutTs(s, tag) == s.lastOut + STEP_MS
    ensures IsMedia(tag) ==> Emitted(s, tag) == [Tag(tag.tagType, s.lastOut + STEP_MS, tag.payload)]
  {
    MediaOrHeader(tag);
    hide KeyOf, IsMedia, IsHeader;
  }

  /** Between the anchor of a segment and its first running audio track, the base stays true. */
  ghost predicate Waiting(s: State, base: map<Key, int>)
  {
    && !s.interrupted && !s.needAnchor && s.alignAudio && s.alignBase == base
    && forall key :: key in base && (key.Audio? || key.AudioTrack?) ==> key in s.trackTs && s.trackTs[key] == base[key]
  }

  lemma AudioKeys(tag: Tag)
    ensures tag.tagType == TAG_AUDIO ==> KeyOf(tag).Audio? || KeyOf(tag).AudioTrack?
  {
  }

  /** A tag of an audio track that was running at the splice. */
  predicate ContinuesAudio(base: map<Key, int>, tag: Tag)
  {
    IsMedia(tag) && (KeyOf(tag).Audio? || KeyOf(tag).AudioTrack?) && KeyOf(tag) in base
  }

  /** Tags that are no running audio leave the splice waiting. */
  lemma WaitingStays(s: State, base: map<Key, int>, tag: Tag)
    requires Waiting(s, base) && !ContinuesAudio(base, tag)
    ensures Waiting(TagStep(s, tag), base)
  {
    AudioKeys(tag);
    MediaOrHeader(tag);
    hide KeyOf, IsMedia, IsHeader;
  }

  lemma WaitingBegins(s: State, tag: Tag)
    requires !s.interrupted && s.needAnchor && !ContinuesAudio(s.trackTs, tag)
    ensures Waiting(TagStep(s, tag), s.trackTs)
  {
    AudioKeys(tag);
    MediaOrHeader(tag);
    hide KeyOf, IsMedia, IsHeader;
  }

  function AllArrive(s: State, tags: seq<Tag>): State
  {
    if tags == [] then s else TagStep(AllArrive(s, tags[..|tags| - 1]), tags[|tags| - 1])
  }

  lemma {:induction false} WaitingLasts(s: State, tags: seq<Tag>)
    requires !s.interrupted && s.needAnchor && tags != []
    requires forall t :: t in tags ==> !ContinuesAudio(s.trackTs, t)
    ensures Waiting(AllArrive(s, tags), s.trackTs)
    decreases |tags|
  {
    hide KeyOf, ContinuesAudio, TagStep, Waiting;
    var init, last := tags[..|tags| - 1], tags[|tags| - 1];
    assert last in tags;
    if init == [] {
      WaitingBegins(s, last);
    } else {
      WaitingLasts(s, init);
      WaitingStays(AllArrive(s, init), s.trackTs, last);
    }
  }

  /** Where a splice stands when its first running audio comes, the segment's own first tag or after others. */
  lemma AudioComes(s: State, tags: seq<Tag>, audio: Tag)
    requires !s.interrupted && s.needAnchor && (forall t :: t in tags ==> !ContinuesAudio(s.trackTs, t))
    requires IsAudio(audio) && KeyOf(audio) in s.trackTs
    ensures var s1 := Anchored(AllArrive(s, tags), audio.ts);
            && !s1.interrupted && !s1.needAnchor && s1.alignAudio && s1.audioStep == AllArrive(s, tags).audioStep
            && KeyOf(audio) in s1.alignBase && s1.alignBase[KeyOf(audio)] == s.trackTs[KeyOf(audio)]
            && KeyOf(audio) in s1.trackTs && s1.trackTs[KeyOf(audio)] == s.trackTs[KeyOf(audio)]
  {
    AudioKeys(audio);
    hide KeyOf, IsMedia, TagStep;
    if tags != [] {
      WaitingLasts(s, tags);
    }
  }

  /** The first audio tag of a track that was running at the splice is aligned if and only if the audio step is known
      when it comes: then it lands exactly one step after that track's last tag; otherwise the segment's offset, which
      its first tag set, places it. */
  lemma SpliceAlignsIff(s: State, tags: seq<Tag>, audio: Tag)
    requires !s.interrupted && s.needAnchor && (forall t :: t in tags ==> !ContinuesAudio(s.trackTs, t))
    requires IsAudio(audio) && KeyOf(audio) in s.trackTs
    ensures var s1 := AllArrive(s, tags);
            && (Aligns(Anchored(s1, audio.ts), audio) <==> s1.audioStep != 0)
            && OutTs(s1, audio) == if s1.audioStep != 0 then s.trackTs[KeyOf(audio)] + s1.audioStep
                                   else audio.ts + Anchored(s1, audio.ts).epOffset
  {
    AudioComes(s, tags, audio);
    hide KeyOf, IsMedia, AllArrive;
  }

  /** At a splice with a known audio step, the first audio tag of a track that was running lands exactly one step
      after that track's last one, whatever came before it in the segment. */
  lemma SpliceIsOneAudioStep(s: State, tags: seq<Tag>, audio: Tag)
    requires !s.interrupted && s.needAnchor && s.audioStep > 0
    requires forall t :: t in tags ==> !ContinuesAudio(s.trackTs, t)
    requires IsAudio(audio) && KeyOf(audio) in s.trackTs
    ensures var s1 := AllArrive(s, tags);
            s1.audioStep > 0 &&
            Emitted(s1, audio) == [Tag(audio.tagType, s.trackTs[KeyOf(audio)] + s1.audioStep, audio.payload)]
  {
    MediaOrHeader(audio);
    StepStaysPositive(s, tags);
    AudioComes(s, tags, audio);
    hide KeyOf, IsMedia, IsHeader, AllArrive;
  }

  lemma {:induction false} StepStaysPositive(s: State, tags: seq<Tag>)
    requires s.audioStep > 0
    ensures AllArrive(s, tags).audioStep > 0
    decreases |tags|
  {
    hide KeyOf, IsMedia, IsHeader;
    if tags != [] {
      StepStaysPositive(s, tags[..|tags| - 1]);
    }
  }

  /** While the step is unknown at a splice, the first running audio goes where the segment's offset puts it. If that
      is less than 100 ms past its track's last tag, the gap is taken for the step and alignment comes late, and only
      then: the second audio tag repeats the first one's time, and the whole segment moves back with it. */
  lemma LateAlignmentIff(s: State, tags: seq<Tag>, first: Tag, second: Tag)
    requires !s.interrupted && s.needAnchor && (forall t :: t in tags ==> !ContinuesAudio(s.trackTs, t))
    requires IsAudio(first) && IsAudio(second) && KeyOf(first) == KeyOf(second) && KeyOf(first) in s.trackTs
    requires AllArrive(s, tags).audioStep == 0
    ensures var s1 := AllArrive(s, tags);
            var s2 := TagStep(s1, first);
            var offset := Anchored(s1, first.ts).epOffset;
            var late := 0 < first.ts + offset - s.trackTs[KeyOf(first)] < AUDIO_STEP_LIMIT;
            && OutTs(s1, first) == first.ts + offset
            && (Aligns(s2, second) <==> late)
            && OutTs(s2, second) == (if late then first.ts + offset else second.ts + offset)
            && Placing(s2, second).epOffset == (if late then offset - (second.ts - first.ts) else offset)
            && (late ==> Emitted(s1, first) == [Tag(first.tagType, first.ts + offset, first.payload)]
                         && Emitted(s2, second) == [Tag(second.tagType, first.ts + offset, second.payload)])
  {
    AudioComes(s, tags, first);
    MediaOrHeader(first);
    MediaOrHeader(second);
    FirstUnaligned(AllArrive(s, tags), first, s.trackTs[KeyOf(first)]);
    hide KeyOf, IsMedia, IsHeader, AllArrive, TagStep;
  }

  lemma FirstUnaligned(s: State, first: Tag, last: int)
    requires IsAudio(first) && s.audioStep == 0
    requires var s1 := Anchored(s, first.ts);
             && !s1.interrupted && !s1.needAnchor && s1.alignAudio
             && KeyOf(first) in s1.alignBase && s1.alignBase[KeyOf(first)] == last
             && KeyOf(first) in s1.trackTs && s1.trackTs[KeyOf(first)] == last
    ensures var s2 := TagStep(s, first);
            var gap := first.ts + Anchored(s, first.ts).epOffset - last;
            && !s2.interrupted && !s2.needAnchor && s2.alignAudio && s2.epOffset == Anchored(s, first.ts).epOffset
            && KeyOf(first) in s2.alignBase && s2.alignBase[KeyOf(first)] == last
            && KeyOf(first) in s2.trackTs && s2.trackTs[KeyOf(first)] == (if gap >= 0 then last + gap else last)
            && s2.audioStep == if 0 < gap < AUDIO_STEP_LIMIT then gap else 0
  {
    MediaOrHeader(first);
    hide KeyOf, IsMedia, IsHeader;
  }
}
