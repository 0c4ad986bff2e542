// The switcher's output, exactly: which of the tags that come to the timeline section open a segment, which are handed
// on, and at what times segments begin.
module SwitcherExact {
  import opened Bytes
  import opened Flv
  import opened Switcher
  import opened SwitcherRuns
  import opened SwitcherSegments

  // ----- spells -----

  /** Tags of one source that came one after another. */
  datatype Spell = Spell(source: Source, tags: seq<Tag>)

  function Spells(came: seq<Came>): seq<Spell>
  {
    if came == [] then []
    else
      var before, last := Spells(came[..|came| - 1]), came[|came| - 1];
      if before != [] && before[|before| - 1].source == last.source then
        before[..|before| - 1] + [Spell(last.source, before[|before| - 1].tags + [last.tag])]
      else before + [Spell(last.source, [last.tag])]
  }

  /** A segment as it should be: whose, its anchor, and what came after it. */
  datatype Opened = Opened(source: Source, anchor: Tag, rest: seq<Tag>)

  /** Each spell with an anchor makes one segment, from its first anchor on. */
  function OpenedBy(spells: seq<Spell>): seq<Opened>
  {
    if spells == [] then []
    else
      var last := spells[|spells| - 1];
      var a := AnchorAt(last.tags);
      OpenedBy(spells[..|spells| - 1])
      + if a < |last.tags| then [Opened(last.source, last.tags[a], last.tags[a + 1..])] else []
  }

  function ShapeOf(log: seq<Segment>, visits: seq<Visit>): seq<Opened>
    requires |visits| == |log|
  {
    seq(|log|, i requires 0 <= i < |log| => Opened(log[i].source, log[i].anchor, visits[i].tags))
  }

  /** The spells at the end that have opened nothing. */
  function Idle(spells: seq<Spell>): nat
  {
    if spells == [] || HasAnchor(spells[|spells| - 1].tags) then 0 else Idle(spells[..|spells| - 1]) + 1
  }

  /** For each segment, how many spells it took since the one before: its own, and those that came to nothing. */
  function GapsOf(spells: seq<Spell>): seq<nat>
  {
    if spells == [] then []
    else
      GapsOf(spells[..|spells| - 1])
      + if HasAnchor(spells[|spells| - 1].tags) then [Idle(spells[..|spells| - 1]) + 1] else []
  }

  function Top(out: seq<Tag>): int
  {
    if out == [] then 0
    else
      var t := Top(out[..|out| - 1]);
      if out[|out| - 1].ts > t then out[|out| - 1].ts else t
  }

  // ----- what a segment hands on -----

  /** Its track has been handed on at a later time. */
  predicate TooLate(out: seq<Tag>, tag: Tag, offset: int)
  {
    IsMedia(tag) && LastTime(out, KeyOf(tag)).Some? && Shift(tag, offset).ts < LastTime(out, KeyOf(tag)).value
  }

  /** The tags after an anchor that are handed on: all but those two kinds. */
  ghost function Through(before: seq<Tag>, tags: seq<Tag>, offset: int): seq<Tag>
  {
    if tags == [] then []
    else
      var kept, last := Through(before, tags[..|tags| - 1], offset), tags[|tags| - 1];
      if BeforeKey(tags, last) || TooLate(before + ShiftAll(kept, offset), last, offset) then kept else kept + [last]
  }

  /** All that was handed on before the tags after the anchor. */
  function UpToAnchor(log: seq<Segment>, i: nat): seq<Tag>
    requires i < |log|
  {
    Flatten(log[..i]) + Lines(log[i].(body := []))
  }

  // ----- one tag -----

  lemma SpellsSnoc(came: seq<Came>, source: Source, tag: Tag)
    ensures var sp, sp' := Spells(came), Spells(came + [Came(source, tag)]);
            && sp' != []
            && if sp != [] && sp[|sp| - 1].source == source then
                 sp' == sp[..|sp| - 1] + [Spell(source, sp[|sp| - 1].tags + [tag])]
               else sp' == sp + [Spell(source, [tag])]
  {
    assert (came + [Came(source, tag)])[..|came|] == came;
  }

  lemma OpenedSnoc(spells: seq<Spell>, spell: Spell)
    ensures OpenedBy(spells + [spell])
            == OpenedBy(spells) + if HasAnchor(spell.tags) then
                 [Opened(spell.source, spell.tags[AnchorAt(spell.tags)], spell.tags[AnchorAt(spell.tags) + 1..])] else []
    ensures Idle(spells + [spell]) == if HasAnchor(spell.tags) then 0 else Idle(spells) + 1
    ensures GapsOf(spells + [spell]) == GapsOf(spells) + if HasAnchor(spell.tags) then [Idle(spells) + 1] else []
  {
    hide AnchorAt;
    assert (spells + [spell])[..|spells|] == spells;
  }

  /** What one more tag does to the segments there should be. */
  lemma CameOpens(came: seq<Came>, source: Source, tag: Tag)
    ensures var sp, sp' := Spells(came), Spells(came + [Came(source, tag)]);
            var same := sp != [] && sp[|sp| - 1].source == source;
            var open := same && HasAnchor(sp[|sp| - 1].tags);
            var o, o' := OpenedBy(sp), OpenedBy(sp');
            && sp' != [] && sp'[|sp'| - 1].source == source
            && (HasAnchor(sp'[|sp'| - 1].tags) <==> open || IsAnchor(tag))
            && (if open then o != [] && o' == o[..|o| - 1] + [o[|o| - 1].(rest := o[|o| - 1].rest + [tag])]
                else o' == o + if IsAnchor(tag) then [Opened(source, tag, [])] else [])
            && Idle(sp') == (if open || IsAnchor(tag) then 0 else if same then Idle(sp) else Idle(sp) + 1)
            && GapsOf(sp') == GapsOf(sp) + (if !open && IsAnchor(tag) then [if same then Idle(sp) else Idle(sp) + 1] else [])
            && (open ==> Idle(sp) == 0)
  {
    SpellsSnoc(came, source, tag);
    hide *;
    var sp := Spells(came);
    if sp != [] && sp[|sp| - 1].source == source {
      assert sp == sp[..|sp| - 1] + [sp[|sp| - 1]];
      SpellGrows(sp[..|sp| - 1], sp[|sp| - 1], tag);
    } else {
      SpellBegins(sp, source, tag);
    }
  }

  lemma SpellGrows(init: seq<Spell>, last: Spell, tag: Tag)
    ensures var sp, sp' := init + [last], init + [Spell(last.source, last.tags + [tag])];
            var o, o' := OpenedBy(sp), OpenedBy(sp');
            && (HasAnchor(last.tags + [tag]) <==> HasAnchor(last.tags) || IsAnchor(tag))
            && (if HasAnchor(last.tags) then o != [] && o' == o[..|o| - 1] + [o[|o| - 1].(rest := o[|o| - 1].rest + [tag])]
                else o' == o + if IsAnchor(tag) then [Opened(last.source, tag, [])] else [])
            && Idle(sp') == (if HasAnchor(last.tags) || IsAnchor(tag) then 0 else Idle(sp))
            && GapsOf(sp') == GapsOf(sp) + (if !HasAnchor(last.tags) && IsAnchor(tag) then [Idle(sp)] else [])
            && (HasAnchor(last.tags) ==> Idle(sp) == 0)
  {
    AnchorSnoc(last.tags, tag);
    OpenedSnoc(init, last);
    OpenedSnoc(init, Spell(last.source, last.tags + [tag]));
    hide IsAnchor, AnchorAt, OpenedBy, Idle, GapsOf;
    assert GapsOf(init) + [] == GapsOf(init) && forall g: seq<nat> :: g + [] == g;
    if HasAnchor(last.tags) {
      var a := AnchorAt(last.tags);
      assert (last.tags + [tag])[a + 1..] == last.tags[a + 1..] + [tag] && (last.tags + [tag])[a] == last.tags[a];
      var o := OpenedBy(init + [last]);
      assert o[..|o| - 1] == OpenedBy(init);
    } else {
      assert IsAnchor(tag) ==> (last.tags + [tag])[|last.tags| + 1..] == [];
    }
  }

  lemma SpellBegins(sp: seq<Spell>, source: Source, tag: Tag)
    ensures var sp' := sp + [Spell(source, [tag])];
            && (HasAnchor([tag]) <==> IsAnchor(tag))
            && OpenedBy(sp') == OpenedBy(sp) + (if IsAnchor(tag) then [Opened(source, tag, [])] else [])
            && Idle(sp') == (if IsAnchor(tag) then 0 else Idle(sp) + 1)
            && GapsOf(sp') == GapsOf(sp) + if IsAnchor(tag) then [Idle(sp) + 1] else []
  {
    NoTagsNoAnchor();
    AnchorSnoc([], tag);
    assert [] + [tag] == [tag] && [tag][1..] == [];
    hide IsAnchor, AnchorAt, OpenedBy, Idle, GapsOf;
    OpenedSnoc(sp, Spell(source, [tag]));
  }

  // ----- segments are spells -----

  /** The timeline's own fields, told by what came. */
  ghost predicate SpellsTold(y: Sys)
  {
    var sp := Spells(y.came);
    && |y.visits| == |y.log|
    && ShapeOf(y.log, y.visits) == OpenedBy(sp)
    && (if sp == [] then y.s.outputSource.None? && !y.s.waitKeyframe && y.log == []
        else y.s.outputSource == Some(sp[|sp| - 1].source) && (y.s.waitKeyframe <==> !HasAnchor(sp[|sp| - 1].tags)))
  }

  lemma ShapeSnoc(log: seq<Segment>, visits: seq<Visit>, seg: Segment, visit: Visit)
    requires |visits| == |log|
    ensures ShapeOf(log + [seg], visits + [visit]) == ShapeOf(log, visits) + [Opened(seg.source, seg.anchor, visit.tags)]
  {
  }

  lemma ShapeFront(log: seq<Segment>, visits: seq<Visit>)
    requires |visits| == |log| > 0
    ensures ShapeOf(log[..|log| - 1], visits[..|log| - 1]) == ShapeOf(log, visits)[..|log| - 1]
  {
  }

  lemma OpenedNotEmpty(spells: seq<Spell>)
    requires spells != [] && HasAnchor(spells[|spells| - 1].tags)
    ensures OpenedBy(spells) != []
  {
    hide AnchorAt;
  }

  /** The shape of the log and what the timeline waits for, after a tag that was waited for or waits. */
  lemma WaitingShape(y: Sys, r: nat, source: Source, tag: Tag)
    requires r in y.readers && y.readers[r] == Passed(source, tag) && |y.visits| == |y.log|
    requires EnterStep(y.s, source).waitKeyframe
    ensures var y' := SysStep(y, Place(r));
            && y'.came == y.came + [Came(source, tag)] && |y'.visits| == |y'.log|
            && ShapeOf(y'.log, y'.visits) == ShapeOf(y.log, y.visits) + (if IsAnchor(tag) then [Opened(source, tag, [])] else [])
            && y'.s.outputSource == Some(source) && (y'.s.waitKeyframe <==> !IsAnchor(tag))
  {
    var (y', s1) := (SysStep(y, Place(r)), EnterStep(y.s, source));
    assert s1.outputSource == Some(source);
    PlaceWhileWaiting(y, r, source, tag);
    PlaceKeepsRest(OpenStep(s1, tag), tag);
    WaitingOut(y, r, source, tag);
    if IsAnchor(tag) {
      OpensSegment(y, r, source, tag);
    }
    hide EnterStep, IsAnchor, Dropped, TimelineStep, PlaceStep, Placed, Grow, Meet, SysStep, HeaderBlock;
    if IsAnchor(tag) {
      ShapeSnoc(y.log, y.visits, y'.log[|y.log|], y'.visits[|y.log|]);
      assert y'.log == y.log + [y'.log[|y.log|]] && y'.visits == y.visits + [y'.visits[|y.log|]];
    } else {
      assert ShapeOf(y.log, y.visits) + [] == ShapeOf(y.log, y.visits);
    }
  }

  lemma WaitingTellsSpells(y: Sys, r: nat)
    requires SpellsTold(y) && r in y.readers && y.readers[r].Passed? && EnterStep(y.s, y.readers[r].source).waitKeyframe
    ensures SpellsTold(SysStep(y, Place(r)))
  {
    var (source, tag) := (y.readers[r].source, y.readers[r].tag);
    CameOpens(y.came, source, tag);
    hide OpenedBy, Spells, IsAnchor, HasAnchor, Idle, GapsOf, SysStep, ShapeOf;
    WaitingShape(y, r, source, tag);
    assert var sp := Spells(y.came); !(sp != [] && sp[|sp| - 1].source == source && HasAnchor(sp[|sp| - 1].tags));
  }

  lemma RunningShape(y: Sys, r: nat, source: Source, tag: Tag)
    requires r in y.readers && y.readers[r] == Passed(source, tag) && |y.visits| == |y.log| > 0
    requires y.s.outputSource == Some(source) && !y.s.waitKeyframe
    ensures var y' := SysStep(y, Place(r));
            var o := ShapeOf(y.log, y.visits);
            && y'.came == y.came + [Came(source, tag)] && |y'.visits| == |y'.log|
            && ShapeOf(y'.log, y'.visits) == o[..|o| - 1] + [o[|o| - 1].(rest := o[|o| - 1].rest + [tag])]
            && y'.s.outputSource == Some(source) && !y'.s.waitKeyframe
  {
    var (y', last) := (SysStep(y, Place(r)), |y.log| - 1);
    PlaceWhileOpen(y, r, source, tag);
    PlaceKeepsRest(y.s, tag);
    RunningOut(y, r, source, tag);
    hide Dropped, TimelineStep, PlaceStep, Placed, Grow, Meet, SysStep;
    ShapeFront(y.log, y.visits);
    ShapeSnoc(y'.log[..last], y'.visits[..last], y'.log[last], y'.visits[last]);
    assert y'.log == y'.log[..last] + [y'.log[last]] && y'.visits == y'.visits[..last] + [y'.visits[last]];
  }

  lemma RunningTellsSpells(y: Sys, r: nat)
    requires SpellsTold(y) && r in y.readers && y.readers[r].Passed? && !EnterStep(y.s, y.readers[r].source).waitKeyframe
    ensures SpellsTold(SysStep(y, Place(r)))
  {
    var (source, tag) := (y.readers[r].source, y.readers[r].tag);
    var sp := Spells(y.came);
    CameOpens(y.came, source, tag);
    OpenedNotEmpty(sp);
    hide OpenedBy, Spells, IsAnchor, HasAnchor, Idle, GapsOf, SysStep;
    assert |y.log| == |OpenedBy(sp)|;
    hide ShapeOf;
    RunningShape(y, r, source, tag);
  }

  lemma PlaceTellsSpells(y: Sys, r: nat)
    requires SpellsTold(y) && r in y.readers && y.readers[r].Passed?
    ensures SpellsTold(SysStep(y, Place(r)))
  {
    hide *;
    if EnterStep(y.s, y.readers[r].source).waitKeyframe {
      WaitingTellsSpells(y, r);
    } else {
      RunningTellsSpells(y, r);
    }
  }

  lemma OpensSegment(y: Sys, r: nat, source: Source, tag: Tag)
    requires r in y.readers && y.readers[r] == Passed(source, tag) && |y.visits| == |y.log|
    requires EnterStep(y.s, source).waitKeyframe && IsAnchor(tag)
    ensures var y' := SysStep(y, Place(r));
            && |y'.log| == |y.log| + 1 && y'.log[|y.log|].source == source && y'.log[|y.log|].anchor == tag
            && y'.log[|y.log|].at == EnterStep(y.s, source).switchOut
  {
    hide IsAnchor, TimelineStep, HeadersOf;
  }

  lemma StepTellsSpells(y: Sys, step: Step)
    requires SpellsTold(y)
    ensures SpellsTold(SysStep(y, step))
  {
    hide StoreStep, DecideStep, TimelineStep, Commits, ParamsChanged, Grow, Meet, OpenedBy, Spells, HasAnchor;
    match step
    case Read(r, source, tag) => StoreSame(y.s, source, tag);
    case Decide(r, now) =>
      if r in y.readers {
        DecideKeepsTimeline(y.s, y.readers[r].source, y.readers[r].tag, now);
      }
    case Place(r) =>
      if r in y.readers && y.readers[r].Passed? {
        PlaceTellsSpells(y, r);
      }
    case SetActive(to) =>
    case Request(source, callback, notBefore) =>
  }

  lemma {:induction false} RunTellsSpells(y: Sys, steps: seq<Step>)
    requires SpellsTold(y)
    ensures SpellsTold(SysRun(y, steps))
    decreases |steps|
  {
    hide SysStep, SpellsTold;
    if steps != [] {
      StepTellsSpells(y, steps[0]);
      RunTellsSpells(SysStep(y, steps[0]), steps[1..]);
    }
  }

  /** In any run: each spell of one source that has a track-0 keyframe makes exactly one segment, which is that source's
      own, is anchored at the spell's first such keyframe, and is visited by all that came after it in the spell. */
  lemma SegmentsAreSpells(y: Sys, steps: seq<Step>)
    requires JustReset(y)
    ensures var y' := SysRun(y, steps);
            |y'.visits| == |y'.log| && ShapeOf(y'.log, y'.visits) == OpenedBy(Spells(y'.came))
  {
    NothingCame(y);
    RunTellsSpells(y, steps);
    hide SysRun, Spells, OpenedBy;
  }

  lemma NothingCame(y: Sys)
    requires JustReset(y)
    ensures SpellsTold(y)
  {
  }

  // ----- when segments begin -----

  lemma TopSnoc(out: seq<Tag>, tag: Tag)
    ensures Top(out + [tag]) == if tag.ts > Top(out) then tag.ts else Top(out)
  {
    assert (out + [tag])[..|out|] == out;
  }

  /** Headers at one time, no earlier than anything before them. */
  lemma {:induction false} TopOfBlock(out: seq<Tag>, block: seq<Tag>, at: int)
    requires Top(out) <= at && forall t :: t in block ==> t.ts == at
    ensures Top(out) <= Top(out + block) <= at
    decreases |block|
  {
    if block == [] {
      assert out + block == out;
    } else {
      var init, last := block[..|block| - 1], block[|block| - 1];
      assert last in block && out + block == (out + init) + [last];
      TopOfBlock(out, init, at);
      TopSnoc(out + init, last);
    }
  }

  lemma BlockTimes(headers: map<Key, bytes>, at: int)
    ensures forall t :: t in HeaderBlock(headers, at) ==> t.ts == at
  {
    HeaderBlockCanonical(headers, at);
    hide OrderedHeaderKeys, HeaderBlock, CanonicalOrder;
  }

  /** The last output time is that of what was handed on last, and one step more for each spell that has come to
      nothing since. */
  ghost predicate TimesExact(y: Sys)
  {
    var sp := Spells(y.came);
    && y.s.lastOut == Top(y.out) + SWITCH_STEP_MS * Idle(sp)
    && (y.s.waitKeyframe ==> y.s.switchOut == y.s.lastOut)
    && BeginsTold(y.log, GapsOf(sp))
  }

  ghost predicate BeginsTold(log: seq<Segment>, gaps: seq<nat>)
  {
    |log| == |gaps| && forall i :: 0 <= i < |log| ==> log[i].at == Top(Flatten(log[..i])) + SWITCH_STEP_MS * gaps[i]
  }

  lemma BeginsSnoc(log: seq<Segment>, gaps: seq<nat>, seg: Segment, gap: nat)
    requires BeginsTold(log, gaps) && seg.at == Top(Flatten(log)) + SWITCH_STEP_MS * gap
    ensures BeginsTold(log + [seg], gaps + [gap])
  {
    hide Top, Flatten;
    var log' := log + [seg];
    forall i | 0 <= i < |log'| ensures log'[i].at == Top(Flatten(log'[..i])) + SWITCH_STEP_MS * (gaps + [gap])[i] {
      assert log'[..i] == if i == |log| then log else log[..i];
    }
  }

  lemma BeginsStay(log: seq<Segment>, log': seq<Segment>, gaps: seq<nat>)
    requires BeginsTold(log, gaps) && |log'| == |log| > 0
    requires log'[..|log| - 1] == log[..|log| - 1] && log'[|log| - 1].at == log[|log| - 1].at
    ensures BeginsTold(log', gaps)
  {
    hide Top, Flatten;
    var last := |log| - 1;
    forall i | 0 <= i < |log'| ensures log'[i].at == Top(Flatten(log'[..i])) + SWITCH_STEP_MS * gaps[i] {
      assert log'[..i] == log'[..last][..i] && log[..i] == log[..last][..i];
      assert i < last ==> log'[i] == log'[..last][i];
    }
  }

  lemma TopNotNegative(out: seq<Tag>)
    ensures Top(out) >= 0
  {
  }

  lemma PlacedTops(s: State, tag: Tag, out: seq<Tag>)
    requires s.lastOut == Top(out)
    ensures PlaceStep(s, tag).lastOut == Top(out + Placed(s, tag))
  {
    hide IsMedia, KeyOf, TooEarly, Top, Shift;
    if Dropped(s, tag) {
      assert out + [] == out;
    } else {
      TopSnoc(out, Shift(tag, s.offset));
    }
  }

  lemma TopOfOpening(out: seq<Tag>, block: seq<Tag>, anchor: Tag, at: int)
    requires Top(out) <= at < anchor.ts && forall t :: t in block ==> t.ts == at
    ensures Top(out + (block + [anchor])) == anchor.ts
  {
    hide Top;
    TopOfBlock(out, block, at);
    TopSnoc(out + block, anchor);
    assert out + (block + [anchor]) == (out + block) + [anchor];
  }

  /** A segment's headers and anchor: the anchor is the latest of all. */
  lemma OpeningTops(s: State, source: Source, tag: Tag, out: seq<Tag>)
    requires s.waitKeyframe && s.switchOut == s.lastOut >= Top(out) && IsAnchor(tag)
    requires forall k :: k in s.trackOut ==> s.trackOut[k] <= s.lastOut
    ensures var s2 := OpenStep(s, tag);
            PlaceStep(s2, tag).lastOut == s.lastOut + SWITCH_STEP_MS
            == Top(out + (HeaderBlock(HeadersOf(s2, source), s2.switchOut) + Placed(s2, tag)))
  {
    hide IsMedia, KeyOf, TooEarly, Top, Shift, IsAnchor, HeaderBlock, PlaceStep, Placed, HeadersOf;
    var s2 := OpenStep(s, tag);
    TopNotNegative(out);
    AnchorIsPlaced(s, tag);
    AnchorLast(s, tag);
    BlockTimes(HeadersOf(s2, source), s2.switchOut);
    TopOfOpening(out, HeaderBlock(HeadersOf(s2, source), s2.switchOut),
                 Tag(tag.tagType, s.switchOut + SWITCH_STEP_MS, tag.payload), s2.switchOut);
  }

  lemma AnchorLast(s: State, tag: Tag)
    requires s.waitKeyframe && s.lastOut >= 0 && IsAnchor(tag) && s.switchOut == s.lastOut
    requires forall k :: k in s.trackOut ==> s.trackOut[k] <= s.lastOut
    ensures PlaceStep(OpenStep(s, tag), tag).lastOut == s.lastOut + SWITCH_STEP_MS
  {
    hide HeaderKey, IsSeqHeader;
  }

  /** The spells' times, for a tag that comes while nothing is open. */
  function GapNow(came: seq<Came>, source: Source): nat
  {
    var sp := Spells(came);
    if sp != [] && sp[|sp| - 1].source == source then Idle(sp) else Idle(sp) + 1
  }

  predicate IsOpen(came: seq<Came>, source: Source)
  {
    var sp := Spells(came);
    sp != [] && sp[|sp| - 1].source == source && HasAnchor(sp[|sp| - 1].tags)
  }

  lemma GapAfter(came: seq<Came>, source: Source, tag: Tag)
    ensures var (sp, sp') := (Spells(came), Spells(came + [Came(source, tag)]));
            && Idle(sp') == (if IsOpen(came, source) || IsAnchor(tag) then 0 else GapNow(came, source))
            && GapsOf(sp') == GapsOf(sp) + (if !IsOpen(came, source) && IsAnchor(tag) then [GapNow(came, source)] else [])
            && (IsOpen(came, source) ==> Idle(sp) == 0)
  {
    CameOpens(came, source, tag);
    hide Spells, IsAnchor, HasAnchor, Idle, GapsOf, OpenedBy;
  }

  lemma EnterTimes(y: Sys, source: Source)
    requires SpellsTold(y) && TimesExact(y)
    ensures EnterStep(y.s, source).waitKeyframe <==> !IsOpen(y.came, source)
    ensures EnterStep(y.s, source).waitKeyframe ==>
              EnterStep(y.s, source).switchOut == EnterStep(y.s, source).lastOut == Top(y.out) + SWITCH_STEP_MS * GapNow(y.came, source)
  {
    hide Spells, HasAnchor, Idle, GapsOf, OpenedBy, ShapeOf, BeginsTold, Top;
  }

  lemma WaitingKeepsTimes(y: Sys, r: nat)
    requires SysInv(y) && SpellsTold(y) && TimesExact(y) && r in y.readers && y.readers[r].Passed?
    requires EnterStep(y.s, y.readers[r].source).waitKeyframe
    ensures TimesExact(SysStep(y, Place(r)))
  {
    hide OpenedBy, Spells, IsAnchor, HasAnchor, Dropped, TimelineStep, PlaceStep, Placed, Idle, GapsOf, Grow, Meet, SysInv, Top, Flatten,
      HeaderBlock, SysStep, OpenStep, LogSources, BeginsTold, SpellsTold, EnterStep, GapNow, IsOpen;
    var (source, tag) := (y.readers[r].source, y.readers[r].tag);
    var (y', s1) := (SysStep(y, Place(r)), EnterStep(y.s, source));
    InvSources(y);
    TracksEntered(y, source);
    EnterTimes(y, source);
    GapAfter(y.came, source, tag);
    SameVisits(y);
    PlaceWhileWaiting(y, r, source, tag);
    WaitingOut(y, r, source, tag);
    TopNotNegative(y.out);
    if IsAnchor(tag) {
      OpensSegment(y, r, source, tag);
      OpeningTops(s1, source, tag, y.out);
      OpenNoLongerWaits(s1, tag);
      PlaceKeepsRest(OpenStep(s1, tag), tag);
      BeginsSnoc(y.log, GapsOf(Spells(y.came)), y'.log[|y.log|], GapNow(y.came, source));
      assert y'.log == y.log + [y'.log[|y.log|]];
    } else {
      assert GapsOf(Spells(y.came)) + [] == GapsOf(Spells(y.came)) && y.out + [] == y.out;
    }
  }

  lemma SameVisits(y: Sys)
    requires SpellsTold(y)
    ensures |y.visits| == |y.log|
    ensures y.log == [] ==> forall source :: !IsOpen(y.came, source)
  {
    hide Spells;
    assert |ShapeOf(y.log, y.visits)| == |y.log|;
    if IsOpenSome(y.came) {
      OpenedNotEmpty(Spells(y.came));
    }
  }

  predicate IsOpenSome(came: seq<Came>)
  {
    Spells(came) != [] && HasAnchor(Spells(came)[|Spells(came)| - 1].tags)
  }

  lemma TracksEntered(y: Sys, source: Source)
    requires SysInv(y)
    ensures var s1 := EnterStep(y.s, source); forall k :: k in s1.trackOut ==> s1.trackOut[k] <= s1.lastOut
  {
    TracksBelow(y);
    hide SysInv;
  }

  lemma OpenNoLongerWaits(s: State, tag: Tag)
    ensures !OpenStep(s, tag).waitKeyframe
  {
  }

  lemma TracksBelow(y: Sys)
    requires SysInv(y)
    ensures forall k :: k in y.s.trackOut ==> y.s.trackOut[k] <= y.s.lastOut
  {
    hide Bounded, TracksForward, TracksKnown, LogOk, Flatten, AllBelow, CachesOk, LogCurrent;
  }

  lemma WaitingOut(y: Sys, r: nat, source: Source, tag: Tag)
    requires r in y.readers && y.readers[r] == Passed(source, tag) && EnterStep(y.s, source).waitKeyframe
    ensures var (y', s1) := (SysStep(y, Place(r)), EnterStep(y.s, source));
            && y'.came == y.came + [Came(source, tag)]
            && y'.out == y.out + if IsAnchor(tag) then
                 HeaderBlock(HeadersOf(OpenStep(s1, tag), source), OpenStep(s1, tag).switchOut) + Placed(OpenStep(s1, tag), tag) else []
  {
    hide PlaceStep, Placed, IsAnchor, HeaderBlock, Grow, Meet;
  }

  lemma RunningKeepsTimes(y: Sys, r: nat)
    requires SysInv(y) && SpellsTold(y) && TimesExact(y) && r in y.readers && y.readers[r].Passed?
    requires !EnterStep(y.s, y.readers[r].source).waitKeyframe
    ensures TimesExact(SysStep(y, Place(r)))
  {
    hide OpenedBy, Spells, IsAnchor, HasAnchor, Dropped, TimelineStep, PlaceStep, Placed, Idle, GapsOf, Grow, Meet, SysInv, Top, Flatten,
      SysStep, LogSources, BeginsTold, SpellsTold, EnterStep, GapNow, IsOpen;
    var (source, tag) := (y.readers[r].source, y.readers[r].tag);
    InvSources(y);
    EnterTimes(y, source);
    GapAfter(y.came, source, tag);
    SameVisits(y);
    EnteredOpen(y, source);
    PlaceWhileOpen(y, r, source, tag);
    RunningOut(y, r, source, tag);
    PlaceKeepsRest(y.s, tag);
    PlacedTops(y.s, tag, y.out);
    assert GapsOf(Spells(y.came)) + [] == GapsOf(Spells(y.came));
    BeginsStay(y.log, SysStep(y, Place(r)).log, GapsOf(Spells(y.came)));
  }

  lemma RunningOut(y: Sys, r: nat, source: Source, tag: Tag)
    requires r in y.readers && y.readers[r] == Passed(source, tag) && y.s.outputSource == Some(source) && !y.s.waitKeyframe
    ensures var y' := SysStep(y, Place(r));
            y'.came == y.came + [Came(source, tag)] && y'.out == y.out + Placed(y.s, tag) && y'.s == PlaceStep(y.s, tag)
  {
    hide PlaceStep, Placed, Grow, Meet;
  }

  lemma StepKeepsTimes(y: Sys, step: Step)
    requires SysInv(y) && SpellsTold(y) && TimesExact(y)
    ensures TimesExact(SysStep(y, step))
  {
    hide SysInv, SpellsTold, StoreStep, DecideStep, TimelineStep, Commits, ParamsChanged, Grow, Meet, GapsOf, Spells, Idle, Top, Flatten;
    match step
    case Read(r, source, tag) => StoreSame(y.s, source, tag);
    case Decide(r, now) =>
      if r in y.readers {
        DecideKeepsTimeline(y.s, y.readers[r].source, y.readers[r].tag, now);
      }
    case Place(r) =>
      if r in y.readers && y.readers[r].Passed? {
        if EnterStep(y.s, y.readers[r].source).waitKeyframe {
          WaitingKeepsTimes(y, r);
        } else {
          RunningKeepsTimes(y, r);
        }
      }
    case SetActive(to) =>
    case Request(source, callback, notBefore) =>
  }

  lemma {:induction false} RunKeepsTimes(y: Sys, steps: seq<Step>)
    requires SysInv(y) && SpellsTold(y) && TimesExact(y)
    ensures TimesExact(SysRun(y, steps))
    decreases |steps|
  {
    hide SysStep, SysInv, SpellsTold, TimesExact;
    if steps != [] {
      StepKeepsTimes(y, steps[0]);
      StepTellsSpells(y, steps[0]);
      SwitcherRuns.StepKeepsInv(y, steps[0]);
      RunKeepsTimes(SysStep(y, steps[0]), steps[1..]);
    }
  }

  /** In any run: a segment begins exactly 33 ms after the latest time handed on before it, and 33 ms more for each
      spell in between that had no keyframe to open with. */
  lemma SegmentsBeginAt(y: Sys, steps: seq<Step>)
    requires JustReset(y)
    ensures var y' := SysRun(y, steps);
            var gaps := GapsOf(Spells(y'.came));
            |y'.log| == |gaps| && forall i :: 0 <= i < |gaps| ==>
              y'.log[i].at == Top(Flatten(y'.log[..i])) + SWITCH_STEP_MS * gaps[i]
  {
    NothingCame(y);
    JustResetInv(y);
    RunKeepsTimes(y, steps);
    hide SysRun, Spells, GapsOf, Top, Flatten;
  }

  // ----- what is handed on -----

  /** While a segment is open: which tracks have begun, and the time of each, told by what came and what went out. */
  ghost predicate BodyTold(log: seq<Segment>, visits: seq<Visit>, i: nat)
    requires i < |log| == |visits|
  {
    log[i].body == Through(UpToAnchor(log, i), visits[i].tags, OffsetOf(log[i]))
  }

  ghost predicate StartedTold(started: set<byte>, tags: seq<Tag>)
  {
    forall id: byte :: id in started <==> id == 0 || KeyCame(tags, id)
  }

  ghost predicate BodiesTold(y: Sys)
  {
    && |y.visits| == |y.log|
    && TimesTold(y.out, y.s.trackOut)
    && (forall i :: 0 <= i < |y.log| ==> BodyTold(y.log, y.visits, i))
    && (y.s.outputSource.Some? && !y.s.waitKeyframe && y.log != [] ==> StartedTold(y.s.started, y.visits[|y.log| - 1].tags))
  }

  lemma StartedSnoc(started: set<byte>, tags: seq<Tag>, tag: Tag, s: State)
    requires StartedTold(started, tags) && s.started == started
    ensures StartedTold(PlaceStep(s, tag).started, tags + [tag])
  {
    hide KeyCame, IsMedia, KeyOf, VideoTrackId, IsVideoKeyframe, Shift, Behind;
    forall id: byte ensures id in PlaceStep(s, tag).started <==> id == 0 || KeyCame(tags + [tag], id) {
      KeyCameSnoc(tags, tag, id);
    }
  }

  /** The timeline's own test, and the one by what came and went out. */
  lemma DroppedIff(s: State, tag: Tag, tags: seq<Tag>, out: seq<Tag>)
    requires StartedTold(s.started, tags) && TimesTold(out, s.trackOut)
    ensures Dropped(s, tag) <==> BeforeKey(tags + [tag], tag) || TooLate(out, tag, s.offset)
  {
    hide KeyCame, IsMedia, KeyOf, VideoTrackId, IsVideoKeyframe, Shift, LastTime;
    assert LastTime(out, KeyOf(tag)) == Look(s.trackOut, KeyOf(tag));
    KeyCameSnoc(tags, tag, VideoTrackId(tag.payload));
  }

  lemma ThroughSnoc(before: seq<Tag>, tags: seq<Tag>, tag: Tag, offset: int)
    ensures var kept := Through(before, tags, offset);
            Through(before, tags + [tag], offset)
            == if BeforeKey(tags + [tag], tag) || TooLate(before + ShiftAll(kept, offset), tag, offset) then kept else kept + [tag]
  {
    hide BeforeKey, TooLate;
    assert (tags + [tag])[..|tags|] == tags;
  }

  lemma LinesWithBody(seg: Segment)
    ensures Lines(seg) == Lines(seg.(body := [])) + ShiftAll(seg.body, OffsetOf(seg))
  {
    hide HeaderBlock, Shift;
    assert ShiftAll([], OffsetOf(seg)) == [];
  }

  lemma OutIsUpToAnchor(log: seq<Segment>)
    requires log != []
    ensures var last := |log| - 1;
            Flatten(log) == UpToAnchor(log, last) + ShiftAll(log[last].body, OffsetOf(log[last]))
  {
    hide Lines, ShiftAll;
    LinesWithBody(log[|log| - 1]);
  }

  lemma SameUpToAnchor(log: seq<Segment>, log': seq<Segment>, i: nat)
    requires i < |log| && i < |log'| && log'[..i] == log[..i] && log'[i].(body := []) == log[i].(body := [])
    ensures UpToAnchor(log', i) == UpToAnchor(log, i) && OffsetOf(log'[i]) == OffsetOf(log[i])
  {
    hide Flatten, Lines;
  }

  lemma RunningKeepsBodies(y: Sys, r: nat)
    requires SysInv(y) && BodiesTold(y) && r in y.readers && y.readers[r].Passed?
    requires !EnterStep(y.s, y.readers[r].source).waitKeyframe
    ensures BodiesTold(SysStep(y, Place(r)))
  {
    hide SysInv, CachesOk, TimesTold, Flatten, TimelineStep, Grow, Meet, PlaceStep, Dropped, EnterStep, SysStep, OffsetOf, Through,
      StartedTold, LogSources, UpToAnchor;
    var (source, tag, last) := (y.readers[r].source, y.readers[r].tag, |y.log| - 1);
    InvSources(y);
    SysInvCaches(y);
    EnteredOpen(y, source);
    LastIsOpen(y, source);
    TimelineTellsTime(y.s, source, tag, y.out);
    PlaceWhileOpen(y, r, source, tag);
    var (y', tags) := (SysStep(y, Place(r)), y.visits[last].tags);
    StartedSnoc(y.s.started, tags, tag, y.s);
    assert BodyTold(y.log, y.visits, last);
    BodyGoesOn(y.log, y.s, tags, tag);
    forall i | 0 <= i < |y'.log| ensures BodyTold(y'.log, y'.visits, i) {
      assert y'.log[..i] == y'.log[..last][..i] && y.log[..i] == y.log[..last][..i];
      if i < last {
        assert BodyTold(y.log, y.visits, i);
        assert y'.log[i] == y'.log[..last][i] && y'.visits[i] == y'.visits[..last][i];
      }
      SameUpToAnchor(y.log, y'.log, i);
    }
  }

  lemma BodyGoesOn(log: seq<Segment>, s: State, tags: seq<Tag>, tag: Tag)
    requires log != [] && OffsetOf(log[|log| - 1]) == s.offset && StartedTold(s.started, tags) && TimesTold(Flatten(log), s.trackOut)
    requires var last := |log| - 1; log[last].body == Through(UpToAnchor(log, last), tags, s.offset)
    ensures var last := |log| - 1;
            Through(UpToAnchor(log, last), tags + [tag], s.offset)
            == if Dropped(s, tag) then log[last].body else log[last].body + [tag]
  {
    hide *;
    var last := |log| - 1;
    OutIsUpToAnchor(log);
    DroppedIff(s, tag, tags, Flatten(log));
    ThroughSnoc(UpToAnchor(log, last), tags, tag, s.offset);
  }

  lemma WaitingKeepsBodies(y: Sys, r: nat)
    requires SysInv(y) && BodiesTold(y) && r in y.readers && y.readers[r].Passed?
    requires EnterStep(y.s, y.readers[r].source).waitKeyframe
    ensures BodiesTold(SysStep(y, Place(r)))
  {
    hide SysInv, CachesOk, TimesTold, Flatten, TimelineStep, Grow, Meet, PlaceStep, Dropped, EnterStep, SysStep, OffsetOf,
      StartedTold, LogSources, UpToAnchor, IsAnchor, OpenStep;
    var (source, tag, n) := (y.readers[r].source, y.readers[r].tag, |y.log|);
    InvSources(y);
    SysInvCaches(y);
    TimelineTellsTime(y.s, source, tag, y.out);
    PlaceWhileWaiting(y, r, source, tag);
    var y' := SysStep(y, Place(r));
    if IsAnchor(tag) {
      AnchorStarts(EnterStep(y.s, source), tag);
      assert y'.log[..n] == y.log && y'.visits[..n] == y.visits;
    }
    hide Through;
    forall i | 0 <= i < |y'.log| && i < n ensures BodyTold(y'.log, y'.visits, i) {
      assert BodyTold(y.log, y.visits, i);
      assert y'.log[i] == y.log[i] && y'.visits[i] == y.visits[i] && y'.log[..i] == y.log[..i];
      SameUpToAnchor(y.log, y'.log, i);
    }
    if IsAnchor(tag) {
      NothingThrough(UpToAnchor(y'.log, n), OffsetOf(y'.log[n]));
      assert BodyTold(y'.log, y'.visits, n);
    }
  }

  lemma NothingThrough(before: seq<Tag>, offset: int)
    ensures Through(before, [], offset) == []
  {
  }

  lemma AnchorStarts(s: State, anchor: Tag)
    requires IsAnchor(anchor)
    ensures StartedTold(PlaceStep(OpenStep(s, anchor), anchor).started, [])
  {
    hide KeyOf, Shift, Behind;
  }

  lemma StepKeepsBodies(y: Sys, step: Step)
    requires SysInv(y) && BodiesTold(y)
    ensures BodiesTold(SysStep(y, step))
  {
    hide SysInv, StoreStep, DecideStep, TimelineStep, Commits, ParamsChanged, Grow, Meet, Through, TimesTold, StartedTold, UpToAnchor,
      EnterStep, OffsetOf;
    match step
    case Read(r, source, tag) => StoreSame(y.s, source, tag);
    case Decide(r, now) =>
      if r in y.readers {
        DecideKeepsTimeline(y.s, y.readers[r].source, y.readers[r].tag, now);
      }
    case Place(r) =>
      if r in y.readers && y.readers[r].Passed? {
        if EnterStep(y.s, y.readers[r].source).waitKeyframe {
          WaitingKeepsBodies(y, r);
        } else {
          RunningKeepsBodies(y, r);
        }
      }
    case SetActive(to) =>
    case Request(source, callback, notBefore) =>
  }

  lemma {:induction false} RunKeepsBodies(y: Sys, steps: seq<Step>)
    requires SysInv(y) && BodiesTold(y)
    ensures BodiesTold(SysRun(y, steps))
    decreases |steps|
  {
    hide SysStep, SysInv, BodiesTold;
    if steps != [] {
      StepKeepsBodies(y, steps[0]);
      SwitcherRuns.StepKeepsInv(y, steps[0]);
      RunKeepsBodies(SysStep(y, steps[0]), steps[1..]);
    }
  }

  /** In any run and any segment: of the tags that came after the anchor, all are handed on, in order, but pictures of a
      rung before the rung's first keyframe and media behind the last time of their own track. */
  lemma SegmentHandsOn(y: Sys, steps: seq<Step>, i: nat)
    requires JustReset(y) && i < |SysRun(y, steps).log|
    ensures var y' := SysRun(y, steps);
            |y'.visits| == |y'.log|
            && y'.log[i].body == Through(UpToAnchor(y'.log, i), y'.visits[i].tags, OffsetOf(y'.log[i]))
  {
    NoBodiesYet(y);
    JustResetInv(y);
    RunKeepsBodies(y, steps);
    hide SysRun, Through, UpToAnchor, OffsetOf;
    assert BodyTold(SysRun(y, steps).log, SysRun(y, steps).visits, i);
  }

  lemma NoBodiesYet(y: Sys)
    requires JustReset(y)
    ensures BodiesTold(y)
  {
    hide IsMedia, KeyOf;
  }
}
