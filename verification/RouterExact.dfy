// What every output slot gets for every audio tag, told by the tags routed before it.
module RouterExact {
  import opened Bytes
  import opened Router

  /** What goes into one slot. */
  function InSlot(lines: seq<Line>, slot: nat): seq<Line>
  {
    if lines == [] then []
    else InSlot(lines[..|lines| - 1], slot) + if lines[|lines| - 1].slot == slot then [lines[|lines| - 1]] else []
  }

  /** The latest header of a track. */
  function HeaderOf(events: seq<Event>, track: int): Option<bytes>
  {
    if events == [] then None
    else
      var last := events[|events| - 1];
      if last.track == track && IsHeader(last.payload) then Some(last.payload) else HeaderOf(events[..|events| - 1], track)
  }

  /** The map as it was last noted. The fixed policy notes none; under the select policy a header notes none. */
  function Noted(policy: Policy, first: Mapping, events: seq<Event>): Mapping
  {
    if policy == Fixed then []
    else if events == [] then first
    else
      var last := events[|events| - 1];
      if policy == Select && IsHeader(last.payload) then Noted(policy, first, events[..|events| - 1]) else last.mapping
  }

  /** The time of the last media tag in a slot; -1 before there is one. */
  function LastMedia(out: seq<Line>, slot: nat): int
  {
    if out == [] then -1
    else
      var last := out[|out| - 1];
      if last.slot == slot && !IsHeader(last.payload) then last.ts else LastMedia(out[..|out| - 1], slot)
  }

  function Out(policy: Policy, first: Mapping, events: seq<Event>): seq<Line>
  {
    Routed(policy, Fresh(policy, first), events).1
  }

  predicate Carries(mapping: Mapping, slot: nat, track: int)
  {
    slot < |mapping| && mapping[slot] == track
  }

  /** A header sent again because the map is new: under the chimera policy to every slot that is on, under the select
      policy to those that have changed their track. */
  function Again(policy: Policy, first: Mapping, events: seq<Event>, e: Event, slot: nat): seq<Line>
  {
    var noted := Noted(policy, first, events);
    if policy == Fixed || (policy == Select && IsHeader(e.payload)) || e.mapping == noted then []
    else if slot >= |e.mapping| || e.mapping[slot] < 0 || (policy == Select && Carries(noted, slot, e.mapping[slot])) then []
    else
      match HeaderOf(events + [e], e.mapping[slot])
      case None => []
      case Some(header) => [Line(slot, e.ts, header)]
  }

  /** The tag itself: to every slot that carries its track; media under the select policy only if newer than the slot's
      last. */
  function Itself(policy: Policy, first: Mapping, events: seq<Event>, e: Event, slot: nat): seq<Line>
  {
    if !Carries(e.mapping, slot, e.track) then []
    else if policy == Select && !IsHeader(e.payload) && e.ts <= LastMedia(Out(policy, first, events), slot) then []
    else [Line(slot, e.ts, e.payload)]
  }

  // ----- lists of lines -----

  lemma {:induction false} InSlotAppend(a: seq<Line>, b: seq<Line>, slot: nat)
    ensures InSlot(a + b, slot) == InSlot(a, slot) + InSlot(b, slot)
    decreases |b|
  {
    if b == [] {
      assert a + b == a && InSlot(a, slot) + [] == InSlot(a, slot);
    } else {
      var init, last := b[..|b| - 1], b[|b| - 1];
      assert (a + b)[..|a + b| - 1] == a + init;
      InSlotAppend(a, init, slot);
    }
  }

  lemma InSlotOne(line: Line, slot: nat)
    ensures InSlot([line], slot) == if line.slot == slot then [line] else []
  {
    assert [line][..0] == [];
  }

  lemma {:induction false} SlotLinesIn(cur: Mapping, e: Event, n: nat, slot: nat)
    requires n <= |cur|
    ensures InSlot(SlotLines(cur, e, n), slot) == if slot < n && cur[slot] == e.track then [Line(slot, e.ts, e.payload)] else []
  {
    hide InSlot;
    if n == 0 {
      assert InSlot([], slot) == [] by { Nothing(slot); }
    } else {
      SlotLinesIn(cur, e, n - 1, slot);
      var one := if cur[n - 1] == e.track then [Line(n - 1, e.ts, e.payload)] else [];
      InSlotAppend(SlotLines(cur, e, n - 1), one, slot);
      Nothing(slot);
      InSlotOne(Line(n - 1, e.ts, e.payload), slot);
    }
  }

  lemma Nothing(slot: nat)
    ensures InSlot([], slot) == []
  {
  }

  lemma {:induction false} GuardedLinesIn(s: State, e: Event, n: nat, slot: nat)
    requires n <= |e.mapping|
    ensures InSlot(GuardedLines(s, e, n), slot) == if slot < n && Passes(s, e, slot) then [Line(slot, e.ts, e.payload)] else []
  {
    hide InSlot, Passes;
    if n == 0 {
      Nothing(slot);
    } else {
      GuardedLinesIn(s, e, n - 1, slot);
      var one := if Passes(s, e, n - 1) then [Line(n - 1, e.ts, e.payload)] else [];
      InSlotAppend(GuardedLines(s, e, n - 1), one, slot);
      Nothing(slot);
      InSlotOne(Line(n - 1, e.ts, e.payload), slot);
    }
  }

  lemma {:induction false} RedeclaredIn(policy: Policy, s: State, cur: Mapping, ts: int, n: nat, slot: nat)
    requires n <= |cur|
    ensures InSlot(Redeclared(policy, s, cur, ts, n), slot)
            == if slot < n && Redeclares(policy, s, cur, slot) then [Line(slot, ts, s.lastSeq[cur[slot]])] else []
  {
    hide InSlot;
    if n == 0 {
      Nothing(slot);
    } else {
      RedeclaredIn(policy, s, cur, ts, n - 1, slot);
      var one := if Redeclares(policy, s, cur, n - 1) then [Line(n - 1, ts, s.lastSeq[cur[n - 1]])] else [];
      InSlotAppend(Redeclared(policy, s, cur, ts, n - 1), one, slot);
      Nothing(slot);
      InSlotOne(Line(n - 1, ts, if Redeclares(policy, s, cur, n - 1) then s.lastSeq[cur[n - 1]] else []), slot);
    }
  }

  lemma {:induction false} GuardedTime(s: State, e: Event, n: nat, slot: nat)
    requires n <= |e.mapping|
    ensures LastOf(GuardedTs(s, e, n), slot) == if slot < n && Passes(s, e, slot) then e.ts else LastOf(s.lastTs, slot)
  {
    hide Passes;
    if n > 0 {
      GuardedTime(s, e, n - 1, slot);
    }
  }

  /** The last media time in a slot depends only on what went into the slot. */
  lemma {:induction false} LastMediaIs(out: seq<Line>, more: seq<Line>, slot: nat)
    ensures LastMedia(out + more, slot) == if LastMedia(InSlot(more, slot), slot) == -1 && !AnyMedia(InSlot(more, slot))
                                           then LastMedia(out, slot) else LastMedia(InSlot(more, slot), slot)
    decreases |more|
  {
    hide IsHeader;
    if more == [] {
      assert out + more == out;
    } else {
      var init, last := more[..|more| - 1], more[|more| - 1];
      assert (out + more)[..|out + more| - 1] == out + init;
      LastMediaIs(out, init, slot);
      if last.slot == slot {
        var before := InSlot(init, slot);
        assert InSlot(more, slot) == before + [last] && (before + [last])[..|before|] == before;
        AnyMediaSnoc(before, last);
      } else {
        assert InSlot(init, slot) + [] == InSlot(init, slot);
      }
    }
  }

  predicate AnyMedia(lines: seq<Line>)
  {
    exists i :: 0 <= i < |lines| && !IsHeader(lines[i].payload)
  }

  lemma AnyMediaSnoc(lines: seq<Line>, line: Line)
    ensures AnyMedia(lines + [line]) <==> AnyMedia(lines) || !IsHeader(line.payload)
  {
    hide IsHeader;
    var all := lines + [line];
    assert all[|lines|] == line && forall i :: 0 <= i < |lines| ==> all[i] == lines[i];
  }

  // ----- what is kept -----

  ghost predicate Told(s: State, policy: Policy, first: Mapping, events: seq<Event>, out: seq<Line>)
  {
    && (policy != Fixed ==> forall track: int :: HeaderOf(events, track) == if track in s.lastSeq then Some(s.lastSeq[track]) else None)
    && (policy != Fixed ==> s.prior == Noted(policy, first, events))
    && (policy == Select ==> forall slot: nat :: LastOf(s.lastTs, slot) == LastMedia(out, slot))
    && (forall track: int :: HeaderOf(events, track).Some? ==> IsHeader(HeaderOf(events, track).value))
  }

  lemma EventsSnoc(policy: Policy, first: Mapping, events: seq<Event>, e: Event)
    ensures forall track: int :: HeaderOf(events + [e], track)
                                 == if e.track == track && IsHeader(e.payload) then Some(e.payload) else HeaderOf(events, track)
    ensures Noted(policy, first, events + [e])
            == if policy == Fixed then [] else if policy == Select && IsHeader(e.payload) then Noted(policy, first, events) else e.mapping
    ensures var s := Routed(policy, Fresh(policy, first), events).0;
            && Routed(policy, Fresh(policy, first), events + [e]).0 == AudioStep(policy, s, e).0
            && Out(policy, first, events + [e]) == Out(policy, first, events) + AudioStep(policy, s, e).1
  {
    hide IsHeader, AudioStep;
    assert (events + [e])[..|events|] == events;
  }

  /** The cache after a tag is that of all tags so far. */
  lemma CacheTold(s: State, policy: Policy, first: Mapping, events: seq<Event>, e: Event)
    requires Told(s, policy, first, events, Out(policy, first, events)) && policy != Fixed
    ensures var s1 := CacheStep(policy, s, e);
            && s1.prior == Noted(policy, first, events) && s1.lastTs == s.lastTs
            && forall track: int :: HeaderOf(events + [e], track) == if track in s1.lastSeq then Some(s1.lastSeq[track]) else None
  {
    EventsSnoc(policy, first, events, e);
    hide HeaderOf, Noted, IsHeader, Out, LastMedia, LastOf;
  }

  lemma RedeclaresIs(policy: Policy, s1: State, first: Mapping, events: seq<Event>, e: Event, slot: nat)
    requires policy != Fixed && !(policy == Select && IsHeader(e.payload)) && s1.prior == Noted(policy, first, events)
    requires e.mapping != s1.prior && slot < |e.mapping|
    requires HeaderOf(events + [e], e.mapping[slot]) == if e.mapping[slot] in s1.lastSeq then Some(s1.lastSeq[e.mapping[slot]]) else None
    ensures Again(policy, first, events, e, slot)
            == if Redeclares(policy, s1, e.mapping, slot) then [Line(slot, e.ts, s1.lastSeq[e.mapping[slot]])] else []
  {
    hide IsHeader, HeaderOf, Noted;
  }

  lemma RemapInSlot(s: State, policy: Policy, first: Mapping, events: seq<Event>, e: Event, slot: nat)
    requires Told(s, policy, first, events, Out(policy, first, events)) && !(policy == Select && IsHeader(e.payload))
    ensures InSlot(RemapStep(policy, CacheStep(policy, s, e), e).1, slot) == Again(policy, first, events, e, slot)
  {
    Nothing(slot);
    hide InSlot, IsHeader, Redeclared, Out, HeaderOf, Noted, LastMedia, Told, CacheStep;
    if policy != Fixed {
      var s1 := CacheStep(policy, s, e);
      CacheTold(s, policy, first, events, e);
      if e.mapping != s1.prior {
        RedeclaredIn(policy, s1, e.mapping, e.ts, |e.mapping|, slot);
        hide Redeclares;
        if slot < |e.mapping| {
          hide Again;
          RedeclaresIs(policy, s1, first, events, e, slot);
        }
      }
    }
  }

  lemma DeliverInSlot(s: State, s2: State, policy: Policy, first: Mapping, events: seq<Event>, e: Event, slot: nat)
    requires Told(s, policy, first, events, Out(policy, first, events)) && s2.lastTs == s.lastTs
    requires !(policy == Select && IsHeader(e.payload))
    ensures InSlot(DeliverStep(policy, s2, e).1, slot) == Itself(policy, first, events, e, slot)
  {
    SlotLinesIn(e.mapping, e, |e.mapping|, slot);
    GuardedLinesIn(s2, e, |e.mapping|, slot);
    hide InSlot, IsHeader, SlotLines, GuardedLines, GuardedTs, Out, HeaderOf, Noted, LastMedia;
  }

  lemma StepParts(s: State, policy: Policy, e: Event)
    ensures var s1 := CacheStep(policy, s, e);
            var (s2, again) := RemapStep(policy, s1, e);
            && s2.lastTs == s.lastTs
            && AudioStep(policy, s, e).1 == if policy == Select && IsHeader(e.payload) then SlotLines(e.mapping, e, |e.mapping|)
                                            else again + DeliverStep(policy, s2, e).1
  {
    hide IsHeader, SlotLines, Redeclared, GuardedLines, GuardedTs;
  }

  /** Each slot's part of a step. */
  lemma StepInSlot(s: State, policy: Policy, first: Mapping, events: seq<Event>, e: Event, slot: nat)
    requires Told(s, policy, first, events, Out(policy, first, events))
    ensures InSlot(AudioStep(policy, s, e).1, slot) == Again(policy, first, events, e, slot) + Itself(policy, first, events, e, slot)
  {
    StepParts(s, policy, e);
    if policy == Select && IsHeader(e.payload) {
      SlotLinesIn(e.mapping, e, |e.mapping|, slot);
      hide InSlot, SlotLines, AudioStep, Out, HeaderOf, Noted, LastMedia, Told;
    } else {
      var s1 := CacheStep(policy, s, e);
      var (s2, again) := RemapStep(policy, s1, e);
      RemapInSlot(s, policy, first, events, e, slot);
      DeliverInSlot(s, s2, policy, first, events, e, slot);
      InSlotAppend(again, DeliverStep(policy, s2, e).1, slot);
      hide InSlot, SlotLines, AudioStep, Out, HeaderOf, Noted, LastMedia, Told, CacheStep, RemapStep, DeliverStep, Again, Itself;
    }
  }

  lemma StepKeepsTimes(s: State, first: Mapping, events: seq<Event>, e: Event, slot: nat)
    requires Told(s, Select, first, events, Out(Select, first, events))
    ensures LastOf(AudioStep(Select, s, e).0.lastTs, slot) == LastMedia(Out(Select, first, events) + AudioStep(Select, s, e).1, slot)
  {
    StepInSlot(s, Select, first, events, e, slot);
    var (out, lines) := (Out(Select, first, events), AudioStep(Select, s, e).1);
    LastMediaIs(out, lines, slot);
    MediaOfStep(first, events, e, slot);
    if !IsHeader(e.payload) {
      GuardedTime(RemapStep(Select, s, e).0, e, |e.mapping|, slot);
    }
    hide InSlot, IsHeader, SlotLines, GuardedLines, Redeclared, GuardedTs, Out, HeaderOf, Noted, LastMedia, Again, AnyMedia;
  }

  /** What a step puts into a slot is at most a header and then the tag. */
  lemma MediaOfStep(first: Mapping, events: seq<Event>, e: Event, slot: nat)
    requires forall track: int :: HeaderOf(events, track).Some? ==> IsHeader(HeaderOf(events, track).value)
    ensures var lines := Again(Select, first, events, e, slot) + Itself(Select, first, events, e, slot);
            var media := !IsHeader(e.payload) && Itself(Select, first, events, e, slot) != [];
            (AnyMedia(lines) <==> media) && LastMedia(lines, slot) == if media then e.ts else -1
  {
    EventsSnoc(Select, first, events, e);
    hide IsHeader, Out, HeaderOf, Noted;
    var (again, itself) := (Again(Select, first, events, e, slot), Itself(Select, first, events, e, slot));
    var lines := again + itself;
    if itself != [] {
      assert lines[|lines| - 1] == itself[0] && lines[..|lines| - 1] == again;
    } else {
      assert lines == again;
    }
    if again != [] {
      assert again[..0] == [] && IsHeader(again[0].payload);
    }
  }

  lemma CachesStay(policy: Policy, s: State, e: Event)
    ensures var (s', s1) := (AudioStep(policy, s, e).0, CacheStep(policy, s, e));
            && s'.lastSeq == s1.lastSeq
            && (policy != Fixed ==> s'.prior == if policy == Select && IsHeader(e.payload) then s1.prior else e.mapping)
  {
    hide IsHeader, SlotLines, Redeclared, GuardedLines, GuardedTs;
  }

  lemma StepTells(s: State, policy: Policy, first: Mapping, events: seq<Event>, e: Event)
    requires Told(s, policy, first, events, Out(policy, first, events)) && s == Routed(policy, Fresh(policy, first), events).0
    ensures Told(AudioStep(policy, s, e).0, policy, first, events + [e], Out(policy, first, events + [e]))
  {
    EventsSnoc(policy, first, events, e);
    CachesStay(policy, s, e);
    hide IsHeader, Out, HeaderOf, Noted, LastMedia, LastOf, AudioStep;
    if policy != Fixed {
      CacheTold(s, policy, first, events, e);
    }
    hide CacheStep;
    if policy == Select {
      forall slot: nat ensures LastOf(AudioStep(Select, s, e).0.lastTs, slot) == LastMedia(Out(Select, first, events + [e]), slot) {
        StepKeepsTimes(s, first, events, e, slot);
      }
    }
  }

  lemma {:induction false} RunTells(policy: Policy, first: Mapping, events: seq<Event>)
    ensures Told(Routed(policy, Fresh(policy, first), events).0, policy, first, events, Out(policy, first, events))
    decreases |events|
  {
    hide Told, AudioStep;
    if events == [] {
      NothingTold(policy, first);
    } else {
      var init, last := events[..|events| - 1], events[|events| - 1];
      RunTells(policy, first, init);
      StepTells(Routed(policy, Fresh(policy, first), init).0, policy, first, init, last);
      EventsSnoc(policy, first, init, last);
      assert events == init + [last];
    }
  }

  lemma NothingTold(policy: Policy, first: Mapping)
    ensures Told(Fresh(policy, first), policy, first, [], Out(policy, first, []))
  {
  }

  /** Under every policy, after any tags under any maps: for an audio tag each slot gets just the header that a new map
      calls for, the latest of the slot's new track, and then the tag itself if the slot carries its track. */
  lemma SlotsAreServed(policy: Policy, first: Mapping, events: seq<Event>, e: Event, slot: nat)
    ensures InSlot(Out(policy, first, events + [e]), slot)
            == InSlot(Out(policy, first, events), slot) + (Again(policy, first, events, e, slot) + Itself(policy, first, events, e, slot))
  {
    RunTells(policy, first, events);
    EventsSnoc(policy, first, events, e);
    var s := Routed(policy, Fresh(policy, first), events).0;
    StepInSlot(s, policy, first, events, e, slot);
    InSlotAppend(Out(policy, first, events), AudioStep(policy, s, e).1, slot);
    hide InSlot, Out, Again, Itself, AudioStep, Told;
  }
}
