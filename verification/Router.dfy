// The track router's audio: tracks go into output slots under a map that changes at any moment.
module Router {
  import opened Bytes
  import Flv

  datatype Policy = Fixed | Select | Chimera

  /** The track each slot is to carry; a negative entry switches the slot off. */
  type Mapping = seq<int>

  /** What goes into a slot, before the slot's wrapper is put around it. */
  datatype Line = Line(slot: nat, ts: int, payload: bytes)

  /** An audio tag of a track, and the map as it is read while the tag is routed. */
  datatype Event = Event(track: nat, ts: int, payload: bytes, mapping: Mapping)

  datatype State = State(lastSeq: map<int, bytes>, lastTs: map<nat, int>, prior: Mapping)

  function Fresh(policy: Policy, mapping: Mapping): State
  {
    State(map[], map[], if policy == Fixed then [] else mapping)
  }

  predicate IsHeader(payload: bytes)
  {
    Flv.IsAacSeqHeader(payload)
  }

  /** The payload into the first n slots that carry the track. */
  function SlotLines(cur: Mapping, e: Event, n: nat): seq<Line>
    requires n <= |cur|
  {
    if n == 0 then []
    else SlotLines(cur, e, n - 1) + if cur[n - 1] == e.track then [Line(n - 1, e.ts, e.payload)] else []
  }

  function LastOf(lastTs: map<nat, int>, slot: nat): int
  {
    if slot in lastTs then lastTs[slot] else -1
  }

  /** Only into slots whose last media tag is older. */
  function Passes(s: State, e: Event, slot: nat): bool
    requires slot < |e.mapping|
  {
    e.mapping[slot] == e.track && e.ts > LastOf(s.lastTs, slot)
  }

  function GuardedLines(s: State, e: Event, n: nat): seq<Line>
    requires n <= |e.mapping|
  {
    if n == 0 then []
    else GuardedLines(s, e, n - 1) + if Passes(s, e, n - 1) then [Line(n - 1, e.ts, e.payload)] else []
  }

  function GuardedTs(s: State, e: Event, n: nat): map<nat, int>
    requires n <= |e.mapping|
  {
    if n == 0 then s.lastTs
    else if Passes(s, e, n - 1) then GuardedTs(s, e, n - 1)[n - 1 := e.ts]
    else GuardedTs(s, e, n - 1)
  }

  function PriorOf(prior: Mapping, slot: nat): int
  {
    if slot < |prior| then prior[slot] else -1
  }

  /** A slot whose cached header is sent again under a new map. */
  predicate Redeclares(policy: Policy, s: State, cur: Mapping, slot: nat)
    requires slot < |cur|
  {
    cur[slot] >= 0 && (policy == Select ==> cur[slot] != PriorOf(s.prior, slot)) && cur[slot] in s.lastSeq
  }

  function Redeclared(policy: Policy, s: State, cur: Mapping, ts: int, n: nat): seq<Line>
    requires n <= |cur|
  {
    if n == 0 then []
    else
      Redeclared(policy, s, cur, ts, n - 1)
      + if Redeclares(policy, s, cur, n - 1) then [Line(n - 1, ts, s.lastSeq[cur[n - 1]])] else []
  }

  function CacheStep(policy: Policy, s: State, e: Event): State
  {
    if policy != Fixed && IsHeader(e.payload) then s.(lastSeq := s.lastSeq[e.track := e.payload]) else s
  }

  /** The map is new: cached headers first. */
  function RemapStep(policy: Policy, s: State, e: Event): (State, seq<Line>)
  {
    if policy == Fixed || e.mapping == s.prior then (s, [])
    else (s.(prior := e.mapping), Redeclared(policy, s, e.mapping, e.ts, |e.mapping|))
  }

  function DeliverStep(policy: Policy, s: State, e: Event): (State, seq<Line>)
  {
    if policy == Select then (s.(lastTs := GuardedTs(s, e, |e.mapping|)), GuardedLines(s, e, |e.mapping|))
    else (s, SlotLines(e.mapping, e, |e.mapping|))
  }

  /** One audio tag. Under the select policy a header goes to its slots and nowhere else, and no map is noted. */
  function AudioStep(policy: Policy, s: State, e: Event): (State, seq<Line>)
  {
    var s1 := CacheStep(policy, s, e);
    if policy == Select && IsHeader(e.payload) then (s1, SlotLines(e.mapping, e, |e.mapping|))
    else
      var (s2, again) := RemapStep(policy, s1, e);
      var (s3, lines) := DeliverStep(policy, s2, e);
      (s3, again + lines)
  }

  function Routed(policy: Policy, s: State, events: seq<Event>): (State, seq<Line>)
  {
    if events == [] then (s, [])
    else
      var (s1, out) := Routed(policy, s, events[..|events| - 1]);
      var (s2, lines) := AudioStep(policy, s1, events[|events| - 1]);
      (s2, out + lines)
  }

  // ----- the object -----

  class Router {
    const policy: Policy
    var lastSeq: map<int, bytes>
    var lastTs: map<nat, int>
    var prior: Mapping
    var lines: seq<Line>

    function Abs(): State
      reads this
    {
      State(lastSeq, lastTs, prior)
    }

    constructor (how: Policy, mapping: Mapping)
      ensures Abs() == Fresh(how, mapping) && policy == how && lines == []
    {
      policy, lastSeq, lastTs, lines := how, map[], map[], [];
      prior := if how == Fixed then [] else mapping;
    }

    method Audio(e: Event)
      modifies this
      ensures Abs() == AudioStep(policy, old(Abs()), e).0
      ensures lines == old(lines) + AudioStep(policy, old(Abs()), e).1
    {
      hide IsHeader, Redeclares;
      if policy != Fixed && IsHeader(e.payload) {
        lastSeq := lastSeq[e.track := e.payload];
        if policy == Select {
          ToSlots(e);
          return;
        }
      }
      ghost var s1 := Abs();
      var cur := e.mapping;
      if policy != Fixed && cur != prior {
        Redeclare(cur, e.ts);
        prior := cur;
      }
      ghost var before := lines;
      assert before == old(lines) + RemapStep(policy, s1, e).1;
      if policy == Select {
        ToGuardedSlots(e);
      } else {
        ToSlots(e);
      }
    }

    method ToSlots(e: Event)
      modifies `lines
      ensures lines == old(lines) + SlotLines(e.mapping, e, |e.mapping|)
    {
      for slot := 0 to |e.mapping|
        invariant lines == old(lines) + SlotLines(e.mapping, e, slot)
      {
        if e.mapping[slot] == e.track {
          lines := lines + [Line(slot, e.ts, e.payload)];
        }
      }
    }

    method ToGuardedSlots(e: Event)
      modifies `lines, `lastTs
      ensures Abs() == old(Abs()).(lastTs := GuardedTs(old(Abs()), e, |e.mapping|))
      ensures lines == old(lines) + GuardedLines(old(Abs()), e, |e.mapping|)
    {
      for slot := 0 to |e.mapping|
        invariant lastTs == GuardedTs(old(Abs()), e, slot)
        invariant lines == old(lines) + GuardedLines(old(Abs()), e, slot)
      {
        GuardedUnseen(old(Abs()), e, slot, slot);
        if e.mapping[slot] == e.track {
          var last := if slot in lastTs then lastTs[slot] else -1;
          if e.ts > last {
            lastTs := lastTs[slot := e.ts];
            lines := lines + [Line(slot, e.ts, e.payload)];
          }
        }
      }
    }

    method Redeclare(cur: Mapping, ts: int)
      modifies `lines
      ensures lines == old(lines) + Redeclared(policy, Abs(), cur, ts, |cur|)
    {
      for slot := 0 to |cur|
        invariant lines == old(lines) + Redeclared(policy, Abs(), cur, ts, slot)
      {
        if cur[slot] >= 0 && (policy != Select || cur[slot] != PriorOf(prior, slot)) && cur[slot] in lastSeq {
          lines := lines + [Line(slot, ts, lastSeq[cur[slot]])];
        }
      }
    }
  }

  /** Earlier slots of the same tag leave a later slot's time alone. */
  lemma {:induction false} GuardedUnseen(s: State, e: Event, n: nat, slot: nat)
    requires n <= |e.mapping| && n <= slot
    ensures LastOf(GuardedTs(s, e, n), slot) == LastOf(s.lastTs, slot)
  {
    if n > 0 {
      GuardedUnseen(s, e, n - 1, slot);
    }
  }

  // ----- headers precede media -----

  /** The header last sent into a slot. */
  function LastHeader(out: seq<Line>, slot: nat): Option<bytes>
  {
    if out == [] then None
    else
      var last := out[|out| - 1];
      if last.slot == slot && IsHeader(last.payload) then Some(last.payload) else LastHeader(out[..|out| - 1], slot)
  }

  lemma HeaderSnoc(out: seq<Line>, line: Line, slot: nat)
    ensures LastHeader(out + [line], slot)
            == if line.slot == slot && IsHeader(line.payload) then Some(line.payload) else LastHeader(out, slot)
  {
    assert (out + [line])[..|out|] == out;
  }

  /** Every slot under the last map has seen the latest header of its track, if one is cached. */
  ghost predicate Declared(s: State, out: seq<Line>)
  {
    && (forall track :: track in s.lastSeq ==> IsHeader(s.lastSeq[track]))
    && forall slot: nat :: slot < |s.prior| && s.prior[slot] >= 0 && s.prior[slot] in s.lastSeq ==>
         LastHeader(out, slot) == Some(s.lastSeq[s.prior[slot]])
  }

  lemma {:induction false} HeaderAfterSlots(out: seq<Line>, cur: Mapping, e: Event, n: nat, slot: nat)
    requires n <= |cur|
    ensures LastHeader(out + SlotLines(cur, e, n), slot)
            == if slot < n && cur[slot] == e.track && IsHeader(e.payload) then Some(e.payload) else LastHeader(out, slot)
  {
    hide LastHeader, IsHeader;
    if n == 0 {
      assert out + [] == out;
    } else {
      HeaderAfterSlots(out, cur, e, n - 1, slot);
      var lines := SlotLines(cur, e, n - 1);
      var line := Line(n - 1, e.ts, e.payload);
      HeaderSnoc(out + lines, line, slot);
      assert out + (lines + [line]) == (out + lines) + [line] && lines + [] == lines;
    }
  }

  lemma {:induction false} HeaderAfterGuarded(out: seq<Line>, s: State, e: Event, n: nat, slot: nat)
    requires n <= |e.mapping| && !IsHeader(e.payload)
    ensures LastHeader(out + GuardedLines(s, e, n), slot) == LastHeader(out, slot)
  {
    hide LastHeader, IsHeader, Passes;
    if n == 0 {
      assert out + [] == out;
    } else {
      HeaderAfterGuarded(out, s, e, n - 1, slot);
      var lines := GuardedLines(s, e, n - 1);
      var line := Line(n - 1, e.ts, e.payload);
      HeaderSnoc(out + lines, line, slot);
      assert out + (lines + [line]) == (out + lines) + [line] && lines + [] == lines;
    }
  }

  lemma {:induction false} HeaderAfterRedeclared(out: seq<Line>, policy: Policy, s: State, cur: Mapping, ts: int, n: nat, slot: nat)
    requires n <= |cur| && forall track :: track in s.lastSeq ==> IsHeader(s.lastSeq[track])
    ensures LastHeader(out + Redeclared(policy, s, cur, ts, n), slot)
            == if slot < n && Redeclares(policy, s, cur, slot) then Some(s.lastSeq[cur[slot]]) else LastHeader(out, slot)
  {
    hide LastHeader, IsHeader;
    if n == 0 {
      assert out + [] == out;
    } else {
      HeaderAfterRedeclared(out, policy, s, cur, ts, n - 1, slot);
      var lines := Redeclared(policy, s, cur, ts, n - 1);
      assert lines + [] == lines;
      if Redeclares(policy, s, cur, n - 1) {
        var line := Line(n - 1, ts, s.lastSeq[cur[n - 1]]);
        HeaderSnoc(out + lines, line, slot);
        assert out + (lines + [line]) == (out + lines) + [line];
      }
    }
  }

  /** The cache is ahead of one track's slots, which are about to be served. */
  ghost predicate DeclaredBut(s: State, out: seq<Line>, track: int)
  {
    && (forall t :: t in s.lastSeq ==> IsHeader(s.lastSeq[t]))
    && forall slot: nat :: slot < |s.prior| && s.prior[slot] >= 0 && s.prior[slot] in s.lastSeq && s.prior[slot] != track ==>
         LastHeader(out, slot) == Some(s.lastSeq[s.prior[slot]])
  }

  lemma RemapDeclares(policy: Policy, s: State, e: Event, out: seq<Line>)
    requires policy != Fixed && Declared(s, out)
    ensures var (s', again) := RemapStep(policy, s, e); Declared(s', out + again) && s'.prior == e.mapping && s'.lastSeq == s.lastSeq
  {
    hide LastHeader, IsHeader;
    if e.mapping == s.prior {
      assert out + [] == out;
    } else {
      forall slot: nat | slot < |e.mapping| && e.mapping[slot] >= 0 && e.mapping[slot] in s.lastSeq
        ensures LastHeader(out + Redeclared(policy, s, e.mapping, e.ts, |e.mapping|), slot) == Some(s.lastSeq[e.mapping[slot]])
      {
        HeaderAfterRedeclared(out, policy, s, e.mapping, e.ts, |e.mapping|, slot);
      }
    }
  }

  lemma ChimeraRemapDeclares(s: State, e: Event, out: seq<Line>)
    requires DeclaredBut(s, out, e.track)
    ensures var (s', again) := RemapStep(Chimera, s, e); DeclaredBut(s', out + again, e.track) && s'.prior == e.mapping
  {
    hide LastHeader, IsHeader;
    if e.mapping == s.prior {
      assert out + [] == out;
    } else {
      forall slot: nat | slot < |e.mapping| && e.mapping[slot] >= 0 && e.mapping[slot] in s.lastSeq
        ensures LastHeader(out + Redeclared(Chimera, s, e.mapping, e.ts, |e.mapping|), slot) == Some(s.lastSeq[e.mapping[slot]])
      {
        HeaderAfterRedeclared(out, Chimera, s, e.mapping, e.ts, |e.mapping|, slot);
      }
    }
  }

  lemma ChimeraMediaDeclares(s: State, e: Event, out: seq<Line>)
    requires Declared(s, out) && !IsHeader(e.payload)
    ensures var (s', lines) := AudioStep(Chimera, s, e); Declared(s', out + lines) && s'.prior == e.mapping
    ensures var again := RemapStep(Chimera, CacheStep(Chimera, s, e), e).1;
            Declared(AudioStep(Chimera, s, e).0, out + again)
  {
    hide LastHeader, IsHeader;
    RemapDeclares(Chimera, s, e, out);
    var (s2, again) := RemapStep(Chimera, s, e);
    var lines := SlotLines(e.mapping, e, |e.mapping|);
    forall slot: nat ensures LastHeader(out + (again + lines), slot) == LastHeader(out + again, slot) {
      HeaderAfterSlots(out + again, e.mapping, e, |e.mapping|, slot);
      assert out + (again + lines) == (out + again) + lines;
    }
  }

  lemma ChimeraHeaderDeclares(s: State, e: Event, out: seq<Line>)
    requires Declared(s, out) && IsHeader(e.payload)
    ensures var (s', lines) := AudioStep(Chimera, s, e); Declared(s', out + lines) && s'.prior == e.mapping
  {
    hide LastHeader, IsHeader;
    var s1 := CacheStep(Chimera, s, e);
    ChimeraRemapDeclares(s1, e, out);
    var (s2, again) := RemapStep(Chimera, s1, e);
    var lines := SlotLines(e.mapping, e, |e.mapping|);
    assert out + (again + lines) == (out + again) + lines;
    forall slot: nat | slot < |e.mapping| && e.mapping[slot] >= 0 && e.mapping[slot] in s2.lastSeq
      ensures LastHeader(out + (again + lines), slot) == Some(s2.lastSeq[e.mapping[slot]])
    {
      HeaderAfterSlots(out + again, e.mapping, e, |e.mapping|, slot);
    }
  }

  lemma {:induction false} ChimeraRunDeclares(mapping: Mapping, events: seq<Event>)
    ensures var (s, out) := Routed(Chimera, Fresh(Chimera, mapping), events); Declared(s, out)
    decreases |events|
  {
    hide AudioStep, Declared, IsHeader;
    if events == [] {
      NothingCached(mapping);
    } else {
      var init, e := events[..|events| - 1], events[|events| - 1];
      ChimeraRunDeclares(mapping, init);
      var (s, out) := Routed(Chimera, Fresh(Chimera, mapping), init);
      if IsHeader(e.payload) {
        ChimeraHeaderDeclares(s, e, out);
      } else {
        ChimeraMediaDeclares(s, e, out);
      }
    }
  }

  lemma NothingCached(mapping: Mapping)
    ensures Declared(Fresh(Chimera, mapping), []) && Declared(Fresh(Select, mapping), [])
  {
  }

  /** Under the chimera policy, however the map changes between tags: when a media tag goes into its slots, the
      header last sent into each of them is the latest of the tag's own track, if one is cached. */
  lemma ChimeraHeaderPrecedesMedia(mapping: Mapping, events: seq<Event>, e: Event, slot: nat)
    requires !IsHeader(e.payload) && slot < |e.mapping| && e.mapping[slot] == e.track
    ensures var (s, out) := Routed(Chimera, Fresh(Chimera, mapping), events);
            var again := RemapStep(Chimera, CacheStep(Chimera, s, e), e).1;
            && AudioStep(Chimera, s, e).1 == again + SlotLines(e.mapping, e, |e.mapping|)
            && Line(slot, e.ts, e.payload) in SlotLines(e.mapping, e, |e.mapping|)
            && (e.track in s.lastSeq ==> LastHeader(out + again, slot) == Some(s.lastSeq[e.track]))
  {
    hide LastHeader, IsHeader, Routed;
    ChimeraRunDeclares(mapping, events);
    var (s, out) := Routed(Chimera, Fresh(Chimera, mapping), events);
    ChimeraMediaDeclares(s, e, out);
    SlotIsServed(e.mapping, e, |e.mapping|, slot);
    assert AudioStep(Chimera, s, e).0.lastSeq == s.lastSeq;
  }

  lemma {:induction false} SlotIsServed(cur: Mapping, e: Event, n: nat, slot: nat)
    requires slot < n <= |cur| && cur[slot] == e.track
    ensures Line(slot, e.ts, e.payload) in SlotLines(cur, e, n)
  {
    if slot < n - 1 {
      SlotIsServed(cur, e, n - 1, slot);
    }
  }

  // ----- the select policy -----

  /** Within each slot, media times strictly increase. */
  ghost predicate SlotsRise(out: seq<Line>)
  {
    forall i, j :: 0 <= i < j < |out| && out[i].slot == out[j].slot && !IsHeader(out[i].payload) && !IsHeader(out[j].payload) ==>
      out[i].ts < out[j].ts
  }

  ghost predicate SlotsKnown(out: seq<Line>, lastTs: map<nat, int>)
  {
    forall i :: 0 <= i < |out| && !IsHeader(out[i].payload) ==> out[i].slot in lastTs && out[i].ts <= lastTs[out[i].slot]
  }

  lemma RiseSnoc(out: seq<Line>, lastTs: map<nat, int>, line: Line)
    requires SlotsRise(out) && SlotsKnown(out, lastTs)
    requires !IsHeader(line.payload) ==> line.ts > LastOf(lastTs, line.slot)
    ensures SlotsRise(out + [line])
    ensures SlotsKnown(out + [line], if IsHeader(line.payload) then lastTs else lastTs[line.slot := line.ts])
  {
    hide IsHeader;
  }

  lemma {:induction false} SlotHeadersRise(out: seq<Line>, lastTs: map<nat, int>, cur: Mapping, e: Event, n: nat)
    requires n <= |cur| && IsHeader(e.payload) && SlotsRise(out) && SlotsKnown(out, lastTs)
    ensures var all := out + SlotLines(cur, e, n); SlotsRise(all) && SlotsKnown(all, lastTs)
  {
    hide IsHeader, SlotsRise, SlotsKnown;
    if n == 0 {
      assert out + [] == out;
    } else {
      SlotHeadersRise(out, lastTs, cur, e, n - 1);
      var lines := SlotLines(cur, e, n - 1);
      var line := Line(n - 1, e.ts, e.payload);
      RiseSnoc(out + lines, lastTs, line);
      assert out + (lines + [line]) == (out + lines) + [line] && lines + [] == lines;
    }
  }

  lemma {:induction false} RedeclaredRise(out: seq<Line>, s: State, cur: Mapping, ts: int, n: nat)
    requires n <= |cur| && SlotsRise(out) && SlotsKnown(out, s.lastTs)
    requires forall track :: track in s.lastSeq ==> IsHeader(s.lastSeq[track])
    ensures var all := out + Redeclared(Select, s, cur, ts, n); SlotsRise(all) && SlotsKnown(all, s.lastTs)
  {
    hide IsHeader, SlotsRise, SlotsKnown;
    if n == 0 {
      assert out + [] == out;
    } else {
      RedeclaredRise(out, s, cur, ts, n - 1);
      var lines := Redeclared(Select, s, cur, ts, n - 1);
      assert lines + [] == lines;
      if Redeclares(Select, s, cur, n - 1) {
        var line := Line(n - 1, ts, s.lastSeq[cur[n - 1]]);
        RiseSnoc(out + lines, s.lastTs, line);
        assert out + (lines + [line]) == (out + lines) + [line];
      }
    }
  }

  lemma {:induction false} GuardedRise(out: seq<Line>, s: State, e: Event, n: nat)
    requires n <= |e.mapping| && !IsHeader(e.payload) && SlotsRise(out) && SlotsKnown(out, s.lastTs)
    ensures var all := out + GuardedLines(s, e, n); SlotsRise(all) && SlotsKnown(all, GuardedTs(s, e, n))
  {
    hide IsHeader, SlotsRise, SlotsKnown;
    if n == 0 {
      assert out + [] == out;
    } else {
      GuardedRise(out, s, e, n - 1);
      GuardedUnseen(s, e, n - 1, n - 1);
      var lines := GuardedLines(s, e, n - 1);
      assert lines + [] == lines;
      if Passes(s, e, n - 1) {
        var line := Line(n - 1, e.ts, e.payload);
        RiseSnoc(out + lines, GuardedTs(s, e, n - 1), line);
        assert out + (lines + [line]) == (out + lines) + [line];
      }
    }
  }

  ghost predicate SelectInv(s: State, out: seq<Line>)
  {
    && SlotsRise(out) && SlotsKnown(out, s.lastTs)
    && forall track :: track in s.lastSeq ==> IsHeader(s.lastSeq[track])
  }

  lemma SelectStepRises(s: State, e: Event, out: seq<Line>)
    requires SelectInv(s, out)
    ensures var (s', lines) := AudioStep(Select, s, e); SelectInv(s', out + lines)
  {
    hide IsHeader, SlotsRise, SlotsKnown, Redeclares, Passes;
    var n := |e.mapping|;
    if IsHeader(e.payload) {
      SlotHeadersRise(out, s.lastTs, e.mapping, e, n);
    } else {
      var (s2, again) := RemapStep(Select, s, e);
      RedeclaredRise(out, s, e.mapping, e.ts, n);
      assert out + [] == out;
      GuardedRise(out + again, s2, e, n);
      assert out + (again + GuardedLines(s2, e, n)) == (out + again) + GuardedLines(s2, e, n);
    }
  }

  /** Under the select policy the media times of every slot strictly increase, across any remaps. */
  lemma {:induction false} SelectSlotsRise(mapping: Mapping, events: seq<Event>)
    ensures var (s, out) := Routed(Select, Fresh(Select, mapping), events); SelectInv(s, out) && SlotsRise(out)
    decreases |events|
  {
    hide AudioStep, SlotsRise, SlotsKnown, IsHeader;
    if events == [] {
      NothingRouted();
    } else {
      var init := events[..|events| - 1];
      SelectSlotsRise(mapping, init);
      var (s, out) := Routed(Select, Fresh(Select, mapping), init);
      SelectStepRises(s, events[|events| - 1], out);
    }
  }

  lemma NothingRouted()
    ensures SlotsRise([]) && SlotsKnown([], map[])
  {
  }

  lemma SelectMediaDeclares(s: State, e: Event, out: seq<Line>)
    requires Declared(s, out) && !IsHeader(e.payload)
    ensures var (s', lines) := AudioStep(Select, s, e); Declared(s', out + lines)
  {
    hide LastHeader, IsHeader, Passes;
    RemapDeclares(Select, s, e, out);
    var (s2, again) := RemapStep(Select, s, e);
    var lines := GuardedLines(s2, e, |e.mapping|);
    forall slot: nat ensures LastHeader(out + (again + lines), slot) == LastHeader(out + again, slot) {
      HeaderAfterGuarded(out + again, s2, e, |e.mapping|, slot);
      assert out + (again + lines) == (out + again) + lines;
    }
  }

  /** The map read with the header puts the track where the last noted map has it. */
  predicate MapAsNoted(s: State, e: Event)
  {
    forall slot: nat :: slot < |s.prior| && (s.prior[slot] == e.track || (s.prior[slot] >= 0 && s.prior[slot] in s.lastSeq)) ==>
      (s.prior[slot] == e.track <==> slot < |e.mapping| && e.mapping[slot] == e.track)
  }

  /** Under the select policy a new header keeps every slot declared exactly when the map it is routed by puts its
      track where the last noted map does. */
  lemma SelectHeaderDeclaresIff(s: State, e: Event, out: seq<Line>)
    requires Declared(s, out) && IsHeader(e.payload)
    requires e.payload !in s.lastSeq.Values && forall slot: nat :: LastHeader(out, slot) != Some(e.payload)
    ensures var (s', lines) := AudioStep(Select, s, e); Declared(s', out + lines) <==> MapAsNoted(s, e)
  {
    hide LastHeader, IsHeader;
    var (s', lines) := AudioStep(Select, s, e);
    forall slot: nat
      ensures LastHeader(out + lines, slot)
              == if slot < |e.mapping| && e.mapping[slot] == e.track then Some(e.payload) else LastHeader(out, slot)
    {
      HeaderAfterSlots(out, e.mapping, e, |e.mapping|, slot);
    }
    assert forall track :: track in s.lastSeq ==> s.lastSeq[track] in s.lastSeq.Values;
    if Declared(s', out + lines) {
      forall slot: nat | slot < |s.prior| && (s.prior[slot] == e.track || (s.prior[slot] >= 0 && s.prior[slot] in s.lastSeq))
        ensures s.prior[slot] == e.track <==> slot < |e.mapping| && e.mapping[slot] == e.track
      {
        assert LastHeader(out + lines, slot) == Some(s'.lastSeq[s.prior[slot]]);
      }
    }
  }

  lemma SelectHeaderKeeps(s: State, e: Event, out: seq<Line>)
    requires Declared(s, out) && IsHeader(e.payload) && MapAsNoted(s, e)
    ensures var (s', lines) := AudioStep(Select, s, e); Declared(s', out + lines)
  {
    hide LastHeader, IsHeader;
    var (s', lines) := AudioStep(Select, s, e);
    forall slot: nat | slot < |s.prior| && s.prior[slot] >= 0 && s.prior[slot] in s'.lastSeq
      ensures LastHeader(out + lines, slot) == Some(s'.lastSeq[s.prior[slot]])
    {
      HeaderAfterSlots(out, e.mapping, e, |e.mapping|, slot);
    }
  }

  /** No header of the run came under a map that moved its track unseen. */
  ghost predicate AllAsNoted(mapping: Mapping, events: seq<Event>)
  {
    events != [] ==>
      var init, last := events[..|events| - 1], events[|events| - 1];
      && AllAsNoted(mapping, init)
      && (IsHeader(last.payload) ==> MapAsNoted(Routed(Select, Fresh(Select, mapping), init).0, last))
  }

  /** Under the select policy, in every run whose headers came under maps as noted, each slot of the last map has
      seen the latest header of its track. */
  lemma {:induction false} SelectRunDeclares(mapping: Mapping, events: seq<Event>)
    requires AllAsNoted(mapping, events)
    ensures var (s, out) := Routed(Select, Fresh(Select, mapping), events); Declared(s, out)
    decreases |events|
  {
    hide AudioStep, Declared, IsHeader, MapAsNoted;
    if events == [] {
      NothingCached(mapping);
    } else {
      var init, e := events[..|events| - 1], events[|events| - 1];
      SelectRunDeclares(mapping, init);
      var (s, out) := Routed(Select, Fresh(Select, mapping), init);
      if IsHeader(e.payload) {
        SelectHeaderKeeps(s, e, out);
      } else {
        SelectMediaDeclares(s, e, out);
      }
    }
  }

  function Header(x: byte): bytes
  {
    [0xAF, 0, x]
  }

  /** A detour of the map past a header: the slot returns to its first track, which it is not told of again. */
  lemma SelectMissesHeader()
    ensures var media := Event(0, 30, [0xAF, 1], [0]);
            var (s, out) := Routed(Select, Fresh(Select, [0]),
                                   [Event(0, 10, Header(1), [0]), Event(1, 20, Header(2), [1])]);
            && AudioStep(Select, s, media).1 == [Line(0, 30, [0xAF, 1])]
            && s.lastSeq[0] == Header(1) && LastHeader(out, 0) == Some(Header(2))
  {
    var e1, e2, media := Event(0, 10, Header(1), [0]), Event(1, 20, Header(2), [1]), Event(0, 30, [0xAF, 1], [0]);
    var s0 := Fresh(Select, [0]);
    assert [e1, e2][..1] == [e1] && [e1][..0] == [];
    assert IsHeader(Header(1)) && IsHeader(Header(2)) && !IsHeader(media.payload);
    assert SlotLines([0], e1, 1) == [Line(0, 10, Header(1))];
    assert SlotLines([1], e2, 1) == [Line(0, 20, Header(2))];
    assert AudioStep(Select, s0, e1) == (s0.(lastSeq := map[0 := Header(1)]), [Line(0, 10, Header(1))]);
    assert [] + [Line(0, 10, Header(1))] == [Line(0, 10, Header(1))];
    assert Routed(Select, s0, [e1]) == (s0.(lastSeq := map[0 := Header(1)]), [Line(0, 10, Header(1))]);
    var s1, s := s0.(lastSeq := map[0 := Header(1)]), s0.(lastSeq := map[0 := Header(1), 1 := Header(2)]);
    assert AudioStep(Select, s1, e2) == (s, [Line(0, 20, Header(2))]);
    assert [Line(0, 10, Header(1))] + [Line(0, 20, Header(2))] == [Line(0, 10, Header(1)), Line(0, 20, Header(2))];
    assert Routed(Select, s0, [e1, e2]) == (s, [Line(0, 10, Header(1)), Line(0, 20, Header(2))]);
    HeaderSnoc([Line(0, 10, Header(1))], Line(0, 20, Header(2)), 0);
    assert GuardedLines(s, media, 1) == [Line(0, 30, [0xAF, 1])];
  }
}
