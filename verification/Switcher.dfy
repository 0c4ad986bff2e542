// The canonical timeline: several readers feed one switcher, each call running its critical sections in turn,
// interleaved with everyone else's.
module Switcher {
  import opened Bytes
  import opened Flv

  const SWITCH_STEP_MS := 33

  /** A source's name; the empty name, which stands for no source, is None where it may occur. */
  type Source = nat

  datatype State = State(
    active: Option<Source>, pending: Option<Source>, callback: Option<nat>, notBefore: Option<int>,
    prior: map<Key, bytes>, headers: map<Source, map<Key, bytes>>,
    outputSource: Option<Source>, lastOut: int, offset: int, waitKeyframe: bool, started: set<byte>,
    trackOut: map<Key, int>, switchOut: int)

  const FRESH := State(None, None, None, None, map[], map[], None, 0, 0, false, {}, map[], 0)

  function HeadersOf(s: State, source: Source): map<Key, bytes>
  {
    if source in s.headers then s.headers[source] else map[]
  }

  // ----- the critical sections -----

  function StoreStep(s: State, source: Source, tag: Tag): State
  {
    if IsHeader(tag) then s.(headers := s.headers[source := HeadersOf(s, source)[KeyOf(tag) := tag.payload]]) else s
  }

  /** Codec headers differ; metadata is not compared. */
  predicate HeadersDiffer(prior: map<Key, bytes>, current: map<Key, bytes>)
  {
    exists k :: k in prior.Keys + current.Keys && k != Meta && !(k in prior && k in current && prior[k] == current[k])
  }

  predicate Commits(s: State, source: Source, tag: Tag, now: int)
  {
    s.pending == Some(source) && IsAnchor(tag) && (s.notBefore.None? || now >= s.notBefore.value)
  }

  predicate ParamsChanged(s: State, source: Source)
  {
    s.prior != map[] && HeadersDiffer(s.prior, HeadersOf(s, source))
  }

  function ClearPending(s: State): State
  {
    s.(pending := None, callback := None, notBefore := None, prior := map[])
  }

  /** A pending switch takes effect on the source's first ready keyframe, unless its codec headers changed. */
  function DecideStep(s: State, source: Source, tag: Tag, now: int): State
  {
    if !Commits(s, source, tag, now) then s
    else if ParamsChanged(s, source) then ClearPending(s)
    else ClearPending(s).(active := s.pending)
  }

  function SetActiveStep(s: State, source: Option<Source>): State
  {
    ClearPending(s).(active := source)
  }

  function RequestStep(s: State, source: Source, callback: Option<nat>, notBefore: Option<int>): State
  {
    s.(pending := Some(source), callback := callback, notBefore := notBefore, prior := HeadersOf(s, source))
  }

  function ResetTimelineStep(s: State): State
  {
    s.(outputSource := None, lastOut := 0, offset := 0, switchOut := 0, waitKeyframe := false, started := {},
       trackOut := map[], headers := map[])
  }

  function Shift(tag: Tag, offset: int): Tag
  {
    Tag(tag.tagType, if tag.ts + offset < 0 then 0 else tag.ts + offset, tag.payload)
  }

  function EnterStep(s: State, source: Source): State
  {
    if s.outputSource == Some(source) then s
    else
      s.(outputSource := Some(source), lastOut := s.lastOut + SWITCH_STEP_MS, switchOut := s.lastOut + SWITCH_STEP_MS,
         waitKeyframe := true)
  }

  /** An inter frame of a rung that has not begun. */
  predicate TooEarly(s: State, tag: Tag)
  {
    IsMedia(tag) && tag.tagType == TAG_VIDEO && VideoTrackId(tag.payload) !in s.started && !IsVideoKeyframe(tag.payload)
  }

  /** The track has already been given a later time. */
  predicate Behind(s: State, tag: Tag)
  {
    IsMedia(tag) && KeyOf(tag) in s.trackOut && Shift(tag, s.offset).ts < s.trackOut[KeyOf(tag)]
  }

  predicate Dropped(s: State, tag: Tag)
  {
    TooEarly(s, tag) || Behind(s, tag)
  }

  function BeginRung(s: State, tag: Tag): State
  {
    if IsMedia(tag) && tag.tagType == TAG_VIDEO then s.(started := s.started + {VideoTrackId(tag.payload)}) else s
  }

  function Stamped(s: State, tag: Tag): State
  {
    var ts := Shift(tag, s.offset).ts;
    s.(trackOut := if IsMedia(tag) then s.trackOut[KeyOf(tag) := ts] else s.trackOut,
       lastOut := if ts > s.lastOut then ts else s.lastOut)
  }

  function PlaceStep(s: State, tag: Tag): State
  {
    if TooEarly(s, tag) then s
    else if Behind(s, tag) then BeginRung(s, tag)
    else Stamped(BeginRung(s, tag), tag)
  }

  function Placed(s: State, tag: Tag): seq<Tag>
  {
    if Dropped(s, tag) then [] else [Shift(tag, s.offset)]
  }

  function OpenStep(s: State, tag: Tag): State
  {
    s.(waitKeyframe := false, started := {0}, offset := s.lastOut - tag.ts + SWITCH_STEP_MS)
  }

  /** The timeline section, for a tag of the active source. */
  function TimelineStep(s: State, source: Source, tag: Tag): (State, seq<Tag>)
  {
    var s1 := EnterStep(s, source);
    if !s1.waitKeyframe then (PlaceStep(s1, tag), Placed(s1, tag))
    else if !IsAnchor(tag) then (s1, [])
    else
      var s2 := OpenStep(s1, tag);
      (PlaceStep(s2, tag), HeaderBlock(HeadersOf(s2, source), s2.switchOut) + Placed(s2, tag))
  }

  // ----- the object -----

  class Switcher {
    var activeSource: Option<Source>
    var pendingSource: Option<Source>
    var pendingCallback: Option<nat>
    var pendingNotBefore: Option<int>
    var pendingPriorHeaders: map<Key, bytes>
    var outputSource: Option<Source>
    var lastOutTs: int
    var offset: int
    var waitKeyframe: bool
    var startedTracks: set<byte>
    var trackOutTs: map<Key, int>
    var switchOutTs: int
    var seqHeaders: map<Source, map<Key, bytes>>
    var offered: seq<Tag>
    var called: seq<(nat, bool)>

    function Abs(): State
      reads this
    {
      State(activeSource, pendingSource, pendingCallback, pendingNotBefore, pendingPriorHeaders, seqHeaders,
            outputSource, lastOutTs, offset, waitKeyframe, startedTracks, trackOutTs, switchOutTs)
    }

    constructor ()
      ensures Abs() == FRESH && offered == [] && called == []
    {
      activeSource, pendingSource, pendingCallback, pendingNotBefore, pendingPriorHeaders := None, None, None, None, map[];
      outputSource, lastOutTs, offset, waitKeyframe, startedTracks := None, 0, 0, false, {};
      trackOutTs, switchOutTs, seqHeaders, offered, called := map[], 0, map[], [], [];
    }

    method SetActive(source: Option<Source>)
      modifies `activeSource, `pendingSource, `pendingCallback, `pendingNotBefore, `pendingPriorHeaders
      ensures Abs() == SetActiveStep(old(Abs()), source)
    {
      activeSource, pendingSource, pendingCallback := source, None, None;
      pendingNotBefore, pendingPriorHeaders := None, map[];
    }

    method RequestSwitch(source: Source, onSwitched: Option<nat>, notBefore: Option<int>)
      modifies `pendingSource, `pendingCallback, `pendingNotBefore, `pendingPriorHeaders
      ensures Abs() == RequestStep(old(Abs()), source, onSwitched, notBefore)
    {
      pendingSource, pendingCallback, pendingNotBefore := Some(source), onSwitched, notBefore;
      pendingPriorHeaders := if source in seqHeaders then seqHeaders[source] else map[];
    }

    method Reset()
      modifies this
      ensures Abs() == ResetTimelineStep(SetActiveStep(old(Abs()), None)) && offered == old(offered) && called == old(called)
    {
      SetActive(None);
      outputSource, lastOutTs, offset, switchOutTs, waitKeyframe := None, 0, 0, 0, false;
      startedTracks, trackOutTs, seqHeaders := {}, map[], map[];
    }

    method StoreHeader(source: Source, tag: Tag)
      modifies `seqHeaders
      ensures Abs() == StoreStep(old(Abs()), source, tag)
    {
      hide HeaderKey, IsSeqHeader;
      if IsHeader(tag) {
        var known := if source in seqHeaders then seqHeaders[source] else map[];
        seqHeaders := seqHeaders[source := known[KeyOf(tag) := tag.payload]];
      }
    }

    /** The first critical section; the callback is to be called outside it. */
    method Decide(source: Source, tag: Tag, now: int) returns (active: Option<Source>, callback: Option<nat>, paramsChanged: bool)
      modifies `activeSource, `pendingSource, `pendingCallback, `pendingNotBefore, `pendingPriorHeaders
      ensures Abs() == DecideStep(old(Abs()), source, tag, now) && active == Abs().active
      ensures callback == if Commits(old(Abs()), source, tag, now) then old(pendingCallback) else None
      ensures callback.Some? ==> paramsChanged == ParamsChanged(old(Abs()), source)
    {
      hide ParamsChanged, IsAnchor;
      callback, paramsChanged := None, false;
      if pendingSource == Some(source) && IsAnchor(tag) && (pendingNotBefore.None? || now >= pendingNotBefore.value) {
        callback, paramsChanged := Commit(source);
      }
      active := activeSource;
    }

    method Commit(source: Source) returns (callback: Option<nat>, paramsChanged: bool)
      modifies `activeSource, `pendingSource, `pendingCallback, `pendingNotBefore, `pendingPriorHeaders
      ensures Abs() == if paramsChanged then ClearPending(old(Abs())) else ClearPending(old(Abs())).(active := old(pendingSource))
      ensures callback == old(pendingCallback) && paramsChanged == ParamsChanged(old(Abs()), source)
    {
      hide HeadersDiffer;
      paramsChanged := pendingPriorHeaders != map[] &&
        HeadersDiffer(pendingPriorHeaders, if source in seqHeaders then seqHeaders[source] else map[]);
      if !paramsChanged {
        activeSource := pendingSource;
      }
      callback := pendingCallback;
      pendingSource, pendingCallback, pendingNotBefore, pendingPriorHeaders := None, None, None, map[];
    }

    /** The second critical section. */
    method Timeline(source: Source, tag: Tag)
      modifies `outputSource, `lastOutTs, `offset, `waitKeyframe, `startedTracks, `trackOutTs, `switchOutTs, `offered
      ensures Abs() == TimelineStep(old(Abs()), source, tag).0
      ensures offered == old(offered) + TimelineStep(old(Abs()), source, tag).1
    {
      hide IsAnchor, HeaderBlock, PlaceStep, Placed;
      if outputSource != Some(source) {
        outputSource, lastOutTs := Some(source), lastOutTs + SWITCH_STEP_MS;
        switchOutTs, waitKeyframe := lastOutTs, true;
      }
      assert Abs() == EnterStep(old(Abs()), source);
      if !waitKeyframe {
        PlaceTag(tag);
      } else if IsAnchor(tag) {
        Open(source, tag);
      }
    }

    /** The headers go out right before the keyframe, not earlier: an output must not announce a configuration
        with no data behind it. */
    method Open(source: Source, tag: Tag)
      modifies `lastOutTs, `offset, `waitKeyframe, `startedTracks, `trackOutTs, `offered
      ensures Abs() == PlaceStep(OpenStep(old(Abs()), tag), tag)
      ensures offered == old(offered) + (HeaderBlock(HeadersOf(old(Abs()), source), switchOutTs) + Placed(OpenStep(old(Abs()), tag), tag))
    {
      hide HeaderBlock, PlaceStep, Placed;
      waitKeyframe, startedTracks := false, {0};
      offset := lastOutTs - tag.ts + SWITCH_STEP_MS;
      EmitHeaders(if source in seqHeaders then seqHeaders[source] else map[], switchOutTs);
      PlaceTag(tag);
    }

    method EmitHeaders(headers: map<Key, bytes>, ts: int)
      modifies `offered
      ensures offered == old(offered) + HeaderBlock(headers, ts)
    {
      HeaderBlockCanonical(headers, ts);
      var keys := OrderedHeaderKeys(headers.Keys);
      hide OrderedHeaderKeys;
      for i := 0 to |keys|
        invariant offered == old(offered) + HeaderBlock(headers, ts)[..i]
      {
        offered := offered + [Tag(TagTypeOf(keys[i]), ts, headers[keys[i]])];
      }
      assert HeaderBlock(headers, ts)[..|keys|] == HeaderBlock(headers, ts);
    }

    method PlaceTag(tag: Tag)
      modifies `lastOutTs, `startedTracks, `trackOutTs, `offered
      ensures Abs() == PlaceStep(old(Abs()), tag) && offered == old(offered) + Placed(old(Abs()), tag)
    {
      hide KeyOf, IsMedia, VideoTrackId, IsVideoKeyframe, Stamped;
      if TooEarly(Abs(), tag) {
        return;
      }
      hide TooEarly;
      if IsMedia(tag) && tag.tagType == TAG_VIDEO {
        startedTracks := startedTracks + {VideoTrackId(tag.payload)};
      }
      assert Abs() == BeginRung(old(Abs()), tag);
      hide BeginRung;
      var out := Shift(tag, offset);
      if IsMedia(tag) && KeyOf(tag) in trackOutTs && out.ts < trackOutTs[KeyOf(tag)] {
        return;
      }
      Stamp(tag, out.ts);
    }

    method Stamp(tag: Tag, outTs: int)
      requires outTs == Shift(tag, offset).ts
      modifies `lastOutTs, `trackOutTs, `offered
      ensures Abs() == Stamped(old(Abs()), tag) && offered == old(offered) + [Shift(tag, offset)]
    {
      hide KeyOf, IsMedia;
      if IsMedia(tag) {
        trackOutTs := trackOutTs[KeyOf(tag) := outTs];
      }
      if outTs > lastOutTs {
        lastOutTs := outTs;
      }
      offered := offered + [Tag(tag.tagType, outTs, tag.payload)];
    }

    /** One call with nobody else inside: the three sections in a row. */
    method Process(source: Source, tag: Tag, now: int)
      modifies this
      ensures var s := DecideStep(StoreStep(old(Abs()), source, tag), source, tag, now);
              && Abs() == (if s.active == Some(source) then TimelineStep(s, source, tag).0 else s)
              && offered == old(offered) + if s.active == Some(source) then TimelineStep(s, source, tag).1 else []
    {
      hide StoreStep, DecideStep, TimelineStep, ParamsChanged, Commits;
      StoreHeader(source, tag);
      var active, callback, paramsChanged := Decide(source, tag, now);
      if callback.Some? {
        called := called + [(callback.value, paramsChanged)];
      }
      if active == Some(source) {
        Timeline(source, tag);
      }
    }
  }
}
