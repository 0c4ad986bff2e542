// What becomes of a requested switch, and of a tag that is let through or not, in any run.
module SwitcherRequests {
  import opened Bytes
  import opened Flv
  import opened Switcher
  import opened SwitcherRuns

  /** A coded keyframe of the canonical video track, of this source, in a reader about to decide, not before its time. */
  predicate Ready(y: Sys, step: Step, source: Source, notBefore: Option<int>)
  {
    && step.Decide? && step.reader in y.readers && y.readers[step.reader].Stored?
    && y.readers[step.reader].source == source && IsAnchor(y.readers[step.reader].tag)
    && (notBefore.Some? ==> step.now >= notBefore.value)
  }

  /** The codec headers two caches hold are the same; metadata does not matter. */
  ghost predicate SameCodecs(a: map<Key, bytes>, b: map<Key, bytes>)
  {
    forall key :: key != Meta ==> (key in a <==> key in b) && (key in a ==> a[key] == b[key])
  }

  /** No step asks for another switch, and none finds the source ready. */
  ghost predicate Unanswered(y: Sys, steps: seq<Step>, source: Source, notBefore: Option<int>)
    decreases |steps|
  {
    steps != [] ==>
      && !steps[0].SetActive? && !steps[0].Request? && !Ready(y, steps[0], source, notBefore)
      && Unanswered(SysStep(y, steps[0]), steps[1..], source, notBefore)
  }

  /** The request stands as it was made. */
  predicate Stands(y: Sys, active: Option<Source>, source: Source, callback: Option<nat>, notBefore: Option<int>,
                   prior: map<Key, bytes>, calls: seq<Call>)
  {
    && y.s.active == active && y.s.pending == Some(source) && y.s.callback == callback && y.s.notBefore == notBefore
    && y.s.prior == prior && y.calls == calls
  }

  lemma StepLeavesRequest(y: Sys, step: Step, active: Option<Source>, source: Source, callback: Option<nat>, notBefore: Option<int>,
                          prior: map<Key, bytes>, calls: seq<Call>)
    requires Stands(y, active, source, callback, notBefore, prior, calls)
    requires !step.SetActive? && !step.Request? && !Ready(y, step, source, notBefore)
    ensures Stands(SysStep(y, step), active, source, callback, notBefore, prior, calls)
  {
    hide IsAnchor, ParamsChanged, IsHeader, KeyOf, Grow, Meet, SentBy, TimelineStep, HeadersOf;
    if step.Place? && step.reader in y.readers {
      TimelineLeavesRequest(y.s, y.readers[step.reader].source, y.readers[step.reader].tag);
    }
  }

  predicate SameRequest(s: State, s': State)
  {
    && s'.active == s.active && s'.pending == s.pending && s'.callback == s.callback && s'.notBefore == s.notBefore
    && s'.prior == s.prior && s'.headers == s.headers
  }

  lemma PlaceLeavesRequest(s: State, tag: Tag)
    ensures SameRequest(s, PlaceStep(s, tag))
  {
    hide TooEarly, Behind, IsMedia, Shift, KeyOf;
  }

  lemma TimelineLeavesRequest(s: State, source: Source, tag: Tag)
    ensures SameRequest(s, TimelineStep(s, source, tag).0)
  {
    var s1 := EnterStep(s, source);
    PlaceLeavesRequest(s1, tag);
    PlaceLeavesRequest(OpenStep(s1, tag), tag);
    hide IsAnchor, PlaceStep, Placed, HeaderBlock;
  }

  lemma {:induction false} RunLeavesRequest(y: Sys, steps: seq<Step>, active: Option<Source>, source: Source, callback: Option<nat>,
                                            notBefore: Option<int>, prior: map<Key, bytes>, calls: seq<Call>)
    requires Stands(y, active, source, callback, notBefore, prior, calls) && Unanswered(y, steps, source, notBefore)
    ensures Stands(SysRun(y, steps), active, source, callback, notBefore, prior, calls)
    decreases |steps|
  {
    hide SysStep, Stands, Ready;
    if steps != [] {
      StepLeavesRequest(y, steps[0], active, source, callback, notBefore, prior, calls);
      RunLeavesRequest(SysStep(y, steps[0]), steps[1..], active, source, callback, notBefore, prior, calls);
    }
  }

  lemma DifferIff(a: map<Key, bytes>, b: map<Key, bytes>)
    ensures HeadersDiffer(a, b) <==> !SameCodecs(a, b)
  {
    if HeadersDiffer(a, b) {
      var k :| k in a.Keys + b.Keys && k != Meta && !(k in a && k in b && a[k] == b[k]);
      assert !((k in a <==> k in b) && (k in a ==> a[k] == b[k]));
    }
    if !SameCodecs(a, b) {
      var k :| k != Meta && !((k in a <==> k in b) && (k in a ==> a[k] == b[k]));
      assert k in a.Keys + b.Keys;
    }
  }

  lemma ReadyAnswers(y: Sys, step: Step, active: Option<Source>, source: Source, callback: Option<nat>, notBefore: Option<int>,
                     prior: map<Key, bytes>)
    requires Stands(y, active, source, callback, notBefore, prior, y.calls) && Ready(y, step, source, notBefore)
    ensures var y' := SysStep(y, step);
            var made := prior == map[] || SameCodecs(prior, HeadersOf(y.s, source));
            && y'.s.active == (if made then Some(source) else active)
            && y'.s.pending.None?
            && y'.calls == (match callback case None => y.calls case Some(cb) => y.calls + [Call(cb, !made)])
            && (step.reader in y'.readers <==> y'.s.active == Some(source))
  {
    DifferIff(prior, HeadersOf(y.s, source));
    hide IsAnchor, HeadersDiffer, SameCodecs, HeadersOf;
  }

  /** A requested switch is made at its source's first ready keyframe, and not before: until then nothing changes and
      no callback is called, whatever else happens. At that keyframe the request is used up and its callback called; and
      the source becomes the active one if and only if its codec headers are still those it had at the request, or it
      had none then. */
  lemma RequestIsAnswered(y: Sys, source: Source, callback: Option<nat>, notBefore: Option<int>, steps: seq<Step>, ready: Step)
    requires Unanswered(SysStep(y, Request(source, callback, notBefore)), steps, source, notBefore)
    requires Ready(SysRun(SysStep(y, Request(source, callback, notBefore)), steps), ready, source, notBefore)
    ensures var before := SysRun(SysStep(y, Request(source, callback, notBefore)), steps);
            var after := SysStep(before, ready);
            var prior, now := HeadersOf(y.s, source), HeadersOf(before.s, source);
            var made := prior == map[] || SameCodecs(prior, now);
            && before.s.active == y.s.active && before.calls == y.calls
            && after.s.active == (if made then Some(source) else y.s.active) && after.s.pending.None?
            && after.calls == (match callback case None => y.calls case Some(cb) => y.calls + [Call(cb, !made)])
  {
    var y1 := SysStep(y, Request(source, callback, notBefore));
    assert Stands(y1, y.s.active, source, callback, notBefore, HeadersOf(y.s, source), y.calls);
    hide SysStep, SysRun, Unanswered, Ready, HeadersOf, SameCodecs;
    RunLeavesRequest(y1, steps, y.s.active, source, callback, notBefore, HeadersOf(y.s, source), y.calls);
    ReadyAnswers(SysRun(y1, steps), ready, y.s.active, source, callback, notBefore, HeadersOf(y.s, source));
  }

  /** Without a request pending for it, a reader's tag is let through to the timeline if and only if its source is the
      active one; a decision changes nothing else. */
  lemma DecisionPassesActive(y: Sys, r: nat, now: int)
    requires r in y.readers && y.readers[r].Stored? && y.s.pending != Some(y.readers[r].source)
    ensures var y' := SysStep(y, Decide(r, now));
            && y'.s == y.s && y'.calls == y.calls && y'.out == y.out
            && y'.readers == (if y.s.active == Some(y.readers[r].source)
                              then y.readers[r := Passed(y.readers[r].source, y.readers[r].tag)] else y.readers - {r})
  {
    hide IsAnchor, ParamsChanged;
  }

  /** SetActive switches at once and drops any request, whose callback is then never called for it. */
  lemma SetActiveIsImmediate(y: Sys, to: Option<Source>)
    ensures var y' := SysStep(y, SetActive(to));
            && y'.s.active == to && y'.s.pending.None? && y'.s.callback.None?
            && SameTimeline(y.s, y'.s) && y'.s.headers == y.s.headers && y'.calls == y.calls && y'.out == y.out
  {
  }
}
