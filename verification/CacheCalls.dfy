// What a call of the artifact cache comes to: alone, behind another call, and in any run.
module CacheCalls {
  import opened Cache

  /** A caller's place changes only by its own steps. */
  lemma OthersLeave(y: Sys, step: Step, t: Caller)
    requires step.caller != t
    ensures var y' := SysStep(y, step); (t in y'.at <==> t in y.at) && (t in y.at ==> y'.at[t] == y.at[t])
  {
    hide ArtifactValid;
  }

  /** All the steps of one call that builds, each with its outcome. A step that does not fit does nothing. */
  function CallSteps(t: Caller, key: Key, startOk: bool, exitOk: bool, sidecarOk: bool, renameOk: bool): seq<Step>
  {
    [Call(t, key), FastCheck(t), Register(t), TakeSlot(t)]
    + [Spawn(t, startOk), Exit(t, exitOk), WriteSidecar(t, sidecarOk), Rename(t, renameOk)]
    + [ReleaseSlot(t), Unregister(t), CloseDone(t)]
  }

  lemma {:induction false} RunAppend(y: Sys, a: seq<Step>, b: seq<Step>)
    ensures SysRun(y, a + b) == SysRun(SysRun(y, a), b)
    decreases |a|
  {
    hide SysStep;
    if a == [] {
      assert a + b == b;
    } else {
      assert (a + b)[1..] == a[1..] + b;
      RunAppend(SysStep(y, a[0]), a[1..], b);
    }
  }

  lemma RunFour(y: Sys, a: Step, b: Step, c: Step, d: Step)
    ensures SysRun(y, [a, b, c, d]) == SysStep(SysStep(SysStep(SysStep(y, a), b), c), d)
  {
    hide SysStep;
    assert [a, b, c, d][1..] == [b, c, d] && [b, c, d][1..] == [c, d] && [c, d][1..] == [d] && [d][1..] == [];
    assert SysRun(SysStep(y, a), [b, c, d]) == SysRun(SysStep(SysStep(y, a), b), [c, d]);
    var y2 := SysStep(SysStep(y, a), b);
    assert SysRun(y2, [c, d]) == SysRun(SysStep(y2, c), [d]) == SysRun(SysStep(SysStep(y2, c), d), []);
  }

  lemma RunThree(y: Sys, a: Step, b: Step, c: Step)
    ensures SysRun(y, [a, b, c]) == SysStep(SysStep(SysStep(y, a), b), c)
  {
    hide SysStep;
    assert [a, b, c][1..] == [b, c] && [b, c][1..] == [c] && [c][1..] == [];
    assert SysRun(SysStep(y, a), [b, c]) == SysRun(SysStep(SysStep(y, a), b), [c]);
    var y2 := SysStep(SysStep(y, a), b);
    assert SysRun(y2, [c]) == SysRun(SysStep(y2, c), []);
  }

  predicate Free(y: Sys, t: Caller)
  {
    t in y.at ==> y.at[t].phase.Returned?
  }

  /** The artifact is there. */
  lemma CallFinds(y: Sys, t: Caller, key: Key)
    requires Free(y, t) && ArtifactValid(y.c.files, key)
    ensures SysRun(y, [Call(t, key), FastCheck(t), Register(t), TakeSlot(t)]) == y.(at := y.at[t := Place(Returned, key, 0, true)])
  {
    RunFour(y, Call(t, key), FastCheck(t), Register(t), TakeSlot(t));
    hide SysRun, ArtifactValid;
    var y1 := SysStep(y, Call(t, key));
    assert y1 == y.(at := y.at[t := Place(Called, key, 0, false)]);
    var y2 := SysStep(y1, FastCheck(t));
    assert y2 == y.(at := y.at[t := Place(Returned, key, 0, true)]);
  }

  lemma CallMisses(y: Sys, t: Caller, key: Key)
    requires Free(y, t) && !ArtifactValid(y.c.files, key)
    ensures SysStep(SysStep(y, Call(t, key)), FastCheck(t)) == y.(at := y.at[t := Place(Missed, key, 0, false)])
  {
    hide ArtifactValid;
    var y1 := SysStep(y, Call(t, key));
    assert y1 == y.(at := y.at[t := Place(Called, key, 0, false)]);
  }

  /** It is not: the call becomes the builder and takes a slot. */
  lemma CallRegisters(y: Sys, t: Caller, key: Key)
    requires Free(y, t) && key !in y.c.inflight && y.c.slots < y.limit && !ArtifactValid(y.c.files, key)
    ensures SysRun(y, [Call(t, key), FastCheck(t), Register(t), TakeSlot(t)])
            == y.(c := y.c.(inflight := y.c.inflight[key := y.c.tickets], tickets := y.c.tickets + 1, slots := y.c.slots + 1),
                  at := y.at[t := Place(HasSlot, key, y.c.tickets, false)], maker := y.maker[y.c.tickets := t])
  {
    RunFour(y, Call(t, key), FastCheck(t), Register(t), TakeSlot(t));
    CallMisses(y, t, key);
    hide SysRun, ArtifactValid;
    var y2 := y.(at := y.at[t := Place(Missed, key, 0, false)]);
    var y3 := SysStep(y2, Register(t));
    assert y3 == y.(c := y.c.(inflight := y.c.inflight[key := y.c.tickets], tickets := y.c.tickets + 1),
                    at := y.at[t := Place(Registered, key, y.c.tickets, false)], maker := y.maker[y.c.tickets := t]);
  }

  /** The build itself. */
  lemma CallBuilds(y: Sys, t: Caller, startOk: bool, exitOk: bool, sidecarOk: bool, renameOk: bool)
    requires t in y.at && y.at[t].phase.HasSlot?
    ensures var (p, y1) := (y.at[t], SysRun(y, [Spawn(t, startOk), Exit(t, exitOk), WriteSidecar(t, sidecarOk), Rename(t, renameOk)]));
            var ok := startOk && exitOk && sidecarOk && renameOk;
            y1 == y.(at := y.at[t := p.(phase := Finished, ok := ok)], started := if startOk then y.started + [p.key] else y.started,
                     c := y.c.(files := FilesAfter(y.c.files, p.key, startOk && exitOk, sidecarOk, renameOk)),
                     built := if ok then y.built + {p.key} else y.built)
  {
    var p := y.at[t];
    RunFour(y, Spawn(t, startOk), Exit(t, exitOk), WriteSidecar(t, sidecarOk), Rename(t, renameOk));
    hide SysRun;
    var y1 := SysStep(y, Spawn(t, startOk));
    var y2 := SysStep(y1, Exit(t, exitOk));
    var y3 := SysStep(y2, WriteSidecar(t, sidecarOk));
    assert y1.at == y.at[t := p.(phase := if startOk then Transcoding else Finished, ok := false)];
    assert y2.at == y.at[t := p.(phase := if startOk && exitOk then Encoded else Finished, ok := false)];
    assert y3.at == y.at[t := p.(phase := if startOk && exitOk && sidecarOk then Recorded else Finished, ok := false)];
  }

  lemma CallLeaves(y: Sys, t: Caller)
    requires t in y.at && y.at[t].phase.Finished? && y.c.slots > 0
    ensures var (p, y1) := (y.at[t], SysRun(y, [ReleaseSlot(t), Unregister(t), CloseDone(t)]));
            y1 == y.(at := y.at[t := p.(phase := Returned)],
                     c := y.c.(slots := y.c.slots - 1, inflight := y.c.inflight - {p.key}, closed := y.c.closed + {p.ticket}))
  {
    var p := y.at[t];
    RunThree(y, ReleaseSlot(t), Unregister(t), CloseDone(t));
    hide SysRun;
    var y1 := SysStep(y, ReleaseSlot(t));
    var y2 := SysStep(y1, Unregister(t));
    assert y1.at == y.at[t := p.(phase := Released)];
    assert y2.at == y.at[t := p.(phase := Unregistered)];
  }

  lemma ReturnedStays(y: Sys, t: Caller, startOk: bool, exitOk: bool, sidecarOk: bool, renameOk: bool)
    requires t in y.at && y.at[t].phase.Returned?
    ensures SysRun(y, [Spawn(t, startOk), Exit(t, exitOk), WriteSidecar(t, sidecarOk), Rename(t, renameOk)]) == y
    ensures SysRun(y, [ReleaseSlot(t), Unregister(t), CloseDone(t)]) == y
  {
    RunFour(y, Spawn(t, startOk), Exit(t, exitOk), WriteSidecar(t, sidecarOk), Rename(t, renameOk));
    RunThree(y, ReleaseSlot(t), Unregister(t), CloseDone(t));
    hide SysRun;
  }

  /** Whatever else is in the cache: a call whose key nobody builds, with a slot free, does just what a lone call does.
      It succeeds if and only if the artifact was valid or the transcode starts and every step succeeds; a valid
      artifact starts no transcode; and then the key is free again, the slot is given back and the channel closed. */
  lemma CallDoesAsAlone(y: Sys, t: Caller, key: Key, startOk: bool, exitOk: bool, sidecarOk: bool, renameOk: bool)
    requires Free(y, t) && key !in y.c.inflight && y.c.slots < y.limit
    ensures var y' := SysRun(y, CallSteps(t, key, startOk, exitOk, sidecarOk, renameOk));
            var (valid, all) := (ArtifactValid(y.c.files, key), startOk && exitOk && sidecarOk && renameOk);
            && t in y'.at && y'.at[t].phase.Returned? && y'.at[t].key == key && (y'.at[t].ok <==> valid || all)
            && (forall u :: u != t ==> (u in y'.at <==> u in y.at) && (u in y.at ==> y'.at[u] == y.at[u]))
            && y'.c.inflight == y.c.inflight && y'.c.slots == y.c.slots
            && (if valid then y'.c.files == y.c.files && y'.started == y.started && y'.c.closed == y.c.closed
                else
                  && y'.c.files == FilesAfter(y.c.files, key, startOk && exitOk, sidecarOk, renameOk)
                  && y'.started == (if startOk then y.started + [key] else y.started)
                  && y'.c.closed == y.c.closed + {y.c.tickets})
  {
    var a := [Call(t, key), FastCheck(t), Register(t), TakeSlot(t)];
    var b := [Spawn(t, startOk), Exit(t, exitOk), WriteSidecar(t, sidecarOk), Rename(t, renameOk)];
    var c := [ReleaseSlot(t), Unregister(t), CloseDone(t)];
    RunAppend(y, a + b, c);
    RunAppend(y, a, b);
    var y1 := SysRun(y, a);
    hide SysRun, ArtifactValid, FilesAfter, SysStep;
    if ArtifactValid(y.c.files, key) {
      CallFinds(y, t, key);
      ReturnedStays(y1, t, startOk, exitOk, sidecarOk, renameOk);
    } else {
      CallRegisters(y, t, key);
      CallBuilds(y1, t, startOk, exitOk, sidecarOk, renameOk);
      var y2 := SysRun(y1, b);
      CallLeaves(y2, t);
      assert y.c.inflight[key := y.c.tickets] - {key} == y.c.inflight;
    }
  }

  // ----- in any run -----

  /** Whoever was told yes has the artifact, now and from then on; a builder that knows it succeeded has it too. */
  ghost predicate AnswersTrue(y: Sys)
  {
    && (forall t :: t in y.at && y.at[t].ok ==>
          (y.at[t].phase.Returned? || y.at[t].phase.Finished? || y.at[t].phase.Released? || y.at[t].phase.Unregistered?)
          && ArtifactValid(y.c.files, y.at[t].key))
    && (forall t :: t in y.at && y.at[t].phase.Recorded? ==> y.at[t].key in y.c.files.sidecars)
  }

  lemma StepAnswersTrue(y: Sys, step: Step)
    requires AnswersTrue(y)
    ensures AnswersTrue(SysStep(y, step))
  {
  }

  lemma {:induction false} RunAnswersTrue(y: Sys, steps: seq<Step>)
    requires AnswersTrue(y)
    ensures AnswersTrue(SysRun(y, steps))
    decreases |steps|
  {
    hide SysStep, AnswersTrue;
    if steps != [] {
      StepAnswersTrue(y, steps[0]);
      RunAnswersTrue(SysStep(y, steps[0]), steps[1..]);
    }
  }

  /** Over every interleaving: a call that has returned with success has a valid artifact. */
  lemma SuccessMeansValid(limit: nat, files: Files, steps: seq<Step>, t: Caller)
    requires var at := SysRun(Start(limit, files), steps).at; t in at && at[t].phase.Returned? && at[t].ok
    ensures var y := SysRun(Start(limit, files), steps); ArtifactValid(y.c.files, y.at[t].key)
  {
    RunAnswersTrue(Start(limit, files), steps);
    hide SysRun, ArtifactValid;
  }

  /** A caller waits only while its channel is open; woken, it is told whether the artifact is valid by then. */
  lemma WaiterIsTold(y: Sys, t: Caller)
    requires t in y.at && y.at[t].phase.Waiting?
    ensures var y' := SysStep(y, Wake(t));
            if y.at[t].ticket in y.c.closed
            then y'.at[t] == y.at[t].(phase := Returned, ok := ArtifactValid(y.c.files, y.at[t].key)) && y'.c == y.c
            else y' == y
  {
    hide ArtifactValid;
  }

  /** A call for a key that another caller builds waits for that caller's channel. */
  lemma SecondCallWaits(y: Sys, t: Caller, key: Key)
    requires Free(y, t) && key in y.c.inflight && !ArtifactValid(y.c.files, key)
    ensures var y' := SysRun(y, [Call(t, key), FastCheck(t), Register(t)]);
            && y'.at == y.at[t := Place(Waiting, key, y.c.inflight[key], false)] && y'.c == y.c && y'.started == y.started
  {
    RunThree(y, Call(t, key), FastCheck(t), Register(t));
    hide SysRun, ArtifactValid;
    var y1 := SysStep(y, Call(t, key));
    assert y1.at == y.at[t := Place(Called, key, 0, false)];
    var y2 := SysStep(y1, FastCheck(t));
    assert y2.at == y.at[t := Place(Missed, key, 0, false)];
  }
}
