// What a wanted run does, whatever other runs and stops do in between: it is brought up, and brought up again.
module SupervisionCycles {
  import opened Bytes
  import opened Supervision

  // ----- which run is wanted -----

  /** The last start or stop was a start. */
  predicate Started(steps: seq<Step>)
  {
    if steps == [] then false
    else
      match steps[|steps| - 1]
      case Start => true
      case Stop(_) => false
      case _ => Started(steps[..|steps| - 1])
  }

  /** How often something was started that was not already: the number of the latest run. */
  function Starts(steps: seq<Step>): nat
  {
    if steps == [] then 0
    else
      var init := steps[..|steps| - 1];
      Starts(init) + if steps[|steps| - 1].Start? && !Started(init) then 1 else 0
  }

  lemma {:induction false} RunSnoc(y: Sys, steps: seq<Step>, step: Step)
    ensures SysRun(y, steps + [step]) == SysStep(SysRun(y, steps), step)
    decreases |steps|
  {
    hide SysStep;
    if steps == [] {
      assert [step][1..] == [];
      assert SysRun(SysStep(y, step), []) == SysStep(y, step);
    } else {
      assert (steps + [step])[1..] == steps[1..] + [step];
      RunSnoc(SysStep(y, steps[0]), steps[1..], step);
    }
  }

  lemma StepWants(y: Sys, step: Step)
    ensures var s' := SysStep(y, step).s;
            && s'.desired == (if step.Start? then true else if step.Stop? then false else y.s.desired)
            && s'.epoch == y.s.epoch + if step.Start? && !y.s.desired then 1 else 0
  {
    hide Judge;
  }

  /** In any run: the wanted run is the latest started, and none is wanted once there was a stop since. */
  lemma {:induction false} WantedIsLatestStart(push: bool, steps: seq<Step>)
    ensures var s := SysRun(Begin(push), steps).s; (s.desired <==> Started(steps)) && s.epoch == Starts(steps)
    decreases |steps|
  {
    hide SysStep;
    if steps != [] {
      var init, last := steps[..|steps| - 1], steps[|steps| - 1];
      WantedIsLatestStart(push, init);
      assert steps == init + [last];
      RunSnoc(Begin(push), init, last);
      StepWants(SysRun(Begin(push), init), last);
      hide SysRun;
    }
  }

  /** A start while nothing is wanted begins a run, with fresh counters. */
  lemma StartBegins(y: Sys)
    requires !y.s.desired
    ensures var (y', run) := (SysStep(y, Start), y.s.epoch + 1);
            && Wanted(y'.s, run) && run in y'.runs && y'.runs[run] == Top && y'.s.counts == NO_COUNTS
            && y'.s.slot == y.s.slot && y'.installed == y.installed && y'.hooks == y.hooks
  {
  }

  // ----- in between -----

  /** No stop, and no step of the run itself. */
  predicate Other(step: Step, run: Epoch)
  {
    match step
    case Start => true
    case Stop(_) => false
    case StopClears(_) => true
    case _ => step.run != run
  }

  predicate Others(steps: seq<Step>, run: Epoch)
  {
    forall step :: step in steps ==> Other(step, run)
  }

  function HooksOf(hooks: seq<Hook>, run: Epoch): seq<Hook>
  {
    if hooks == [] then []
    else HooksOf(hooks[..|hooks| - 1], run) + if hooks[|hooks| - 1].epoch == run then [hooks[|hooks| - 1]] else []
  }

  lemma HooksSnoc(hooks: seq<Hook>, hook: Hook, run: Epoch)
    ensures HooksOf(hooks + [hook], run) == HooksOf(hooks, run) + if hook.epoch == run then [hook] else []
  {
    assert (hooks + [hook])[..|hooks|] == hooks;
  }

  /** A wanted run at some place in its loop; and what has been done for it. */
  ghost predicate At(y: Sys, run: Epoch, phase: Phase, installed: seq<(Epoch, Res)>, hooks: seq<Hook>, restarts: nat)
  {
    && Inv(y) && Wanted(y.s, run) && run in y.runs && y.runs[run] == phase
    && y.installed == installed && HooksOf(y.hooks, run) == hooks && y.s.counts.restarts == restarts
  }

  lemma OtherLeavesRun(y: Sys, step: Step, run: Epoch)
    requires Wanted(y.s, run) && run in y.runs && Other(step, run)
    ensures var y' := SysStep(y, step);
            Wanted(y'.s, run) && run in y'.runs && y'.runs[run] == y.runs[run] && y'.installed == y.installed && y'.push == y.push
  {
    hide Judge;
  }

  lemma OtherLeavesRestarts(y: Sys, step: Step, run: Epoch)
    requires Wanted(y.s, run) && Other(step, run)
    ensures SysStep(y, step).s.counts.restarts == y.s.counts.restarts
  {
    JudgeKeepsRestarts(y.s.counts, if step.JudgeRun? then step.ranFor else 0);
    hide Judge;
  }

  lemma OtherLeavesHooks(y: Sys, step: Step, run: Epoch)
    requires Other(step, run)
    ensures HooksOf(SysStep(y, step).hooks, run) == HooksOf(y.hooks, run)
  {
    hide Judge, HooksOf, Wanted;
    if step.StartHook? || step.ExitHook? {
      HooksSnoc(y.hooks, OnStart(step.run), run);
      HooksSnoc(y.hooks, OnExit(step.run), run);
      assert HooksOf(y.hooks, run) + [] == HooksOf(y.hooks, run);
    }
  }

  lemma OtherKeeps(y: Sys, step: Step, run: Epoch, phase: Phase, installed: seq<(Epoch, Res)>, hooks: seq<Hook>, restarts: nat)
    requires At(y, run, phase, installed, hooks, restarts) && Other(step, run)
    ensures At(SysStep(y, step), run, phase, installed, hooks, restarts) && SysStep(y, step).push == y.push
  {
    hide Inv, HooksOf, SysStep, Other;
    StepKeepsInv(y, step);
    OtherLeavesRun(y, step, run);
    OtherLeavesRestarts(y, step, run);
    OtherLeavesHooks(y, step, run);
  }

  lemma JudgeKeepsRestarts(c: Counters, ranFor: nat)
    ensures Judge(c, ranFor).restarts == c.restarts
  {
  }

  lemma {:induction false} OthersKeep(y: Sys, steps: seq<Step>, run: Epoch, phase: Phase, installed: seq<(Epoch, Res)>, hooks: seq<Hook>,
                                      restarts: nat)
    requires At(y, run, phase, installed, hooks, restarts) && Others(steps, run)
    ensures At(SysRun(y, steps), run, phase, installed, hooks, restarts) && SysRun(y, steps).push == y.push
    decreases |steps|
  {
    hide At, Other, SysStep;
    if steps != [] {
      assert steps[0] in steps && forall step :: step in steps[1..] ==> step in steps;
      OtherKeeps(y, steps[0], run, phase, installed, hooks, restarts);
      OthersKeep(SysStep(y, steps[0]), steps[1..], run, phase, installed, hooks, restarts);
    }
  }

  // ----- the run's own steps -----

  /** Another run's or a stop's steps, then one of the run's own. */
  function Then(y: Sys, between: seq<Step>, step: Step): Sys
  {
    SysStep(SysRun(y, between), step)
  }

  /** A process is spawned in one section; a connection is made between two. */
  function Tried(y: Sys, run: Epoch, a: seq<Step>, b: seq<Step>, ok: bool): Sys
  {
    if y.push then Then(Then(y, a, Check(run, true)), b, Publish(run, ok)) else Then(y, a, Check(run, ok))
  }

  lemma CheckMoves(y: Sys, run: Epoch, installed: seq<(Epoch, Res)>, hooks: seq<Hook>, restarts: nat, ok: bool)
    requires At(y, run, Top, installed, hooks, restarts)
    ensures var y' := SysStep(y, Check(run, ok));
            && y'.push == y.push
            && (if y.push then At(y', run, Connecting(y.next), installed, hooks, restarts)
                else if ok then At(y', run, Placed(y.next), installed + [(run, y.next)], hooks, restarts) && y'.s.slot == Some(y.next)
                else At(y', run, Down(y.next), installed, hooks, restarts))
  {
    StepKeepsInv(y, Check(run, ok));
    StepKeepsPush(y, Check(run, ok));
    hide Inv, Judge, HooksOf;
  }

  lemma PublishMoves(y: Sys, run: Epoch, r: Res, installed: seq<(Epoch, Res)>, hooks: seq<Hook>, restarts: nat, ok: bool)
    requires At(y, run, Connecting(r), installed, hooks, restarts)
    ensures var y' := SysStep(y, Publish(run, ok));
            if ok then At(y', run, Placed(r), installed + [(run, r)], hooks, restarts) && y'.s.slot == Some(r)
            else At(y', run, Down(r), installed, hooks, restarts)
  {
    StepKeepsInv(y, Publish(run, ok));
    hide Inv, Judge, HooksOf;
  }

  /** A try that succeeds puts something new of the run's own up; one that fails puts up nothing. */
  lemma WantedRunComesUp(y: Sys, run: Epoch, installed: seq<(Epoch, Res)>, hooks: seq<Hook>, restarts: nat, a: seq<Step>, b: seq<Step>,
                         ok: bool)
    requires At(y, run, Top, installed, hooks, restarts) && Others(a, run) && Others(b, run)
    ensures var y' := Tried(y, run, a, b, ok);
            exists r: Res ::
              if ok then At(y', run, Placed(r), installed + [(run, r)], hooks, restarts) && y'.s.slot == Some(r)
              else At(y', run, Down(r), installed, hooks, restarts)
  {
    hide At, Others, SysStep;
    OthersKeep(y, a, run, Top, installed, hooks, restarts);
    var y1 := SysRun(y, a);
    CheckMoves(y1, run, installed, hooks, restarts, if y.push then true else ok);
    if y.push {
      var y2 := SysStep(y1, Check(run, true));
      OthersKeep(y2, b, run, Connecting(y1.next), installed, hooks, restarts);
      PublishMoves(SysRun(y2, b), run, y1.next, installed, hooks, restarts, ok);
    }
  }

  lemma StartHookMoves(y: Sys, run: Epoch, r: Res, installed: seq<(Epoch, Res)>, hooks: seq<Hook>, restarts: nat)
    requires At(y, run, Placed(r), installed, hooks, restarts)
    ensures At(SysStep(y, StartHook(run)), run, Up(r), installed, hooks + [OnStart(run)], restarts)
  {
    StepKeepsInv(y, StartHook(run));
    HooksSnoc(y.hooks, OnStart(run), run);
    hide Inv, Judge, HooksOf;
  }

  lemma DiesMoves(y: Sys, run: Epoch, r: Res, installed: seq<(Epoch, Res)>, hooks: seq<Hook>, restarts: nat)
    requires At(y, run, Up(r), installed, hooks, restarts)
    ensures At(SysStep(y, Dies(run)), run, Down(r), installed, hooks, restarts)
  {
    StepKeepsInv(y, Dies(run));
    hide Inv, Judge, HooksOf;
  }

  lemma LeaveMoves(y: Sys, run: Epoch, r: Res, installed: seq<(Epoch, Res)>, hooks: seq<Hook>, restarts: nat)
    requires At(y, run, Down(r), installed, hooks, restarts)
    ensures var y' := SysStep(y, Leave(run)); At(y', run, Exited(true, false), installed, hooks, restarts) && y'.s.slot != Some(r)
  {
    StepKeepsInv(y, Leave(run));
    hide Inv, Judge, HooksOf;
  }

  lemma ExitHookMoves(y: Sys, run: Epoch, installed: seq<(Epoch, Res)>, hooks: seq<Hook>, restarts: nat)
    requires At(y, run, Exited(true, false), installed, hooks, restarts)
    ensures At(SysStep(y, ExitHook(run)), run, Judged, installed, hooks + [OnExit(run)], restarts)
  {
    StepKeepsInv(y, ExitHook(run));
    HooksSnoc(y.hooks, OnExit(run), run);
    hide Inv, Judge, HooksOf;
  }

  lemma JudgeMoves(y: Sys, run: Epoch, ranFor: nat, installed: seq<(Epoch, Res)>, hooks: seq<Hook>, restarts: nat)
    requires At(y, run, Judged, installed, hooks, restarts)
    ensures var y' := SysStep(y, JudgeRun(run, ranFor));
            At(y', run, Judged, installed, hooks, restarts) && y'.s.counts == Judge(y.s.counts, ranFor)
  {
    StepKeepsInv(y, JudgeRun(run, ranFor));
    JudgeKeepsRestarts(y.s.counts, ranFor);
    hide Inv, Judge, HooksOf;
  }

  lemma RetryMoves(y: Sys, run: Epoch, installed: seq<(Epoch, Res)>, hooks: seq<Hook>, restarts: nat)
    requires At(y, run, Judged, installed, hooks, restarts)
    ensures At(SysStep(y, Retry(run)), run, Top, installed, hooks, restarts + 1)
  {
    StepKeepsInv(y, Retry(run));
    hide Inv, Judge, HooksOf;
  }

  /** What is up dies, is taken down, the exit hook is called once, and the run tries again: one restart more. */
  lemma DownRunTriesAgain(y: Sys, run: Epoch, r: Res, installed: seq<(Epoch, Res)>, hooks: seq<Hook>, restarts: nat,
                          a: seq<Step>, b: seq<Step>, c: seq<Step>, ranFor: nat, d: seq<Step>)
    requires At(y, run, Down(r), installed, hooks, restarts)
    requires Others(a, run) && Others(b, run) && Others(c, run) && Others(d, run)
    ensures var y1 := Then(y, a, Leave(run));
            var y2 := Then(Then(y1, b, ExitHook(run)), c, JudgeRun(run, ranFor));
            && y1.s.slot != Some(r)
            && At(Then(y2, d, Retry(run)), run, Top, installed, hooks + [OnExit(run)], restarts + 1)
  {
    hide At, Others, SysStep;
    OthersKeep(y, a, run, Down(r), installed, hooks, restarts);
    LeaveMoves(SysRun(y, a), run, r, installed, hooks, restarts);
    var y1 := Then(y, a, Leave(run));
    OthersKeep(y1, b, run, Exited(true, false), installed, hooks, restarts);
    ExitHookMoves(SysRun(y1, b), run, installed, hooks, restarts);
    var y2 := Then(y1, b, ExitHook(run));
    OthersKeep(y2, c, run, Judged, installed, hooks + [OnExit(run)], restarts);
    JudgeMoves(SysRun(y2, c), run, ranFor, installed, hooks + [OnExit(run)], restarts);
    var y3 := Then(y2, c, JudgeRun(run, ranFor));
    OthersKeep(y3, d, run, Judged, installed, hooks + [OnExit(run)], restarts);
    RetryMoves(SysRun(y3, d), run, installed, hooks + [OnExit(run)], restarts);
  }

  lemma UpRunDies(y: Sys, run: Epoch, r: Res, installed: seq<(Epoch, Res)>, hooks: seq<Hook>, restarts: nat, a: seq<Step>, b: seq<Step>)
    requires At(y, run, Placed(r), installed, hooks, restarts) && Others(a, run) && Others(b, run)
    ensures At(Then(Then(y, a, StartHook(run)), b, Dies(run)), run, Down(r), installed, hooks + [OnStart(run)], restarts)
  {
    hide At, Others, SysStep;
    OthersKeep(y, a, run, Placed(r), installed, hooks, restarts);
    StartHookMoves(SysRun(y, a), run, r, installed, hooks, restarts);
    var y1 := Then(y, a, StartHook(run));
    OthersKeep(y1, b, run, Up(r), installed, hooks + [OnStart(run)], restarts);
    DiesMoves(SysRun(y1, b), run, r, installed, hooks + [OnStart(run)], restarts);
  }

  /** One whole turn of a wanted run's loop, with other runs' steps and the ends of old stops anywhere in between:
      something new is put up, the start hook is called, what is up dies and is taken down, the exit hook is called, and the
      run stands where it began, one restart on. */
  lemma WantedRunGoesRound(y: Sys, run: Epoch, installed: seq<(Epoch, Res)>, hooks: seq<Hook>, restarts: nat, gaps: seq<seq<Step>>,
                           ranFor: nat)
    requires At(y, run, Top, installed, hooks, restarts) && |gaps| == 8 && forall gap :: gap in gaps ==> Others(gap, run)
    ensures var y1 := Tried(y, run, gaps[0], gaps[1], true);
            var y2 := Then(Then(y1, gaps[2], StartHook(run)), gaps[3], Dies(run));
            var y3 := Then(y2, gaps[4], Leave(run));
            var y4 := Then(Then(Then(y3, gaps[5], ExitHook(run)), gaps[6], JudgeRun(run, ranFor)), gaps[7], Retry(run));
            exists r: Res ::
              && y1.s.slot == Some(r) && y3.s.slot != Some(r)
              && At(y4, run, Top, installed + [(run, r)], hooks + [OnStart(run)] + [OnExit(run)], restarts + 1)
  {
    hide At, Others, SysStep, Then, Tried;
    assert forall i :: 0 <= i < 8 ==> gaps[i] in gaps;
    WantedRunComesUp(y, run, installed, hooks, restarts, gaps[0], gaps[1], true);
    var y1 := Tried(y, run, gaps[0], gaps[1], true);
    var r: Res :| At(y1, run, Placed(r), installed + [(run, r)], hooks, restarts) && y1.s.slot == Some(r);
    UpRunDies(y1, run, r, installed + [(run, r)], hooks, restarts, gaps[2], gaps[3]);
    var y2 := Then(Then(y1, gaps[2], StartHook(run)), gaps[3], Dies(run));
    DownRunTriesAgain(y2, run, r, installed + [(run, r)], hooks + [OnStart(run)], restarts, gaps[4], gaps[5], gaps[6],
                      ranFor, gaps[7]);
  }

  /** A run that is not wanted ends wherever it next looks, and puts up nothing. */
  lemma UnwantedRunEnds(y: Sys, run: Epoch, step: Step)
    requires run in y.runs && !Wanted(y.s, run)
    requires match y.runs[run]
             case Top => step.Check? && step.run == run
             case Connecting(_) => step.Publish? && step.run == run && step.ok
             case Judged => step.Retry? && step.run == run
             case _ => false
    ensures var y' := SysStep(y, step); y'.runs[run] == Gone && y'.s == y.s && y'.installed == y.installed && y'.hooks == y.hooks
  {
  }
}
