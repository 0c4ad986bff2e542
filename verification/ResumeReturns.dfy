// What the current return comes to, whatever older returns and the player do in between.
module ResumeReturns {
  import opened Bytes
  import opened Resume

  /** The last return begun has not been cancelled. */
  predicate UnderWay(steps: seq<Step>)
  {
    if steps == [] then false
    else
      match steps[|steps| - 1]
      case Begin(_) => true
      case Cancel => false
      case _ => UnderWay(steps[..|steps| - 1])
  }

  lemma {:induction false} RunSnoc(y: Sys, steps: seq<Step>, step: Step)
    ensures SysRun(y, steps + [step]) == SysStep(SysRun(y, steps), step)
    decreases |steps|
  {
    hide SysStep;
    if steps == [] {
      assert [step][1..] == [];
      assert SysRun(SysStep(y, step), []) == SysStep(y, step);
    } else {
      assert (steps + [step])[1..] == steps[1..] + [step];
      RunSnoc(SysStep(y, steps[0]), steps[1..], step);
    }
  }

  lemma StepResumes(y: Sys, step: Step)
    ensures SysStep(y, step).s.resuming == if step.Begin? then true else if step.Cancel? then false else y.s.resuming
  {
  }

  lemma {:induction false} ResumingIsUnderWay(steps: seq<Step>)
    ensures SysRun(BEFORE, steps).s.resuming <==> UnderWay(steps)
    decreases |steps|
  {
    hide SysStep;
    if steps != [] {
      var init, last := steps[..|steps| - 1], steps[|steps| - 1];
      ResumingIsUnderWay(init);
      assert steps == init + [last];
      RunSnoc(BEFORE, init, last);
      StepResumes(SysRun(BEFORE, init), last);
      hide SysRun;
    }
  }

  /** In any run: a return is valid if and only if it is the last one begun, has not been cancelled, and the platform's
      state allows it. */
  lemma ValidIsLatest(steps: seq<Step>, gen: nat, stateValid: bool)
    ensures Valid(SysRun(BEFORE, steps).s, gen, stateValid) <==> gen == Begins(steps) && UnderWay(steps) && stateValid
  {
    ResumingIsUnderWay(steps);
    GenCountsBegins(BEFORE, steps);
    hide SysRun, Begins, UnderWay;
  }

  // ----- in between -----

  /** No return is begun or cancelled, and the step is none of this run's own. */
  predicate Other(step: Step, gen: nat)
  {
    match step
    case Begin(_) => false
    case Cancel => false
    case LookAgain(run, _, _) => run != gen
    case StartOutro(run, _, _) => run != gen
    case Arm(run, _) => run != gen
    case _ => true
  }

  predicate Others(steps: seq<Step>, gen: nat)
  {
    forall step :: step in steps ==> Other(step, gen)
  }

  /** The current return's run at some place, having asked so often. */
  predicate At(y: Sys, gen: nat, place: Place, asked: nat)
  {
    y.s == State(true, gen) && gen in y.runs && y.runs[gen] == place && FromRuns(y.requests, gen) == asked
  }

  lemma OtherKeeps(y: Sys, step: Step, gen: nat, place: Place, asked: nat)
    requires At(y, gen, place, asked) && Other(step, gen)
    ensures At(SysStep(y, step), gen, place, asked)
  {
    hide FromRuns;
    if step.StartOutro? || step.Arm? {
      FromRunsSnoc(y.requests, FromRun(step.run), gen);
    }
    if step.Finish? {
      FromRunsSnoc(y.requests, FromEnd(step.outro, y.s.gen), gen);
    }
  }

  lemma {:induction false} OthersKeep(y: Sys, steps: seq<Step>, gen: nat, place: Place, asked: nat)
    requires At(y, gen, place, asked) && Others(steps, gen)
    ensures At(SysRun(y, steps), gen, place, asked)
    decreases |steps|
  {
    hide At, Other, SysStep;
    if steps != [] {
      assert steps[0] in steps && forall step :: step in steps[1..] ==> step in steps;
      OtherKeeps(y, steps[0], gen, place, asked);
      OthersKeep(SysStep(y, steps[0]), steps[1..], gen, place, asked);
    }
  }

  // ----- a return -----

  function Then(y: Sys, between: seq<Step>, step: Step): Sys
  {
    SysStep(SysRun(y, between), step)
  }

  lemma {:induction false} NoneAsked(requests: seq<Request>, gen: nat)
    requires FromRun(gen) !in requests
    ensures FromRuns(requests, gen) == 0
    decreases |requests|
  {
    if requests != [] {
      NoneAsked(requests[..|requests| - 1], gen);
      assert requests[|requests| - 1] in requests;
    }
  }

  lemma BeginMoves(y: Sys)
    requires FromRuns(y.requests, y.s.gen + 1) == 0
    ensures At(SysStep(y, Begin(true)), y.s.gen + 1, Looking, 0) && SysStep(y, Begin(true)).requests == y.requests
  {
    hide FromRuns;
  }

  lemma OwnMoves(y: Sys, gen: nat, place: Place, asked: nat)
    requires At(y, gen, place, asked)
    ensures place.Looking? ==> At(SysStep(y, LookAgain(gen, true, false)), gen, Looking, asked)
                               && forall stateValid :: At(SysStep(y, LookAgain(gen, stateValid, true)), gen, Ready, asked)
    ensures place.Ready? ==>
              && At(SysStep(y, StartOutro(gen, true, true)), gen, Playing, asked)
              && SysStep(y, StartOutro(gen, true, true)).registered == Some(gen)
              && At(SysStep(y, StartOutro(gen, true, false)), gen, Ended, asked + 1)
    ensures place.Playing? ==> At(SysStep(y, Arm(gen, true)), gen, Ended, asked + 1)
  {
    FromRunsSnoc(y.requests, FromRun(gen), gen);
    hide FromRuns;
  }

  /** A return with an outro, with anything in between short of a cancellation or a newer return: it waits while its
      looks find no keyframe near, starts its outro at the first that does, and when the outro is on its way arms the
      switch, exactly once; if the outro is refused it asks for the switch there and then. */
  lemma CurrentReturnArms(y: Sys, waits: seq<Step>, a: seq<Step>, b: seq<Step>, c: seq<Step>)
    requires FromRuns(y.requests, y.s.gen + 1) == 0
    requires Others(waits, y.s.gen + 1) && Others(a, y.s.gen + 1) && Others(b, y.s.gen + 1) && Others(c, y.s.gen + 1)
    ensures var (gen, y0) := (y.s.gen + 1, SysStep(y, Begin(true)));
            var y1 := Then(Then(y0, waits, LookAgain(gen, true, false)), a, LookAgain(gen, true, true));
            var y2 := Then(y1, b, StartOutro(gen, true, true));
            var refused := Then(y1, b, StartOutro(gen, true, false));
            && At(y2, gen, Playing, 0) && y2.registered == Some(gen)
            && At(Then(y2, c, Arm(gen, true)), gen, Ended, 1)
            && At(refused, gen, Ended, 1)
  {
    hide At, Others, SysStep, FromRuns;
    var (gen, y0) := (y.s.gen + 1, SysStep(y, Begin(true)));
    BeginMoves(y);
    OthersKeep(y0, waits, gen, Looking, 0);
    OwnMoves(SysRun(y0, waits), gen, Looking, 0);
    var y0' := Then(y0, waits, LookAgain(gen, true, false));
    OthersKeep(y0', a, gen, Looking, 0);
    OwnMoves(SysRun(y0', a), gen, Looking, 0);
    var y1 := Then(y0', a, LookAgain(gen, true, true));
    OthersKeep(y1, b, gen, Ready, 0);
    OwnMoves(SysRun(y1, b), gen, Ready, 0);
    var y2 := Then(y1, b, StartOutro(gen, true, true));
    OthersKeep(y2, c, gen, Playing, 0);
    OwnMoves(SysRun(y2, c), gen, Playing, 0);
  }

  /** Over any run the next return has asked for nothing yet. */
  lemma NextHasNotAsked(steps: seq<Step>)
    ensures var y := SysRun(BEFORE, steps); FromRuns(y.requests, y.s.gen + 1) == 0
  {
    RunsAskOnce(steps, BEFORE);
    hide SysRun;
    var y := SysRun(BEFORE, steps);
    NoneAsked(y.requests, y.s.gen + 1);
  }

  ghost predicate AskedKnown(y: Sys)
  {
    RunsKnown(y) && forall r :: r in y.requests && r.FromRun? ==> r.gen <= y.s.gen
  }

  lemma StepKeepsAsked(y: Sys, step: Step)
    requires AskedKnown(y)
    ensures AskedKnown(SysStep(y, step))
  {
    StepKeepsKnown(y, step);
    RunIsKnown(y);
    hide RunsKnown;
  }

  lemma {:induction false} RunsAskOnce(steps: seq<Step>, y: Sys)
    requires AskedKnown(y)
    ensures AskedKnown(SysRun(y, steps))
    decreases |steps|
  {
    hide SysStep, AskedKnown;
    if steps != [] {
      StepKeepsAsked(y, steps[0]);
      RunsAskOnce(steps[1..], SysStep(y, steps[0]));
    }
  }

  /** Without an outro the switch is asked for at once, and no run is begun. */
  lemma PlainReturnAsks(y: Sys)
    ensures var y' := SysStep(y, Begin(false));
            y'.s == State(true, y.s.gen + 1) && y'.requests == y.requests + [FromBegin] && y'.runs == y.runs
  {
  }
}
