// Supervised runs: a child process or a push connection that is kept up while it is wanted. Each start begins a
// run with a new epoch; a stop does not wait for the run to notice, so old and new runs overlap.
module Supervision {
  import opened Bytes

  /** Seconds. */
  const FLAPPING_EXIT := 3
  const FLAPPING_COUNT := 3
  const EVER_SUCCEEDED := 10

  /** A child process or a connection. */
  type Res = nat
  type Epoch = nat

  datatype Counters = Counters(everRanLong: bool, earlyExits: nat, restarts: nat)

  const NO_COUNTS := Counters(false, 0, 0)

  datatype Shared = Shared(desired: bool, epoch: Epoch, slot: Option<Res>, counts: Counters)

  const IDLE := Shared(false, 0, None, NO_COUNTS)

  // ----- the critical sections -----

  function StartStep(s: Shared): Shared
  {
    if s.desired then s else s.(desired := true, epoch := s.epoch + 1, counts := NO_COUNTS)
  }

  function StopStep(s: Shared): Shared
  {
    s.(desired := false)
  }

  predicate Wanted(s: Shared, epoch: Epoch)
  {
    s.desired && s.epoch == epoch
  }

  /** A process is spawned, or a finished connection installed, in the section that finds the run wanted. */
  function InstallStep(s: Shared, epoch: Epoch, r: Res): Shared
  {
    if Wanted(s, epoch) then s.(slot := Some(r)) else s
  }

  /** Only what this caller itself knows may be cleared. */
  function ClearStep(s: Shared, r: Res): Shared
  {
    if s.slot == Some(r) then s.(slot := None) else s
  }

  /** What the length of a run says: the first must succeed once; after that, so many early exits in a row. */
  function Judge(c: Counters, ranFor: nat): Counters
  {
    var ever := c.everRanLong || ranFor >= EVER_SUCCEEDED;
    if !ever then c
    else if ranFor < FLAPPING_EXIT then Counters(true, c.earlyExits + 1, c.restarts)
    else Counters(true, 0, c.restarts)
  }

  datatype Verdict = Steady | Flapping(neverSucceeded: bool)

  function VerdictOf(c: Counters, ranFor: nat): Verdict
  {
    var c' := Judge(c, ranFor);
    if !c'.everRanLong then Flapping(true)
    else if ranFor < FLAPPING_EXIT && c'.earlyExits == FLAPPING_COUNT then Flapping(false)
    else Steady
  }

  // ----- the object -----

  class Supervisor {
    var desired: bool
    var epoch: Epoch
    var slot: Option<Res>
    var everRanLong: bool
    var consecutiveEarlyExits: nat
    var restartCount: nat

    function Abs(): Shared
      reads this
    {
      Shared(desired, epoch, slot, Counters(everRanLong, consecutiveEarlyExits, restartCount))
    }

    constructor ()
      ensures Abs() == IDLE
    {
      desired, epoch, slot := false, 0, None;
      everRanLong, consecutiveEarlyExits, restartCount := false, 0, 0;
    }

    /** The epoch of the run to begin, if one is to begin. */
    method Start() returns (run: Option<Epoch>)
      modifies this
      ensures Abs() == StartStep(old(Abs()))
      ensures run == if old(desired) then None else Some(epoch)
    {
      if desired {
        return None;
      }
      desired, epoch := true, epoch + 1;
      consecutiveEarlyExits, everRanLong, restartCount := 0, false, 0;
      return Some(epoch);
    }

    /** What is to be stopped, if anything is up. */
    method BeginStop() returns (up: Option<Res>)
      modifies `desired
      ensures Abs() == StopStep(old(Abs())) && up == slot
    {
      desired := false;
      up := slot;
    }

    method Install(run: Epoch, r: Res) returns (ok: bool)
      modifies `slot
      ensures Abs() == InstallStep(old(Abs()), run, r) && ok == Wanted(old(Abs()), run)
    {
      ok := desired && epoch == run;
      if ok {
        slot := Some(r);
      }
    }

    method Clear(r: Res)
      modifies `slot
      ensures Abs() == ClearStep(old(Abs()), r)
    {
      if slot == Some(r) {
        slot := None;
      }
    }

    /** Whether the run goes on for another try. */
    method Retry(run: Epoch) returns (ok: bool)
      modifies `restartCount
      ensures ok == Wanted(old(Abs()), run)
      ensures Abs() == old(Abs()).(counts := old(Abs()).counts.(restarts := old(restartCount) + if ok then 1 else 0))
    {
      ok := desired && epoch == run;
      if ok {
        restartCount := restartCount + 1;
      }
    }

    method JudgeRun(ranFor: nat) returns (verdict: Verdict)
      modifies `everRanLong, `consecutiveEarlyExits
      ensures Abs() == old(Abs()).(counts := Judge(old(Abs()).counts, ranFor))
      ensures verdict == VerdictOf(old(Abs()).counts, ranFor)
    {
      if ranFor >= EVER_SUCCEEDED {
        everRanLong := true;
      }
      verdict := Steady;
      if !everRanLong {
        verdict := Flapping(true);
      } else if ranFor < FLAPPING_EXIT {
        consecutiveEarlyExits := consecutiveEarlyExits + 1;
        if consecutiveEarlyExits == FLAPPING_COUNT {
          verdict := Flapping(false);
        }
      } else {
        consecutiveEarlyExits := 0;
      }
    }
  }

  // ----- runs and stops in any interleaving -----

  /** Where a run's loop stands. A push run connects between two sections; a process run spawns within one. Hooks are
      called outside the lock: one that is up may still have its start hook before it. */
  datatype Phase =
    | Top
    | Connecting(r: Res)
    | Placed(r: Res)
    | Up(r: Res)
    | Down(r: Res)
    | Exited(wanted: bool, superseded: bool)
    | Judged
    | Gone

  datatype Hook = OnStart(epoch: Epoch) | OnExit(epoch: Epoch)

  /** With everything that was ever installed, oldest first, and by which run; and the hooks the runs have called. */
  datatype Sys = Sys(push: bool, s: Shared, runs: map<Epoch, Phase>, stopping: map<nat, Res>, next: Res,
                     installed: seq<(Epoch, Res)>, hooks: seq<Hook>)

  datatype Step =
    | Start
    | Stop(stopper: nat)
    | StopClears(stopper: nat)
    | Check(run: Epoch, ok: bool)
    | Publish(run: Epoch, ok: bool)
    | StartHook(run: Epoch)
    | Dies(run: Epoch)
    | Leave(run: Epoch)
    | ExitHook(run: Epoch)
    | JudgeRun(run: Epoch, ranFor: nat)
    | Retry(run: Epoch)

  function Go(y: Sys, run: Epoch, phase: Phase): Sys
  {
    y.(runs := y.runs[run := phase])
  }

  function Install(y: Sys, run: Epoch, r: Res): Sys
  {
    Go(y, run, Placed(r)).(s := InstallStep(y.s, run, r), installed := y.installed + [(run, r)])
  }

  function RunStep(y: Sys, run: Epoch, p: Phase, step: Step): Sys
  {
    match step
    case Check(_, ok) =>
      if !p.Top? then y
      else if !Wanted(y.s, run) then Go(y, run, Gone)
      else if y.push then Go(y, run, Connecting(y.next)).(next := y.next + 1)
      else if ok then Install(y, run, y.next).(next := y.next + 1)
      else Go(y, run, Down(y.next)).(next := y.next + 1)
    case Publish(_, ok) =>
      if !p.Connecting? then y
      else if !ok then Go(y, run, Down(p.r))
      else if Wanted(y.s, run) then Install(y, run, p.r)
      else Go(y, run, Gone)
    case StartHook(_) => if !p.Placed? then y else Go(y, run, Up(p.r)).(hooks := y.hooks + [OnStart(run)])
    case Dies(_) => if !p.Up? then y else Go(y, run, Down(p.r))
    case Leave(_) =>
      if !p.Down? then y
      else Go(y, run, Exited(Wanted(y.s, run), y.s.epoch != run)).(s := ClearStep(y.s, p.r))
    case ExitHook(_) =>
      if !p.Exited? then y
      else
        Go(y, run, if p.wanted then Judged else Gone).(hooks := if p.superseded then y.hooks else y.hooks + [OnExit(run)])
    case JudgeRun(_, ranFor) => if !p.Judged? then y else y.(s := y.s.(counts := Judge(y.s.counts, ranFor)))
    case Retry(_) =>
      if !p.Judged? then y
      else if !Wanted(y.s, run) then Go(y, run, Gone)
      else Go(y, run, Top).(s := y.s.(counts := y.s.counts.(restarts := y.s.counts.restarts + 1)))
    case Start => y
    case Stop(_) => y
    case StopClears(_) => y
  }

  function SysStep(y: Sys, step: Step): Sys
  {
    match step
    case Start => if y.s.desired then y else y.(s := StartStep(y.s), runs := y.runs[y.s.epoch + 1 := Top])
    case Stop(stopper) =>
      y.(s := StopStep(y.s),
         stopping := if y.s.slot.Some? && !y.push then y.stopping[stopper := y.s.slot.value] else y.stopping - {stopper})
    case StopClears(stopper) =>
      if stopper in y.stopping then y.(s := ClearStep(y.s, y.stopping[stopper]), stopping := y.stopping - {stopper}) else y
    case _ => if step.run in y.runs then RunStep(y, step.run, y.runs[step.run], step) else y
  }

  function SysRun(y: Sys, steps: seq<Step>): Sys
    decreases |steps|
  {
    if steps == [] then y else SysRun(SysStep(y, steps[0]), steps[1..])
  }

  function Begin(push: bool): Sys
  {
    Sys(push, IDLE, map[], map[], 0, [], [])
  }

  // ----- stopped for good -----

  /** A run that is not wanted: stopped, or succeeded by a newer one. */
  predicate Stopped(y: Sys, run: Epoch)
  {
    run <= y.s.epoch && !Wanted(y.s, run)
  }

  predicate NoneBy(installed: seq<(Epoch, Res)>, from: nat, run: Epoch)
  {
    from <= |installed| && forall i :: from <= i < |installed| ==> installed[i].0 != run
  }

  lemma StepKeepsStopped(y: Sys, step: Step, run: Epoch)
    requires Stopped(y, run)
    ensures var y' := SysStep(y, step);
            Stopped(y', run) && y.installed <= y'.installed && NoneBy(y'.installed, |y.installed|, run)
  {
    hide Judge;
  }

  /** A run once stopped never spawns a process or publishes a connection again, whatever is started later. */
  lemma {:induction false} StoppedStaysStopped(y: Sys, steps: seq<Step>, run: Epoch)
    requires Stopped(y, run)
    ensures var y' := SysRun(y, steps);
            Stopped(y', run) && y.installed <= y'.installed && NoneBy(y'.installed, |y.installed|, run)
    decreases |steps|
  {
    hide SysStep;
    if steps != [] {
      StepKeepsStopped(y, steps[0], run);
      StoppedStaysStopped(SysStep(y, steps[0]), steps[1..], run);
    }
  }

  /** Stop stops every run there has been. */
  lemma StopStopsAll(y: Sys, stopper: nat, run: Epoch, steps: seq<Step>)
    requires run <= y.s.epoch
    ensures var y1 := SysStep(y, Stop(stopper));
            NoneBy(SysRun(y1, steps).installed, |y1.installed|, run)
  {
    StoppedStaysStopped(SysStep(y, Stop(stopper)), steps, run);
  }

  // ----- older runs leave newer ones alone -----

  ghost predicate EpochsRise(installed: seq<(Epoch, Res)>)
  {
    forall i, j :: 0 <= i < j < |installed| ==> installed[i].0 <= installed[j].0 && installed[i].1 != installed[j].1
  }

  /** What a run, or a stop, holds on to. */
  predicate Knows(p: Phase, r: Res)
  {
    (p.Connecting? || p.Placed? || p.Up? || p.Down?) && p.r == r
  }

  ghost predicate Inv(y: Sys)
  {
    && (forall run :: run in y.runs ==> run <= y.s.epoch)
    && (forall run: Epoch, r: Res :: run in y.runs && Knows(y.runs[run], r) ==> r < y.next)
    && (forall i :: 0 <= i < |y.installed| ==> y.installed[i].0 <= y.s.epoch && y.installed[i].1 < y.next)
    && (forall a: Epoch, b: Epoch, r: Res :: a in y.runs && b in y.runs && Knows(y.runs[a], r) && Knows(y.runs[b], r) ==> a == b)
    && (forall run, i :: run in y.runs && 0 <= i < |y.installed| && Knows(y.runs[run], y.installed[i].1) ==>
          y.installed[i].0 == run && !y.runs[run].Connecting?)
    && EpochsRise(y.installed)
    && (y.s.slot.Some? ==> y.installed != [] && y.installed[|y.installed| - 1].1 == y.s.slot.value)
  }

  lemma PhaseKeepsInv(y: Sys, run: Epoch, phase: Phase, y': Sys)
    requires Inv(y) && run in y.runs && y'.runs == y.runs[run := phase] && y'.s.epoch == y.s.epoch
    requires y'.installed == y.installed && y'.next >= y.next && (y'.s.slot == y.s.slot || y'.s.slot.None?)
    requires forall r: Res :: Knows(phase, r) ==>
               (Knows(y.runs[run], r) && !phase.Connecting?) || y.next <= r < y'.next
    ensures Inv(y')
  {
    hide EpochsRise;
  }

  lemma InstallKeepsInv(y: Sys, run: Epoch, r: Res, y': Sys)
    requires Inv(y) && run in y.runs && Wanted(y.s, run) && y'.runs == y.runs[run := Placed(r)]
    requires y'.s.epoch == y.s.epoch && y'.s.slot == Some(r) && y'.installed == y.installed + [(run, r)]
    requires (y.runs[run] == Connecting(r) && y'.next == y.next) || (r == y.next && y'.next == y.next + 1)
    ensures Inv(y')
  {
    assert forall i :: 0 <= i < |y.installed| ==> y.installed[i].1 != r;
    RiseSnoc(y.installed, run, r);
    hide EpochsRise;
    assert y.runs[run] == Connecting(r) ==> Knows(y.runs[run], r);
    forall q: Epoch, i | q in y'.runs && 0 <= i < |y'.installed| && Knows(y'.runs[q], y'.installed[i].1)
      ensures y'.installed[i].0 == q && !y'.runs[q].Connecting?
    {
      if i < |y.installed| {
        assert y'.installed[i] == y.installed[i];
      }
    }
    forall i | 0 <= i < |y'.installed| ensures y'.installed[i].0 <= y'.s.epoch && y'.installed[i].1 < y'.next {
      assert i < |y.installed| ==> y'.installed[i] == y.installed[i];
    }
  }

  lemma RiseSnoc(installed: seq<(Epoch, Res)>, run: Epoch, r: Res)
    requires EpochsRise(installed) && forall i :: 0 <= i < |installed| ==> installed[i].0 <= run && installed[i].1 != r
    ensures EpochsRise(installed + [(run, r)])
  {
  }

  lemma SharedKeepsInv(y: Sys, y': Sys)
    requires Inv(y) && y'.runs == y.runs && y'.installed == y.installed && y'.next == y.next
    requires y'.s.epoch == y.s.epoch && (y'.s.slot == y.s.slot || y'.s.slot.None?)
    ensures Inv(y')
  {
    hide EpochsRise;
  }

  lemma StartKeepsInv(y: Sys)
    requires Inv(y)
    ensures Inv(SysStep(y, Start))
  {
    hide EpochsRise;
  }

  lemma RunStepKeepsInv(y: Sys, run: Epoch, step: Step)
    requires Inv(y) && run in y.runs
    ensures Inv(RunStep(y, run, y.runs[run], step))
  {
    hide Inv, Judge;
    var y' := RunStep(y, run, y.runs[run], step);
    if y'.installed != y.installed {
      InstallKeepsInv(y, run, y'.runs[run].r, y');
    } else if y'.runs != y.runs {
      PhaseKeepsInv(y, run, y'.runs[run], y');
    } else {
      SharedKeepsInv(y, y');
    }
  }

  lemma StepKeepsInv(y: Sys, step: Step)
    requires Inv(y)
    ensures Inv(SysStep(y, step))
  {
    hide Inv, RunStep;
    match step
    case Start => StartKeepsInv(y);
    case Stop(_) => SharedKeepsInv(y, SysStep(y, step));
    case StopClears(_) => SharedKeepsInv(y, SysStep(y, step));
    case _ =>
      if step.run in y.runs {
        RunStepKeepsInv(y, step.run, step);
      }
  }

  lemma {:induction false} RunKeepsInv(y: Sys, steps: seq<Step>)
    requires Inv(y)
    ensures Inv(SysRun(y, steps))
    decreases |steps|
  {
    hide Inv, SysStep;
    if steps != [] {
      StepKeepsInv(y, steps[0]);
      RunKeepsInv(SysStep(y, steps[0]), steps[1..]);
    }
  }

  /** Installations go by rising epoch, and what is up is always the last installed: an older run never puts its
      own in a newer one's place. */
  lemma NewestIsUp(push: bool, steps: seq<Step>)
    ensures var y := SysRun(Begin(push), steps);
            && EpochsRise(y.installed)
            && (y.s.slot.Some? ==> y.installed != [] && y.installed[|y.installed| - 1].1 == y.s.slot.value)
  {
    hide SysRun, EpochsRise;
    assert Inv(Begin(push)) by { BeginInv(push); }
    RunKeepsInv(Begin(push), steps);
  }

  lemma BeginInv(push: bool)
    ensures Inv(Begin(push))
  {
  }

  /** Who installed what is up. */
  predicate UpBy(y: Sys, run: Epoch)
  {
    y.s.slot.Some? && |y.installed| > 0 && y.installed[|y.installed| - 1] == (run, y.s.slot.value)
  }

  /** In any run: a step of one run never takes down what another has up; only that other run itself does, or a stop. */
  lemma RunsClearOnlyTheirOwn(push: bool, steps: seq<Step>, step: Step, newer: Epoch)
    requires UpBy(SysRun(Begin(push), steps), newer)
    requires !step.Start? && !step.Stop? && !step.StopClears? && step.run != newer
    ensures var y := SysRun(Begin(push), steps);
            SysStep(y, step).s.slot == y.s.slot || UpBy(SysStep(y, step), step.run)
  {
    hide SysRun, Inv, Judge;
    var y := SysRun(Begin(push), steps);
    BeginInv(push);
    RunKeepsInv(Begin(push), steps);
    if step.run in y.runs {
      NotItsOwn(y, step.run, newer);
    }
  }

  lemma NotItsOwn(y: Sys, run: Epoch, newer: Epoch)
    requires Inv(y) && UpBy(y, newer) && run in y.runs && run != newer
    ensures !Knows(y.runs[run], y.s.slot.value)
  {
    hide EpochsRise;
    var last := |y.installed| - 1;
    assert y.installed[last] == (newer, y.s.slot.value);
  }

  // ----- stops -----

  predicate Leaves(steps: seq<Step>, stopper: nat)
  {
    forall step :: step in steps ==> step != Stop(stopper) && step != StopClears(stopper)
  }

  lemma StepKeepsStopping(y: Sys, step: Step, stopper: nat)
    requires step != Stop(stopper) && step != StopClears(stopper)
    ensures var y' := SysStep(y, step);
            && y'.push == y.push && y.installed <= y'.installed
            && (stopper in y'.stopping <==> stopper in y.stopping)
            && (stopper in y.stopping ==> y'.stopping[stopper] == y.stopping[stopper])
  {
    hide Judge;
  }

  lemma {:induction false} RunKeepsStopping(y: Sys, steps: seq<Step>, stopper: nat)
    requires Leaves(steps, stopper)
    ensures var y' := SysRun(y, steps);
            && y'.push == y.push && y.installed <= y'.installed
            && (stopper in y'.stopping <==> stopper in y.stopping)
            && (stopper in y.stopping ==> y'.stopping[stopper] == y.stopping[stopper])
    decreases |steps|
  {
    hide SysStep;
    if steps != [] {
      assert steps[0] in steps && forall step :: step in steps[1..] ==> step in steps;
      StepKeepsStopping(y, steps[0], stopper);
      RunKeepsStopping(SysStep(y, steps[0]), steps[1..], stopper);
    }
  }

  lemma StepKeepsPush(y: Sys, step: Step)
    ensures SysStep(y, step).push == y.push
  {
    hide Judge;
  }

  lemma {:induction false} RunKeepsPush(y: Sys, steps: seq<Step>)
    ensures SysRun(y, steps).push == y.push
    decreases |steps|
  {
    hide SysStep;
    if steps != [] {
      StepKeepsPush(y, steps[0]);
      RunKeepsPush(SysStep(y, steps[0]), steps[1..]);
    }
  }

  /** What is up again after more was installed is not what was up before. */
  lemma SameUpNothingNew(y: Sys, y2: Sys)
    requires Inv(y) && Inv(y2) && y.installed <= y2.installed && y.s.slot.Some? && y2.s.slot == y.s.slot
    ensures y2.installed == y.installed
  {
    var (last, last2) := (|y.installed| - 1, |y2.installed| - 1);
    assert y2.installed[last] == y.installed[last] && y.installed[last].1 == y2.installed[last2].1;
    assert last == last2;
  }

  /** In any run, whatever happens between: a stop takes something down if and only if what it found up when it began
      is still up; and then nothing has been installed since. */
  lemma StopsClearOnlyWhatTheyFound(push: bool, first: seq<Step>, stopper: nat, more: seq<Step>)
    requires Leaves(more, stopper)
    ensures var y := SysRun(Begin(push), first);
            var y2 := SysRun(SysStep(y, Stop(stopper)), more);
            var y3 := SysStep(y2, StopClears(stopper));
            && (y3.s.slot != y2.s.slot <==> !push && y.s.slot.Some? && y2.s.slot == y.s.slot)
            && (y3.s.slot != y2.s.slot ==> y3.s.slot.None? && y2.installed == y.installed)
  {
    hide SysRun, Inv, Judge;
    BeginInv(push);
    RunKeepsInv(Begin(push), first);
    RunKeepsPush(Begin(push), first);
    var y := SysRun(Begin(push), first);
    var y1 := SysStep(y, Stop(stopper));
    StepKeepsInv(y, Stop(stopper));
    RunKeepsInv(y1, more);
    RunKeepsStopping(y1, more, stopper);
    var y2 := SysRun(y1, more);
    if y.s.slot.Some? && y2.s.slot == y.s.slot {
      SameUpNothingNew(y, y2);
    }
  }

  // ----- hooks -----

  /** A run has called its start hook: something it installed is not waiting for it. */
  ghost predicate Announced(y: Sys, run: Epoch)
  {
    exists i :: 0 <= i < |y.installed| && y.installed[i].0 == run && !Awaits(y, run, y.installed[i].1)
  }

  predicate Awaits(y: Sys, run: Epoch, r: Res)
  {
    run in y.runs && y.runs[run] == Placed(r)
  }

  ghost predicate HooksTell(y: Sys)
  {
    && (forall run: Epoch :: OnStart(run) in y.hooks <==> Announced(y, run))
    && (forall run: Epoch, r: Res :: Awaits(y, run, r) ==> (run, r) in y.installed)
  }

  /** Steps that neither install nor call a start hook, nor touch a run that awaits one. */
  lemma QuietKeepsHooks(y: Sys, y': Sys)
    requires HooksTell(y) && y'.installed == y.installed
    requires forall run: Epoch :: OnStart(run) in y'.hooks <==> OnStart(run) in y.hooks
    requires forall run: Epoch, r: Res :: Awaits(y', run, r) <==> Awaits(y, run, r)
    ensures HooksTell(y')
  {
    hide Awaits;
    forall run: Epoch ensures Announced(y', run) <==> Announced(y, run) {
    }
  }

  lemma InstallKeepsHooks(y: Sys, run: Epoch, r: Res, y': Sys)
    requires HooksTell(y) && run in y.runs && !y.runs[run].Placed? && y'.runs == y.runs[run := Placed(r)]
    requires y'.installed == y.installed + [(run, r)] && y'.hooks == y.hooks
    requires forall i :: 0 <= i < |y.installed| ==> y.installed[i].1 != r
    ensures HooksTell(y')
  {
    forall q: Epoch ensures Announced(y', q) <==> Announced(y, q) {
      if Announced(y, q) {
        var i :| 0 <= i < |y.installed| && y.installed[i].0 == q && !Awaits(y, q, y.installed[i].1);
        assert y'.installed[i] == y.installed[i] && !Awaits(y', q, y'.installed[i].1);
      }
      if Announced(y', q) {
        var i :| 0 <= i < |y'.installed| && y'.installed[i].0 == q && !Awaits(y', q, y'.installed[i].1);
        assert i < |y.installed| && y'.installed[i] == y.installed[i] && !Awaits(y, q, y.installed[i].1);
      }
    }
    forall q: Epoch, p: Res | Awaits(y', q, p) ensures (q, p) in y'.installed {
      if q == run {
        assert y'.installed[|y.installed|] == (q, p);
      } else {
        assert Awaits(y, q, p);
      }
    }
  }

  lemma AnnouncingKeepsHooks(y: Sys, run: Epoch, r: Res, y': Sys)
    requires HooksTell(y) && Awaits(y, run, r) && y'.runs == y.runs[run := Up(r)]
    requires y'.installed == y.installed && y'.hooks == y.hooks + [OnStart(run)]
    ensures HooksTell(y')
  {
    assert (run, r) in y.installed;
    var k :| 0 <= k < |y.installed| && y.installed[k] == (run, r);
    assert !Awaits(y', run, y'.installed[k].1);
    forall q: Epoch ensures OnStart(q) in y'.hooks <==> Announced(y', q) {
      if q != run {
        assert forall p: Res :: Awaits(y', q, p) <==> Awaits(y, q, p);
        assert Announced(y', q) <==> Announced(y, q);
      }
    }
    forall q: Epoch, p: Res | Awaits(y', q, p) ensures (q, p) in y'.installed {
      assert Awaits(y, q, p);
    }
  }

  lemma RunStepKeepsHooks(y: Sys, run: Epoch, step: Step)
    requires Inv(y) && HooksTell(y) && run in y.runs
    ensures HooksTell(RunStep(y, run, y.runs[run], step))
  {
    hide Inv, HooksTell, Judge;
    var p, y' := y.runs[run], RunStep(y, run, y.runs[run], step);
    if y'.installed != y.installed {
      var r := y'.runs[run].r;
      FreshToInstall(y, run, r);
      InstallKeepsHooks(y, run, r, y');
    } else if step.StartHook? && p.Placed? {
      AnnouncingKeepsHooks(y, run, p.r, y');
    } else {
      QuietKeepsHooks(y, y');
    }
  }

  lemma FreshToInstall(y: Sys, run: Epoch, r: Res)
    requires Inv(y) && run in y.runs && (y.runs[run] == Connecting(r) || r == y.next)
    ensures forall i :: 0 <= i < |y.installed| ==> y.installed[i].1 != r
  {
    hide EpochsRise;
    assert y.runs[run] == Connecting(r) ==> Knows(y.runs[run], r);
  }

  lemma StepKeepsHooks(y: Sys, step: Step)
    requires Inv(y) && HooksTell(y)
    ensures HooksTell(SysStep(y, step))
  {
    hide Inv, HooksTell, RunStep;
    match step
    case Start =>
      NoRunYet(y);
      QuietKeepsHooks(y, SysStep(y, step));
    case Stop(_) => QuietKeepsHooks(y, SysStep(y, step));
    case StopClears(_) => QuietKeepsHooks(y, SysStep(y, step));
    case _ =>
      if step.run in y.runs {
        RunStepKeepsHooks(y, step.run, step);
      }
  }

  lemma NoRunYet(y: Sys)
    requires Inv(y)
    ensures y.s.epoch + 1 !in y.runs
  {
  }

  lemma {:induction false} RunKeepsHooks(y: Sys, steps: seq<Step>)
    requires Inv(y) && HooksTell(y)
    ensures HooksTell(SysRun(y, steps))
    decreases |steps|
  {
    hide Inv, HooksTell, SysStep;
    if steps != [] {
      StepKeepsInv(y, steps[0]);
      StepKeepsHooks(y, steps[0]);
      RunKeepsHooks(SysStep(y, steps[0]), steps[1..]);
    }
  }

  /** No hook of an older run comes after a newer run's start hook. */
  ghost predicate NoneLate(hooks: seq<Hook>)
  {
    forall i, j :: 0 <= i < j < |hooks| && hooks[i].OnStart? ==> hooks[i].epoch <= hooks[j].epoch
  }

  lemma NoneLateSnoc(hooks: seq<Hook>, h: Hook)
    ensures NoneLate(hooks + [h]) <==> NoneLate(hooks) && forall run: Epoch :: OnStart(run) in hooks ==> run <= h.epoch
  {
    var all := hooks + [h];
    if NoneLate(all) {
      forall i, j | 0 <= i < j < |hooks| && hooks[i].OnStart? ensures hooks[i].epoch <= hooks[j].epoch {
        assert all[i] == hooks[i] && all[j] == hooks[j];
      }
      forall run: Epoch | OnStart(run) in hooks ensures run <= h.epoch {
        var i :| 0 <= i < |hooks| && hooks[i] == OnStart(run);
        assert all[i] == OnStart(run) && all[|hooks|] == h;
      }
    } else if forall run: Epoch :: OnStart(run) in hooks ==> run <= h.epoch {
      var i, j :| 0 <= i < j < |all| && all[i].OnStart? && all[i].epoch > all[j].epoch;
      assert hooks[i] == OnStart(all[i].epoch);
      assert j < |hooks|;
    }
  }

  /** The step calls a hook: a run just installed its start hook, one that is leaving its exit hook unless it found
      itself superseded when it left. */
  predicate Calls(y: Sys, step: Step)
  {
    && (step.StartHook? || step.ExitHook?) && step.run in y.runs
    && (step.StartHook? ==> y.runs[step.run].Placed?)
    && (step.ExitHook? ==> y.runs[step.run].Exited? && !y.runs[step.run].superseded)
  }

  lemma HooksAfter(y: Sys, step: Step)
    ensures SysStep(y, step).hooks
            == y.hooks + if !Calls(y, step) then [] else if step.StartHook? then [OnStart(step.run)] else [OnExit(step.run)]
  {
    hide Judge;
  }

  /** In any run: a hook comes late, after the start hook of a newer run, if and only if at the call some newer run has
      installed a process or connection whose start hook is over. A run that is still the newest is never late. */
  lemma HookComesLateIff(push: bool, steps: seq<Step>, step: Step)
    requires Calls(SysRun(Begin(push), steps), step)
    ensures var y := SysRun(Begin(push), steps);
            && (NoneLate(SysStep(y, step).hooks) <==>
                  NoneLate(y.hooks) && forall newer: Epoch :: Announced(y, newer) ==> newer <= step.run)
            && (y.s.epoch == step.run ==> forall newer: Epoch :: Announced(y, newer) ==> newer <= step.run)
  {
    hide SysRun, SysStep, Inv, NoneLate, Announced;
    BeginInv(push);
    NoHooksYet(push);
    RunKeepsInv(Begin(push), steps);
    RunKeepsHooks(Begin(push), steps);
    var y := SysRun(Begin(push), steps);
    HooksAfter(y, step);
    NoneLateSnoc(y.hooks, if step.StartHook? then OnStart(step.run) else OnExit(step.run));
    NewestInstalled(y);
  }

  lemma NewestInstalled(y: Sys)
    requires Inv(y)
    ensures forall newer: Epoch :: Announced(y, newer) ==> newer <= y.s.epoch
  {
  }

  lemma NoHooksYet(push: bool)
    ensures HooksTell(Begin(push))
  {
  }

  /** A first run that is up, then has died and left, its exit hook still to come. */
  lemma FirstRunStarts()
    ensures var y := SysStep(SysStep(SysStep(Begin(false), Start), Check(1, true)), StartHook(1));
            && 1 in y.runs && y.runs[1] == Up(0) && y.hooks == [OnStart(1)] && !y.push
            && y.s.desired && y.s.epoch == 1 && y.s.slot == Some(0)
  {
    var y2 := SysStep(SysStep(Begin(false), Start), Check(1, true));
    assert y2.runs == map[1 := Placed(0)] && y2.s == Shared(true, 1, Some(0), NO_COUNTS) && y2.hooks == [];
  }

  lemma FirstRunDies(y: Sys)
    requires 1 in y.runs && y.runs[1] == Up(0) && y.s.desired && y.s.epoch == 1 && y.s.slot == Some(0)
    ensures var y' := SysStep(SysStep(y, Dies(1)), Leave(1));
            y'.runs == y.runs[1 := Exited(true, false)] && y'.hooks == y.hooks && y'.push == y.push
            && y'.s.epoch == 1 && y'.s.slot == None
  {
    var y1 := SysStep(y, Dies(1));
    assert y1 == Go(y, 1, Down(0));
  }

  lemma FirstRunLeaves()
    ensures var y := SysRun(Begin(false), [Start, Check(1, true), StartHook(1), Dies(1), Leave(1)]);
            && 1 in y.runs && y.runs[1] == Exited(true, false) && y.hooks == [OnStart(1)] && !y.push
            && y.s.epoch == 1 && y.s.slot == None
  {
    hide SysRun, SysStep, Begin;
    var y1 := SysStep(Begin(false), Start);
    var y2 := SysStep(y1, Check(1, true));
    var y3 := SysStep(y2, StartHook(1));
    var y4 := SysStep(y3, Dies(1));
    RunUnfolds(Begin(false), [Start, Check(1, true), StartHook(1), Dies(1), Leave(1)], Start,
               [Check(1, true), StartHook(1), Dies(1), Leave(1)]);
    RunUnfolds(y1, [Check(1, true), StartHook(1), Dies(1), Leave(1)], Check(1, true), [StartHook(1), Dies(1), Leave(1)]);
    RunUnfolds(y2, [StartHook(1), Dies(1), Leave(1)], StartHook(1), [Dies(1), Leave(1)]);
    RunUnfolds(y3, [Dies(1), Leave(1)], Dies(1), [Leave(1)]);
    RunUnfolds(y4, [Leave(1)], Leave(1), []);
    FirstRunStarts();
    FirstRunDies(y3);
  }

  lemma RunUnfolds(y: Sys, steps: seq<Step>, step: Step, rest: seq<Step>)
    requires steps == [step] + rest
    ensures SysRun(y, steps) == SysRun(SysStep(y, step), rest) && SysRun(SysStep(y, step), []) == SysStep(y, step)
  {
    hide SysStep;
    assert steps[1..] == rest;
  }

  lemma SecondRunStarts(y: Sys)
    requires 1 in y.runs && y.runs[1] == Exited(true, false) && y.hooks == [OnStart(1)] && !y.push
    requires y.s.epoch == 1 && y.s.slot == None
    ensures var y' := SysRun(y, [Stop(0), Start, Check(2, true), StartHook(2)]);
            y'.hooks == [OnStart(1), OnStart(2)] && Calls(y', ExitHook(1))
  {
    RunUnfolds(y, [Stop(0), Start, Check(2, true), StartHook(2)], Stop(0), [Start, Check(2, true), StartHook(2)]);
    var y1 := SysStep(y, Stop(0));
    RunUnfolds(y1, [Start, Check(2, true), StartHook(2)], Start, [Check(2, true), StartHook(2)]);
    var y2 := SysStep(y1, Start);
    RunUnfolds(y2, [Check(2, true), StartHook(2)], Check(2, true), [StartHook(2)]);
    RunUnfolds(SysStep(y2, Check(2, true)), [StartHook(2)], StartHook(2), []);
    hide SysRun;
  }

  /** A late exit hook: the run found itself not superseded when it left, then a stop and a start came, and the new
      run's start hook; only now does the old one call its exit hook. */
  lemma ExitHookMayComeLate()
    ensures var y := SysRun(Begin(false), [Start, Check(1, true), StartHook(1), Dies(1), Leave(1)]);
            var y' := SysRun(y, [Stop(0), Start, Check(2, true), StartHook(2)]);
            SysStep(y', ExitHook(1)).hooks == [OnStart(1), OnStart(2), OnExit(1)]
  {
    FirstRunLeaves();
    hide *;
    var y := SysRun(Begin(false), [Start, Check(1, true), StartHook(1), Dies(1), Leave(1)]);
    SecondRunStarts(y);
    HooksAfter(SysRun(y, [Stop(0), Start, Check(2, true), StartHook(2)]), ExitHook(1));
  }

  // ----- flapping -----

  function JudgeAll(runs: seq<nat>): Counters
  {
    if runs == [] then NO_COUNTS else Judge(JudgeAll(runs[..|runs| - 1]), runs[|runs| - 1])
  }

  /** The early exits at the end of a row of runs. */
  function Streak(runs: seq<nat>): nat
  {
    if runs == [] || runs[|runs| - 1] >= FLAPPING_EXIT then 0 else Streak(runs[..|runs| - 1]) + 1
  }

  ghost predicate AnyLong(runs: seq<nat>)
  {
    exists i :: 0 <= i < |runs| && runs[i] >= EVER_SUCCEEDED
  }

  lemma AnyLongSnoc(runs: seq<nat>)
    requires runs != []
    ensures AnyLong(runs) <==> AnyLong(runs[..|runs| - 1]) || runs[|runs| - 1] >= EVER_SUCCEEDED
  {
    var init := runs[..|runs| - 1];
    if AnyLong(init) {
      var i :| 0 <= i < |init| && init[i] >= EVER_SUCCEEDED;
      assert runs[i] == init[i];
    }
    if AnyLong(runs) && runs[|runs| - 1] < EVER_SUCCEEDED {
      var i :| 0 <= i < |runs| && runs[i] >= EVER_SUCCEEDED;
      assert init[i] == runs[i];
    }
  }

  lemma {:induction false} CountersTell(runs: seq<nat>)
    ensures JudgeAll(runs).everRanLong <==> AnyLong(runs)
    ensures AnyLong(runs) ==> JudgeAll(runs).earlyExits == Streak(runs)
    ensures !AnyLong(runs) ==> JudgeAll(runs).earlyExits == 0
    decreases |runs|
  {
    hide AnyLong;
    if runs == [] {
      assert !AnyLong([]) by { NoneLong(); }
    } else {
      CountersTell(runs[..|runs| - 1]);
      AnyLongSnoc(runs);
    }
  }

  lemma NoneLong()
    ensures !AnyLong([])
  {
  }

  /** Since a start, with nobody else at the counters: a run ends in the verdict that the output was never reached
      exactly while no run was long, and in flapping exactly when it is the last of a full count of early exits. */
  lemma VerdictIff(runs: seq<nat>, ranFor: nat)
    ensures var v, all := VerdictOf(JudgeAll(runs), ranFor), runs + [ranFor];
            && (v == Flapping(true) <==> !AnyLong(all))
            && (v == Flapping(false) <==> AnyLong(all) && Streak(all) == FLAPPING_COUNT)
  {
    var all := runs + [ranFor];
    assert all[..|runs|] == runs;
    CountersTell(all);
  }
}
