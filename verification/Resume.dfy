// The way back from the backup video to live: the outro is started so that it ends on a keyframe, and the switch
// is armed by the one return that is still current.
module Resume {
  import opened Bytes

  // ----- phasing -----

  const LATE_WINDOW := 0.03
  const EARLY_WINDOW := 0.1
  const END_START_LATENCY := 0.08
  const END_TAIL_GUARD := 0.25
  const END_EARLY_CUT_MAX := 0.5

  /** Toward zero. */
  function Truncate(x: real): int
  {
    if x >= 0.0 then x.Floor else -((-x).Floor)
  }

  function Times(k: int, y: real): real
  {
    (k as real) * y
  }

  /** The remainder with the sign of the dividend. */
  function Remainder(x: real, y: real): real
    requires y != 0.0
  {
    x - Times(Truncate(x / y), y)
  }

  /** The remainder with the sign of the divisor. */
  function PyMod(x: real, y: real): real
    requires y != 0.0
  {
    var rem := Remainder(x, y);
    if rem != 0.0 && (rem < 0.0) != (y < 0.0) then rem + y else rem
  }

  /** They differ by a whole multiple of y. */
  ghost predicate Congruent(a: real, b: real, y: real)
  {
    exists k: int :: a - b == Times(k, y)
  }

  lemma MulLess(a: real, b: real, y: real)
    requires y > 0.0
    ensures a <= b ==> a * y <= b * y
    ensures a < b ==> a * y < b * y
  {
    assert (b - a) * y == b * y - a * y;
  }

  lemma TimesAdds(j: int, k: int, y: real)
    ensures Times(j + k, y) == Times(j, y) + Times(k, y)
  {
    assert ((j + k) as real) == (j as real) + (k as real);
  }

  lemma TimesOne(y: real)
    ensures Times(1, y) == y && Times(0, y) == 0.0 && Times(-1, y) == -y
  {
  }

  lemma FloorTimes(q: real, y: real)
    requires y > 0.0
    ensures Times(q.Floor, y) <= q * y < Times(q.Floor, y) + y
  {
    var f := q.Floor;
    MulLess(f as real, q, y);
    MulLess(q, (f + 1) as real, y);
    assert Times(f, y) <= q * y < Times(f + 1, y);
    TimesAdds(f, 1, y);
    TimesOne(y);
    hide Times;
  }

  lemma Quotient(x: real, y: real)
    requires y > 0.0
    ensures (x / y) * y == x && (-(x / y)) * y == -x
    ensures x >= 0.0 <==> x / y >= 0.0
  {
    var q := x / y;
    assert q * y == x;
    MulLess(0.0, q, y);
    MulLess(q, 0.0, y);
  }

  lemma RemainderBounds(x: real, y: real)
    requires y > 0.0
    ensures var r := Remainder(x, y); if x >= 0.0 then 0.0 <= r < y else -y < r <= 0.0
  {
    Quotient(x, y);
    var q := x / y;
    if q >= 0.0 {
      FloorTimes(q, y);
    } else {
      FloorTimes(-q, y);
      TimesAdds((-q).Floor, -((-q).Floor), y);
      TimesOne(y);
    }
    hide Times;
  }

  /** For a positive divisor the result lies in [0, y) and differs from x by a whole multiple of y. */
  lemma PyModIsModulo(x: real, y: real)
    requires y > 0.0
    ensures 0.0 <= PyMod(x, y) < y
    ensures Congruent(x, PyMod(x, y), y)
  {
    RemainderBounds(x, y);
    var t := Truncate(x / y);
    TimesAdds(t, -1, y);
    TimesOne(y);
    hide Times, Truncate;
    assert x - Remainder(x, y) == Times(t, y);
    assert x - (Remainder(x, y) + y) == Times(t + -1, y);
  }

  lemma CongruentAdds(a: real, b: real, c: real, d: real, y: real)
    requires Congruent(a, b, y) && Congruent(c, d, y)
    ensures Congruent(a - c, b - d, y)
  {
    var j: int :| a - b == Times(j, y);
    var k: int :| c - d == Times(k, y);
    TimesAdds(j, -k, y);
    TimesAdds(k, -k, y);
    TimesOne(y);
    assert (a - c) - (b - d) == Times(j + -k, y);
  }

  lemma CongruentChains(a: real, b: real, c: real, y: real)
    requires Congruent(a, b, y) && Congruent(b, c, y)
    ensures Congruent(a, c, y)
  {
    var j: int :| a - b == Times(j, y);
    var k: int :| b - c == Times(k, y);
    TimesAdds(j, k, y);
    assert a - c == Times(j + k, y);
  }

  /** Where in the outro the cut is aimed at: a little before its end. */
  function Target(duration: real): real
  {
    if duration == 0.0 || duration < END_TAIL_GUARD then 0.0 else duration - END_TAIL_GUARD
  }

  /** The switch is armed for keyframes from here on. */
  function NotBefore(segStart: real, duration: real): real
  {
    segStart + duration - END_EARLY_CUT_MAX
  }

  /** How long the outro should still wait to end on a keyframe, modulo the keyframe interval. */
  function Delay(target: real, now: real, keyframe: real, gop: real): real
    requires gop > 0.0
  {
    PyMod(PyMod(-(target + END_START_LATENCY), gop) - PyMod(now - keyframe, gop), gop)
  }

  predicate InWindow(delay: real, gop: real)
  {
    delay <= LATE_WINDOW || delay >= gop - EARLY_WINDOW
  }

  /** Where an outro started now would be cut, if it starts as late as outros do. */
  function PredictedEnd(target: real, now: real): real
  {
    now + END_START_LATENCY + target
  }

  lemma DelayIsToKeyframe(target: real, now: real, keyframe: real, gop: real)
    requires gop > 0.0
    ensures 0.0 <= Delay(target, now, keyframe, gop) < gop
    ensures Congruent(keyframe - PredictedEnd(target, now), Delay(target, now, keyframe, gop), gop)
  {
    var a, b := -(target + END_START_LATENCY), now - keyframe;
    PyModIsModulo(a, gop);
    PyModIsModulo(b, gop);
    PyModIsModulo(PyMod(a, gop) - PyMod(b, gop), gop);
    hide PyMod, Congruent;
    CongruentAdds(a, PyMod(a, gop), b, PyMod(b, gop), gop);
    CongruentChains(a - b, PyMod(a, gop) - PyMod(b, gop), Delay(target, now, keyframe, gop), gop);
    assert a - b == keyframe - PredictedEnd(target, now);
  }

  /** Some keyframe to come is at most so much after the predicted end, or so little before it. */
  ghost predicate NearKeyframe(end: real, keyframe: real, gop: real)
  {
    exists k: int :: -EARLY_WINDOW <= keyframe + Times(k, gop) - end <= LATE_WINDOW
  }

  lemma TimesRises(j: int, k: int, y: real)
    requires y > 0.0 && j <= k
    ensures Times(j, y) <= Times(k, y)
  {
    MulLess(j as real, k as real, y);
  }

  lemma WholeMultiples(y: real, k: int)
    requires y > 0.0
    ensures -y < Times(k, y) < y ==> k == 0
    ensures -(y + y) < Times(k, y) < 0.0 ==> k == -1
  {
    TimesOne(y);
    TimesAdds(-1, -1, y);
    hide Times;
    if k >= 1 {
      TimesRises(1, k, y);
    } else if k == -1 {
    } else if k <= -2 {
      TimesRises(k, -2, y);
    }
  }

  lemma CongruenceOf(a: real, b: real, y: real) returns (k: int)
    requires Congruent(a, b, y)
    ensures a - b == Times(k, y)
  {
    k :| a - b == Times(k, y);
  }

  lemma WindowNear(target: real, now: real, keyframe: real, gop: real)
    requires gop > 0.0 && InWindow(Delay(target, now, keyframe, gop), gop)
    ensures NearKeyframe(PredictedEnd(target, now), keyframe, gop)
  {
    hide Delay, Congruent;
    DelayIsToKeyframe(target, now, keyframe, gop);
    var d, end := Delay(target, now, keyframe, gop), PredictedEnd(target, now);
    var k := CongruenceOf(keyframe - end, d, gop);
    TimesAdds(k, -k, gop);
    TimesAdds(-k, -1, gop);
    TimesOne(gop);
    hide Times;
    if d <= LATE_WINDOW {
      assert keyframe + Times(-k, gop) - end == d;
    } else {
      assert keyframe + Times(-k + -1, gop) - end == d - gop;
    }
  }

  lemma NearInWindow(target: real, now: real, keyframe: real, gop: real)
    requires gop > 0.0 && NearKeyframe(PredictedEnd(target, now), keyframe, gop)
    ensures InWindow(Delay(target, now, keyframe, gop), gop)
  {
    hide Delay, Congruent;
    DelayIsToKeyframe(target, now, keyframe, gop);
    var d, end := Delay(target, now, keyframe, gop), PredictedEnd(target, now);
    var k := CongruenceOf(keyframe - end, d, gop);
    var j: int :| -EARLY_WINDOW <= keyframe + Times(j, gop) - end <= LATE_WINDOW;
    TimesAdds(j, k, gop);
    WholeMultiples(gop, j + k);
    TimesOne(gop);
    hide Times;
    assert keyframe + Times(j, gop) - end == d + Times(j + k, gop);
  }

  /** In exact arithmetic: waiting stops if and only if the outro would end within 0.03 s before or 0.1 s after the
      last keyframe plus whole keyframe intervals. */
  lemma PhasingStopsIff(target: real, now: real, keyframe: real, gop: real)
    requires gop > 0.0
    ensures InWindow(Delay(target, now, keyframe, gop), gop) <==> NearKeyframe(PredictedEnd(target, now), keyframe, gop)
  {
    hide *;
    if InWindow(Delay(target, now, keyframe, gop), gop) {
      WindowNear(target, now, keyframe, gop);
    }
    if NearKeyframe(PredictedEnd(target, now), keyframe, gop) {
      NearInWindow(target, now, keyframe, gop);
    }
  }

  /** An outro begun when the wait was over, and starting as late as outros do, has a keyframe in its tail: one the
      armed switch may take, and before the outro runs out. */
  lemma CutFallsInTail(duration: real, now: real, keyframe: real, gop: real) returns (k: int)
    requires gop > 0.0 && duration >= END_TAIL_GUARD
    requires InWindow(Delay(Target(duration), now, keyframe, gop), gop)
    ensures var segStart := now + END_START_LATENCY;
            NotBefore(segStart, duration) <= keyframe + Times(k, gop) < segStart + duration
  {
    PhasingStopsIff(Target(duration), now, keyframe, gop);
    hide Delay, InWindow;
    k :| -EARLY_WINDOW <= keyframe + Times(k, gop) - PredictedEnd(Target(duration), now) <= LATE_WINDOW;
  }

  /** One look at the clock, the last keyframe (0 for none) and the measured interval, and whether the return is
      still valid after the short sleep that follows. */
  datatype Look = Look(now: real, keyframe: real, gop: Option<real>, validAfter: bool)

  function GopAt(looks: seq<Look>, gop: real, n: nat): real
    requires n <= |looks|
  {
    if n == 0 then gop
    else
      match looks[n - 1].gop
      case Some(g) => if g > 0.0 then g else GopAt(looks, gop, n - 1)
      case None => GopAt(looks, gop, n - 1)
  }

  function KeyframeOf(look: Look, seen: real): real
  {
    if look.keyframe == 0.0 then seen else look.keyframe
  }

  lemma {:induction false} GopStaysPositive(looks: seq<Look>, gop: real, n: nat)
    requires n <= |looks| && gop > 0.0
    ensures GopAt(looks, gop, n) > 0.0
  {
    if n > 0 {
      GopStaysPositive(looks, gop, n - 1);
    }
  }

  /** At look i, with the freshest keyframe and interval, the outro would end near a keyframe. */
  ghost predicate EndsNear(looks: seq<Look>, i: nat, target: real, seen: real, gop: real)
    requires i < |looks|
  {
    NearKeyframe(PredictedEnd(target, looks[i].now), KeyframeOf(looks[i], seen), GopAt(looks, gop, i + 1))
  }

  /** The phasing loop over the looks it takes: it goes on at the first look whose predicted end is near a keyframe,
      and gives up when the return is cancelled meanwhile; None when more looks are needed. */
  method Phasing(looks: seq<Look>, target: real, seen: real, firstGop: real) returns (r: Option<(nat, bool)>)
    requires firstGop > 0.0
    ensures r.Some? ==> var (n, go) := r.value;
              && n < |looks|
              && (go <==> EndsNear(looks, n, target, seen, firstGop))
              && (!go ==> !looks[n].validAfter)
              && forall i :: 0 <= i < n ==> looks[i].validAfter && !EndsNear(looks, i, target, seen, firstGop)
    ensures r.None? ==> forall i :: 0 <= i < |looks| ==> looks[i].validAfter && !EndsNear(looks, i, target, seen, firstGop)
  {
    hide NearKeyframe, Delay, InWindow, PredictedEnd;
    var gop := firstGop;
    for n := 0 to |looks|
      invariant gop == GopAt(looks, firstGop, n) && gop > 0.0
      invariant forall i :: 0 <= i < n ==> looks[i].validAfter && !EndsNear(looks, i, target, seen, firstGop)
    {
      var latest := if looks[n].keyframe == 0.0 then seen else looks[n].keyframe;
      if looks[n].gop.Some? && looks[n].gop.value > 0.0 {
        gop := looks[n].gop.value;
      }
      PhasingStopsIff(target, looks[n].now, latest, gop);
      if InWindow(Delay(target, looks[n].now, latest, gop), gop) {
        return Some((n, true));
      }
      if !looks[n].validAfter {
        return Some((n, false));
      }
    }
    return None;
  }

  // ----- arming -----

  datatype State = State(resuming: bool, gen: nat)

  /** What asked the switcher for the switch; the end of an outro, for which return's outro and on whose behalf. */
  datatype Request = FromBegin | FromRun(gen: nat) | FromEnd(outro: nat, serves: nat)

  predicate Valid(s: State, gen: nat, stateValid: bool)
  {
    s.resuming && s.gen == gen && stateValid
  }

  class Resume {
    var resuming: bool
    var gen: nat
    var requests: seq<Request>

    function Abs(): State
      reads this
    {
      State(resuming, gen)
    }

    constructor ()
      ensures Abs() == State(false, 0) && requests == []
    {
      resuming, gen, requests := false, 0, [];
    }

    /** The generation of the phasing run to start, if there is an outro to phase. */
    method Begin(hasEnd: bool) returns (run: Option<nat>)
      modifies this
      ensures Abs() == State(true, old(gen) + 1)
      ensures run == if hasEnd then Some(gen) else None
      ensures requests == if hasEnd then old(requests) else old(requests) + [FromBegin]
    {
      resuming, gen := true, gen + 1;
      if hasEnd {
        return Some(gen);
      }
      requests := requests + [FromBegin];
      return None;
    }

    method Cancel()
      modifies `resuming
      ensures Abs() == State(false, gen)
    {
      resuming := false;
    }

    /** The section that starts the outro; a refused outro is cut at once. */
    method StartOutro(run: nat, stateValid: bool, accepted: bool) returns (goOn: bool)
      modifies `requests
      ensures requests == if Valid(Abs(), run, stateValid) && !accepted then old(requests) + [FromRun(run)] else old(requests)
      ensures goOn == (Valid(Abs(), run, stateValid) && accepted)
    {
      goOn := false;
      if resuming && gen == run && stateValid {
        if accepted {
          return true;
        }
        requests := requests + [FromRun(run)];
      }
    }

    method Arm(run: nat, stateValid: bool)
      modifies `requests
      ensures requests == if Valid(Abs(), run, stateValid) then old(requests) + [FromRun(run)] else old(requests)
    {
      if resuming && gen == run && stateValid {
        requests := requests + [FromRun(run)];
      }
    }

    /** The outro is over. Which return it belonged to is only recorded here: the program does not ask. */
    method FinishAfterEnd(outro: nat, stateValid: bool)
      modifies `requests
      ensures requests == if resuming && stateValid then old(requests) + [FromEnd(outro, gen)] else old(requests)
    {
      if resuming && stateValid {
        requests := requests + [FromEnd(outro, gen)];
      }
    }
  }

  datatype Place = Looking | Ready | Playing | Ended

  datatype Step =
    | Begin(hasEnd: bool)
    | Cancel
    | LookAgain(run: nat, stateValid: bool, inWindow: bool)
    | StartOutro(run: nat, stateValid: bool, accepted: bool)
    | Arm(run: nat, stateValid: bool)
    | PlayerForgets
    | OutroEnds
    | Finish(outro: nat, stateValid: bool)

  /** With where each phasing run stands, the return whose callback the player holds, those whose callback it has
      called but which have not been looked at yet, and what was asked of the switcher. */
  datatype Sys = Sys(s: State, runs: map<nat, Place>, registered: Option<nat>, finishing: set<nat>, requests: seq<Request>)

  const BEFORE := Sys(State(false, 0), map[], None, {}, [])

  function SysStep(y: Sys, step: Step): Sys
  {
    match step
    case Begin(hasEnd) =>
      var gen := y.s.gen + 1;
      y.(s := State(true, gen), runs := if hasEnd then y.runs[gen := Looking] else y.runs,
         requests := if hasEnd then y.requests else y.requests + [FromBegin])
    case Cancel => y.(s := y.s.(resuming := false))
    case LookAgain(run, stateValid, inWindow) =>
      if run !in y.runs || !y.runs[run].Looking? then y
      else if inWindow then y.(runs := y.runs[run := Ready])
      else if !Valid(y.s, run, stateValid) then y.(runs := y.runs[run := Ended])
      else y
    case StartOutro(run, stateValid, accepted) =>
      if run !in y.runs || !y.runs[run].Ready? then y
      else if !Valid(y.s, run, stateValid) then y.(runs := y.runs[run := Ended])
      else if accepted then y.(runs := y.runs[run := Playing], registered := Some(run))
      else y.(runs := y.runs[run := Ended], requests := y.requests + [FromRun(run)])
    case Arm(run, stateValid) =>
      if run !in y.runs || !y.runs[run].Playing? then y
      else
        y.(runs := y.runs[run := Ended],
           requests := if Valid(y.s, run, stateValid) then y.requests + [FromRun(run)] else y.requests)
    case PlayerForgets => y.(registered := None)
    case OutroEnds =>
      match y.registered {
        case None => y
        case Some(outro) => y.(registered := None, finishing := y.finishing + {outro})
      }
    case Finish(outro, stateValid) =>
      if outro !in y.finishing then y
      else
        var y1 := y.(finishing := y.finishing - {outro});
        if y.s.resuming && stateValid then y1.(requests := y.requests + [FromEnd(outro, y.s.gen)]) else y1
  }

  function SysRun(y: Sys, steps: seq<Step>): Sys
    decreases |steps|
  {
    if steps == [] then y else SysRun(SysStep(y, steps[0]), steps[1..])
  }

  /** Cancelled, or succeeded by a newer return. */
  predicate Stale(s: State, gen: nat)
  {
    gen < s.gen || (gen == s.gen && !s.resuming)
  }

  predicate NoneFrom(requests: seq<Request>, from: nat, gen: nat)
  {
    from <= |requests| && forall i :: from <= i < |requests| ==> requests[i] != FromRun(gen)
  }

  lemma StepKeepsStale(y: Sys, step: Step, gen: nat)
    requires Stale(y.s, gen)
    ensures var y' := SysStep(y, step);
            Stale(y'.s, gen) && y.requests <= y'.requests && NoneFrom(y'.requests, |y.requests|, gen)
  {
  }

  /** A phasing run whose generation is stale or cancelled never asks for a switch again. */
  lemma {:induction false} StaleNeverArms(y: Sys, steps: seq<Step>, gen: nat)
    requires Stale(y.s, gen)
    ensures var y' := SysRun(y, steps);
            Stale(y'.s, gen) && y.requests <= y'.requests && NoneFrom(y'.requests, |y.requests|, gen)
    decreases |steps|
  {
    hide SysStep;
    if steps != [] {
      StepKeepsStale(y, steps[0], gen);
      StaleNeverArms(SysStep(y, steps[0]), steps[1..], gen);
    }
  }

  function FromRuns(requests: seq<Request>, gen: nat): nat
  {
    if requests == [] then 0
    else FromRuns(requests[..|requests| - 1], gen) + if requests[|requests| - 1] == FromRun(gen) then 1 else 0
  }

  lemma FromRunsSnoc(requests: seq<Request>, r: Request, gen: nat)
    ensures FromRuns(requests + [r], gen) == FromRuns(requests, gen) + if r == FromRun(gen) then 1 else 0
  {
    assert (requests + [r])[..|requests|] == requests;
  }

  /** What a run has asked for, and what it may still ask. */
  predicate Spent(y: Sys, gen: nat)
  {
    FromRuns(y.requests, gen) + (if gen > y.s.gen || (gen in y.runs && !y.runs[gen].Ended?) then 1 else 0) <= 1
  }

  /** No run is newer than the latest return. */
  predicate RunsKnown(y: Sys)
  {
    forall g :: g in y.runs ==> g <= y.s.gen
  }

  lemma StepKeepsKnown(y: Sys, step: Step)
    requires RunsKnown(y)
    ensures RunsKnown(SysStep(y, step))
  {
    hide Valid;
  }

  lemma StepKeepsSpent(y: Sys, step: Step, gen: nat)
    requires Spent(y, gen) && RunsKnown(y)
    ensures Spent(SysStep(y, step), gen)
  {
    hide FromRuns, Valid;
    match step
    case Begin(hasEnd) => FromRunsSnoc(y.requests, FromBegin, gen);
    case Cancel =>
    case LookAgain(run, stateValid, inWindow) =>
    case StartOutro(run, stateValid, accepted) => FromRunsSnoc(y.requests, FromRun(run), gen);
    case Arm(run, stateValid) => FromRunsSnoc(y.requests, FromRun(run), gen);
    case PlayerForgets =>
    case OutroEnds =>
    case Finish(outro, stateValid) => FromRunsSnoc(y.requests, FromEnd(outro, y.s.gen), gen);
  }

  /** A phasing run asks for a switch at most once. */
  lemma {:induction false} RunArmsAtMostOnce(steps: seq<Step>, y: Sys, gen: nat)
    requires Spent(y, gen) && RunsKnown(y)
    ensures FromRuns(SysRun(y, steps).requests, gen) <= 1
    decreases |steps|
  {
    if steps != [] {
      hide SysStep, Spent, RunsKnown;
      StepKeepsSpent(y, steps[0], gen);
      StepKeepsKnown(y, steps[0]);
      RunArmsAtMostOnce(steps[1..], SysStep(y, steps[0]), gen);
    }
  }

  // ----- the end of an outro -----

  /** How many returns have begun. */
  function Begins(steps: seq<Step>): nat
  {
    if steps == [] then 0 else (if steps[0].Begin? then 1 else 0) + Begins(steps[1..])
  }

  lemma {:induction false} GenCountsBegins(y: Sys, steps: seq<Step>)
    ensures SysRun(y, steps).s.gen == y.s.gen + Begins(steps)
    decreases |steps|
  {
    if steps != [] {
      StepCountsBegin(y, steps[0]);
      hide SysStep;
      GenCountsBegins(SysStep(y, steps[0]), steps[1..]);
    }
  }

  lemma StepCountsBegin(y: Sys, step: Step)
    ensures SysStep(y, step).s.gen == y.s.gen + if step.Begin? then 1 else 0
  {
  }

  /** A run whose outro the player accepts just now. */
  predicate Accepted(y: Sys, run: nat, stateValid: bool)
  {
    run in y.runs && y.runs[run].Ready? && Valid(y.s, run, stateValid)
  }

  /** Whatever happened since an outro was accepted: its end asks for a switch if and only if some return is under way
      and the platform's state allows it; and then it serves another return than its own if and only if one has begun
      since. */
  lemma OutroServesAnotherIff(y: Sys, run: nat, stateValid: bool, steps: seq<Step>, validAtEnd: bool)
    requires Accepted(y, run, stateValid)
    requires run in SysRun(SysStep(y, StartOutro(run, stateValid, true)), steps).finishing
    ensures var y2 := SysRun(SysStep(y, StartOutro(run, stateValid, true)), steps);
            var asks := SysStep(y2, Finish(run, validAtEnd)).requests[|y2.requests|..];
            && (asks != [] <==> y2.s.resuming && validAtEnd)
            && (asks != [] ==> exists serves :: asks == [FromEnd(run, serves)] && (serves != run <==> Begins(steps) > 0))
  {
    var y1 := SysStep(y, StartOutro(run, stateValid, true));
    var y2 := SysRun(y1, steps);
    GenCountsBegins(y1, steps);
    hide SysRun, Begins;
    assert y1.s.gen == run;
    if y2.s.resuming && validAtEnd {
      assert SysStep(y2, Finish(run, validAtEnd)).requests[|y2.requests|..] == [FromEnd(run, y2.s.gen)];
    } else {
      assert y2.requests[|y2.requests|..] == [];
    }
  }

  /** No callback the player holds or has called is of a return still to come, and no end served an earlier one. */
  ghost predicate OutrosKnown(y: Sys)
  {
    && RunsKnown(y)
    && (y.registered.Some? ==> y.registered.value <= y.s.gen)
    && (forall outro :: outro in y.finishing ==> outro <= y.s.gen)
    && (forall i :: 0 <= i < |y.requests| && y.requests[i].FromEnd? ==> y.requests[i].outro <= y.requests[i].serves <= y.s.gen)
  }

  lemma StepKeepsOutros(y: Sys, step: Step)
    requires OutrosKnown(y)
    ensures OutrosKnown(SysStep(y, step))
  {
    StepKeepsKnown(y, step);
    hide RunsKnown;
    assert step.StartOutro? && step.run in y.runs ==> step.run <= y.s.gen by { RunIsKnown(y); }
  }

  lemma RunIsKnown(y: Sys)
    requires RunsKnown(y)
    ensures forall g :: g in y.runs ==> g <= y.s.gen
  {
  }

  lemma {:induction false} RunKeepsOutros(y: Sys, steps: seq<Step>)
    requires OutrosKnown(y)
    ensures OutrosKnown(SysRun(y, steps))
    decreases |steps|
  {
    hide SysStep, OutrosKnown;
    if steps != [] {
      StepKeepsOutros(y, steps[0]);
      RunKeepsOutros(SysStep(y, steps[0]), steps[1..]);
    }
  }

  /** Over any run the end of an outro serves its own return or a later one, never an earlier one. */
  lemma OutroServesNoEarlierReturn(steps: seq<Step>)
    ensures forall r :: r in SysRun(BEFORE, steps).requests && r.FromEnd? ==> r.outro <= r.serves
  {
    RunKeepsOutros(BEFORE, steps);
    hide SysRun;
  }

  /** The outro of a cancelled return asks for the switch of the next one, which is still phasing its own. */
  lemma OldOutroArmsNewReturn()
    ensures var y := SysRun(BEFORE, [Begin(true), LookAgain(1, true, true)]);
            var more := [Cancel, Begin(true), OutroEnds];
            var y2 := SysRun(SysStep(y, StartOutro(1, true, true)), more);
            && Accepted(y, 1, true) && y2.runs[2] == Looking
            && SysStep(y2, Finish(1, true)).requests == [FromEnd(1, 2)]
  {
    var y := SysRun(BEFORE, [Begin(true), LookAgain(1, true, true)]);
    RunOfTwo(BEFORE, Begin(true), LookAgain(1, true, true));
    assert y == Sys(State(true, 1), map[1 := Ready], None, {}, []);
    var y1 := SysStep(y, StartOutro(1, true, true));
    RunOfThree(y1, Cancel, Begin(true), OutroEnds);
    assert y1 == Sys(State(true, 1), map[1 := Playing], Some(1), {}, []);
  }

  lemma RunOfTwo(y: Sys, a: Step, b: Step)
    ensures SysRun(y, [a, b]) == SysStep(SysStep(y, a), b)
  {
    hide SysStep;
    assert [a, b][1..] == [b] && [b][1..] == [];
    assert SysRun(SysStep(y, a), [b]) == SysRun(SysStep(SysStep(y, a), b), []);
  }

  lemma RunOfThree(y: Sys, a: Step, b: Step, c: Step)
    ensures SysRun(y, [a, b, c]) == SysStep(SysStep(SysStep(y, a), b), c)
  {
    hide SysStep;
    assert [a, b, c][1..] == [b, c];
    RunOfTwo(SysStep(y, a), b, c);
  }
}
