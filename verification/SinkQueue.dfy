// What every step does to a sink's queue and to the writer's hand, over every run.
module SinkQueue {
  import opened Bytes
  import opened Flv
  import opened Sink
  import opened SinkRuns

  /** The connection attached last, with its headers, unless it was detached since. */
  function Attached(steps: seq<Step>): Option<(Conn, map<Key, bytes>)>
  {
    if steps == [] then None
    else
      match steps[|steps| - 1]
      case Attach(conn, seed) => Some((conn, seed))
      case Detach => None
      case _ => Attached(steps[..|steps| - 1])
  }

  /** How often something was attached or detached. */
  function Changes(steps: seq<Step>): nat
  {
    if steps == [] then 0
    else Changes(steps[..|steps| - 1]) + if steps[|steps| - 1].Attach? || steps[|steps| - 1].Detach? then 1 else 0
  }

  predicate Shared(s: State, isPrimary: bool, steps: seq<Step>)
  {
    && s.isPrimary == isPrimary && s.gen == Changes(steps) && (s.closed <==> Close in steps)
    && (s.w.stopped ==> s.closed)
    && (match Attached(steps)
        case None => s.out == None
        case Some((conn, seed)) => s.out == Some(conn) && s.seed == seed)
  }

  lemma {:induction false} RunSnoc(y: Sys, steps: seq<Step>, step: Step)
    ensures SysRun(y, steps + [step]) == SysStep(SysRun(y, steps), step)
    decreases |steps|
  {
    hide SysStep;
    if steps == [] {
      assert [step][1..] == [];
      assert SysRun(SysStep(y, step), []) == SysStep(y, step);
    } else {
      assert (steps + [step])[1..] == steps[1..] + [step];
      RunSnoc(SysStep(y, steps[0]), steps[1..], step);
    }
  }

  /** What the caller's side of the sink has after a step. */
  predicate CallerMoves(s: State, s': State, step: Step)
  {
    && s'.isPrimary == s.isPrimary && (s'.closed <==> s.closed || step.Close?)
    && s'.gen == s.gen + (if step.Attach? || step.Detach? then 1 else 0)
    && s'.out == (match step case Attach(conn, _) => Some(conn) case Detach => None case _ => s.out)
    && s'.seed == (if step.Attach? then step.seed else s.seed)
  }

  lemma TakeFields(s: State)
    ensures CallerMoves(s, TakeStep(s), Take) && CallerMoves(s, ForwardStep(s), Forward)
  {
    hide Forwarded, ForwardWriter, SyncWriter;
  }

  lemma CallFields(s: State, tag: Tag, conn: Conn, seed: map<Key, bytes>)
    ensures CallerMoves(s, OfferStep(s, tag), Offer(tag)) && CallerMoves(s, AttachStep(s, conn, seed), Attach(conn, seed))
    ensures CallerMoves(s, DetachStep(s), Detach)
  {
  }

  lemma StepFields(y: Sys, step: Step)
    ensures CallerMoves(y.s, SysStep(y, step).s, step)
  {
    TakeFields(y.s);
    match step
    case Offer(tag) => CallFields(y.s, tag, 0, map[]);
    case Attach(conn, seed) => CallFields(y.s, Tag(0, 0, []), conn, seed);
    case Detach => CallFields(y.s, Tag(0, 0, []), 0, map[]);
    case Close =>
    case Take => hide CallerMoves, TakeStep, ForwardStep, Notices, NextTurn;
    case Forward => hide CallerMoves, ForwardStep, TakeStep, Forwarded, GrowRuns, MoreTurn;
  }

  lemma StepStops(y: Sys, step: Step)
    ensures SysStep(y, step).s.w.stopped ==> y.s.w.stopped || y.s.closed
  {
    hide Forwarded, ForwardWriter, GrowRuns, NextTurn, MoreTurn;
    ForwardKeepsShared(y.s.w, if y.s.w.hand.Some? then y.s.w.hand.value else Tag(0, 0, []));
  }

  lemma ChangesSnoc(steps: seq<Step>, step: Step)
    ensures Changes(steps + [step]) == Changes(steps) + if step.Attach? || step.Detach? then 1 else 0
    ensures Attached(steps + [step]) ==
            match step
            case Attach(conn, seed) => Some((conn, seed))
            case Detach => None
            case _ => Attached(steps)
    ensures Close in steps + [step] <==> Close in steps || step.Close?
  {
    assert (steps + [step])[..|steps|] == steps;
  }

  lemma StepShared(y: Sys, isPrimary: bool, steps: seq<Step>, step: Step)
    requires Shared(y.s, isPrimary, steps)
    ensures Shared(SysStep(y, step).s, isPrimary, steps + [step])
  {
    StepFields(y, step);
    StepStops(y, step);
    ChangesSnoc(steps, step);
    hide SysStep, Attached, Changes;
  }

  lemma ForwardKeepsShared(w: Writer, tag: Tag)
    ensures ForwardWriter(w, tag).stopped == w.stopped
  {
    hide IsHeader, KeyOf, IsKeyframeTag, TrackIdOf;
  }

  lemma {:induction false} SharedIsTold(isPrimary: bool, steps: seq<Step>)
    ensures Shared(SysRun(Start(isPrimary), steps).s, isPrimary, steps)
    decreases |steps|
  {
    hide SysStep, Shared;
    if steps == [] {
      StartShared(isPrimary);
    } else {
      var init, last := steps[..|steps| - 1], steps[|steps| - 1];
      SharedIsTold(isPrimary, init);
      assert steps == init + [last];
      RunSnoc(Start(isPrimary), init, last);
      StepShared(SysRun(Start(isPrimary), init), isPrimary, init, last);
      hide SysRun;
    }
  }

  lemma StartShared(isPrimary: bool)
    ensures Shared(Start(isPrimary).s, isPrimary, [])
  {
  }

  // ----- one step -----

  ghost predicate OfferMoves(y: Sys, y': Sys, tag: Tag, limit: nat, attached: bool)
  {
    var (q, q') := (y.s.queue, y'.s.queue);
    && y'.s.w == y.s.w
    && (if !attached then q' == q && y'.accepted == y.accepted && y'.gone == y.gone && y'.s.overflow == y.s.overflow
        else if |q| < limit then
          q' == q + [tag] && y'.accepted == y.accepted + [tag] && y'.gone == y.gone && y'.s.overflow == y.s.overflow
        else q' == [tag] && y'.accepted == y.accepted + [tag] && y'.gone == y.gone + Mark(q, Overflowed) && y'.s.overflow)
  }

  ghost predicate Clears(y: Sys, y': Sys)
  {
    && y'.s.queue == [] && y'.s.w == y.s.w && y'.gone == y.gone + Mark(y.s.queue, Cleared) && y'.s.overflow == y.s.overflow
    && y'.accepted == y.accepted
  }

  ghost predicate LeavesQueue(y: Sys, y': Sys)
  {
    y'.s.queue == y.s.queue && y'.gone == y.gone && y'.s.overflow == y.s.overflow && y'.accepted == y.accepted
  }

  ghost predicate TakeMoves(y: Sys, y': Sys, closed: bool, changes: nat)
  {
    var (q, w, w') := (y.s.queue, y.s.w, y'.s.w);
    if w.hand.Some? || closed then LeavesQueue(y, y') && w'.hand == w.hand
    else
      && !y'.s.overflow && w'.gen == changes && y'.accepted == y.accepted
      && (if q == [] then y'.s.queue == [] && w'.hand.None? && y'.gone == y.gone
          else y'.s.queue == q[1..] && w'.hand == Some(q[0]) && y'.gone == y.gone + [(q[0], Taken)])
  }

  lemma OfferIs(y: Sys, tag: Tag)
    ensures OfferMoves(y, SysStep(y, Offer(tag)), tag, if y.s.isPrimary then 900 else 300, y.s.out.Some?)
  {
    hide Mark;
  }

  lemma ClearIs(y: Sys, step: Step)
    requires step.Attach? || step.Detach?
    ensures Clears(y, SysStep(y, step))
  {
    hide Mark;
  }

  lemma TakeIs(y: Sys)
    requires y.s.w.stopped ==> y.s.closed
    ensures TakeMoves(y, SysStep(y, Take), y.s.closed, y.s.gen)
  {
    hide NextTurn;
  }

  lemma ForwardIs(y: Sys)
    ensures LeavesQueue(y, SysStep(y, Forward)) && SysStep(y, Forward).s.w.hand.None?
  {
    hide Forwarded, ForwardWriter, GrowRuns, MoreTurn;
  }

  /** Over every run: a tag is accepted if and only if something is attached, and goes to the end of the queue; only a
      full queue, of 900 tags or 300, is thrown away for it, and the writer is told to resynchronise. An attachment or
      detachment clears the queue. The writer, with its hand empty, takes the oldest tag, until the sink is closed;
      forwarding empties its hand. */
  lemma QueueMoves(isPrimary: bool, steps: seq<Step>, step: Step)
    ensures var (y, y') := (SysRun(Start(isPrimary), steps), SysRun(Start(isPrimary), steps + [step]));
            match step
            case Offer(tag) => OfferMoves(y, y', tag, if isPrimary then 900 else 300, Attached(steps).Some?)
            case Attach(_, _) => Clears(y, y')
            case Detach => Clears(y, y')
            case Close => LeavesQueue(y, y') && y'.s.w == y.s.w
            case Take => TakeMoves(y, y', Close in steps, Changes(steps))
            case Forward => LeavesQueue(y, y') && y'.s.w.hand.None?
  {
    SharedIsTold(isPrimary, steps);
    RunSnoc(Start(isPrimary), steps, step);
    hide SysRun, OfferMoves, Clears, TakeMoves, Attached, Changes;
    var y := SysRun(Start(isPrimary), steps);
    match step
    case Offer(tag) => OfferIs(y, tag);
    case Attach(_, _) => ClearIs(y, step);
    case Detach => ClearIs(y, step);
    case Close =>
    case Take => TakeIs(y);
    case Forward => ForwardIs(y);
  }
}
