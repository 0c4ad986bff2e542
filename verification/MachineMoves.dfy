// What each command does to a platform, in terms of its phase, its switches and what is wanted of its nodes; and what
// becomes of the commands that were asked for.
module MachineMoves {
  import opened Machine

  // ----- the table -----

  /** Nobody whose session the backup could carry on: the source ended as planned, or has no main session. */
  predicate NoSession(e: Env)
  {
    e.aux && (e.gracefulRecent || !e.mainSessionLive)
  }

  predicate SameSwitches(s: State, s': State)
  {
    s'.own.enabled == s.own.enabled && s'.own.gate == s.own.gate && s'.own.group == s.own.group && s'.own.shut == s.own.shut
  }

  /** Off the air, with everything off. */
  predicate Off(s: State)
  {
    s.own.phase == Offline && !s.nodes.relay && !s.nodes.output && !s.nodes.player && s.nodes.active == NoSource
  }

  predicate GoesOff(d: Done, reports: seq<Report>, givesUp: bool)
  {
    && Off(d.after) && SameSwitches(d.before, d.after) && d.after.reports == d.before.reports + reports
    && (d.after.own.halted <==> d.before.own.halted || givesUp)
  }

  /** The backup is on: its video, or on a ladder arm without a ready segment, silence and a watch for one. */
  predicate GoesToBackup(d: Done, eb: bool, relay: bool, reports: seq<Report>)
  {
    var silent := eb && !d.env.readySegment;
    && d.after.own.phase == Fallback && d.after.nodes.active == Backup
    && (d.after.nodes.player <==> !silent)
    && (d.after.nodes.output <==> d.before.nodes.output && !silent)
    && (silent ==> d.after.ladderWatching)
    && d.after.nodes.relay == relay
    && (d.env.aux ==> d.after.oracleArmed)
    && SameSwitches(d.before, d.after) && d.after.own.halted == d.before.own.halted
    && d.after.reports == d.before.reports + (if silent then [Toast] else []) + reports
  }

  predicate Untouched(d: Done)
  {
    d.after.own == d.before.own && d.after.nodes == d.before.nodes && d.after.reports == d.before.reports
  }

  predicate SourceComes(d: Done)
  {
    var (s, s') := (d.before, d.after);
    && SameSwitches(s, s') && s'.nodes.relay && !s'.oracleArmed && s'.reports == s.reports
    && if s.own.phase == Fallback then
         // A return begins; the backup stays on until the switch.
         && s'.own == s.own && s'.nodes.resuming && s'.nodes.player == s.nodes.player && s'.nodes.active == s.nodes.active
         && (s'.nodes.output <==> s.nodes.output || (s.own.enabled && s.own.gate))
       else
         && s'.own.phase == Live && s'.nodes.active == Relay && !s'.nodes.player && s'.nodes.resuming == s.nodes.resuming
         && (s'.nodes.output <==> s.nodes.output || (s.own.phase == Offline && s.own.enabled && s.own.gate))
         && (s'.own.halted <==> s.own.halted && s.own.phase == Live)
  }

  predicate SourceGoes(d: Done, eb: bool)
  {
    var (s, s', e) := (d.before, d.after, d.env);
    match s.own.phase
    case Offline => Off(s') && s'.own == s.own && s'.reports == s.reports
    case Fallback =>
      && s'.own == s.own && !s'.nodes.relay && !s'.nodes.resuming && s'.reports == s.reports && s'.nodes.active == Backup
      && s'.nodes.player == s.nodes.player && s'.nodes.output == s.nodes.output
    case Live =>
      if NoSession(e) then GoesOff(d, [], false)
      else if s.own.enabled && s.own.gate && !e.outputAlive then GoesOff(d, [GaveUp], true)
      else if e.fallbackProblem then GoesOff(d, [FallbackUnusable], false)
      else GoesToBackup(d, eb, false, [])
  }

  predicate RelayStalls(d: Done, eb: bool)
  {
    if d.before.own.phase != Live then Untouched(d)
    else if NoSession(d.env) then GoesOff(d, [], false)
    else if d.env.fallbackProblem then GoesOff(d, [FallbackUnusable], false)
    else GoesToBackup(d, eb, d.before.nodes.relay, [Stalled])
  }

  /** Back to live. New parameters ask for a clean connection: the output, if it may run, is up afterwards. */
  predicate SwitchesBack(d: Done, paramsChanged: bool)
  {
    var (s, s') := (d.before, d.after);
    if s.own.phase != Fallback then Untouched(d)
    else
      && s'.own.phase == Live && !s'.nodes.player && !s'.nodes.resuming && s'.nodes.relay == s.nodes.relay
      && s'.nodes.active == (if paramsChanged then Relay else s.nodes.active)
      && (s'.nodes.output <==> s.nodes.output || (paramsChanged && s.own.enabled && s.own.gate && !s.nodes.failed))
      && SameSwitches(s, s') && s'.own.halted == s.own.halted && s'.reports == s.reports + [Recovered]
  }

  predicate Flaps(d: Done, neverSucceeded: bool)
  {
    if neverSucceeded then
      if d.before.own.phase == Offline then Untouched(d) else GoesOff(d, [GaveUp], true) && d.after.nodes.failed
    else
      var warns := d.env.now - d.before.lastToastAt >= FLAPPING_TOAST_COOLDOWN;
      && d.after.own == d.before.own && d.after.nodes == d.before.nodes
      && d.after.reports == d.before.reports + (if warns then [Toast] else [])
      && d.after.lastToastAt == if warns then d.env.now else d.before.lastToastAt
  }

  /** A watched ladder's segment is ready: the backup video goes on air. Otherwise the watch goes on, or ends with the
      fallback. */
  predicate LadderLooks(d: Done)
  {
    var (s, s') := (d.before, d.after);
    && s'.own == s.own && s'.reports == s.reports
    && if s.ladderWatching && s.own.phase == Fallback && d.env.readySegment then
         && s'.nodes.active == Backup && s'.nodes.player && !s'.ladderWatching
         && (s'.nodes.output <==> s.nodes.output || (s.own.enabled && s.own.gate)) && s'.nodes.relay == s.nodes.relay
       else s'.nodes == s.nodes && (s'.ladderWatching <==> s.ladderWatching && s.own.phase == Fallback)
  }

  /** The output follows the two switches while on air. */
  predicate Switches(d: Done, enabled: bool, gate: bool, group: string)
  {
    var (s, s') := (d.before, d.after);
    && s'.own == s.own.(enabled := enabled, gate := gate, group := group) && s'.reports == s.reports
    && s'.nodes.relay == s.nodes.relay && s'.nodes.player == s.nodes.player && s'.nodes.active == s.nodes.active
    && if enabled == s.own.enabled && gate == s.own.gate then s'.nodes == s.nodes
       else (s'.nodes.output <==> enabled && gate && s.own.phase != Offline)
  }

  predicate NodesMove(d: Done, eb: bool)
  {
    var s := d.before;
    match d.command
    case SourceAvailable => SourceComes(d)
    case SourceUnavailable => SourceGoes(d, eb)
    case RelayStalled => RelayStalls(d, eb)
    case SwitchedToRelay(paramsChanged) => SwitchesBack(d, paramsChanged)
    case OutFlapping(neverSucceeded) => Flaps(d, neverSucceeded)
    case LadderTick => LadderLooks(d)
    case OracleRecheck =>
      if s.own.phase == Fallback && !d.env.pendingSwitch && d.env.gracefulRecent then GoesOff(d, [], false) else Untouched(d)
    case SetEnabled(on) => Switches(d, on, s.own.gate, s.own.group)
    case SetGate(on) => Switches(d, s.own.enabled, on, s.own.group)
    case SetGroup(group, on) => Switches(d, s.own.enabled, on, group)
    case UpdateCredentials =>
      && d.after.own == s.own && d.after.reports == s.reports
      && d.after.nodes == s.nodes.(output := s.nodes.output
           || (d.env.credentialsChanged && s.own.enabled && s.own.gate && s.own.phase != Offline))
    case Halt => GoesOff(d, [], false)
    case GracefulStop => if s.own.phase == Fallback then GoesOff(d, [], false) else Untouched(d)
    case RelayResumed => Untouched(d)
    case LadderMinted => Untouched(d)
    case UpdateTracks => Untouched(d)
    case ApplyPreset => Untouched(d)
  }

  /** The commands that give the platform its phase, perhaps the one it has. */
  predicate SetsPhase(d: Done)
  {
    var phase := d.before.own.phase;
    match d.command
    case SourceAvailable => phase != Fallback
    case SourceUnavailable => phase == Live
    case RelayStalled => phase == Live
    case SwitchedToRelay(_) => phase == Fallback
    case OutFlapping(neverSucceeded) => neverSucceeded && phase != Offline
    case OracleRecheck => phase == Fallback && !d.env.pendingSwitch && d.env.gracefulRecent
    case Halt => true
    case GracefulStop => phase == Fallback
    case _ => false
  }

  /** The commands that start the output where it may run, and with it forget that it ever failed. */
  predicate StartsOutput(d: Done)
  {
    var own := d.before.own;
    match d.command
    case SourceAvailable => own.phase != Live && own.enabled && own.gate
    case LadderTick => d.before.ladderWatching && own.phase == Fallback && d.env.readySegment && own.enabled && own.gate
    case SetEnabled(on) => on && !own.enabled && own.gate && own.phase != Offline
    case SetGate(on) => on && !own.gate && own.enabled && own.phase != Offline
    case SetGroup(_, on) => on && !own.gate && own.enabled && own.phase != Offline
    case _ => false
  }

  predicate Fails(d: Done)
  {
    match d.command
    case OutFlapping(neverSucceeded) =>
      d.after.nodes.failed <==> d.before.nodes.failed || (neverSucceeded && d.before.own.phase != Offline)
    case SetEnabled(on) =>
      d.after.nodes.failed <==> d.before.nodes.failed && !StartsOutput(d) && !(!on && d.before.own.enabled)
    case _ => d.after.nodes.failed <==> d.before.nodes.failed && !StartsOutput(d)
  }

  /** From live to the backup. */
  predicate FallsBack(d: Done)
  {
    d.before.own.phase == Live && d.after.own.phase == Fallback
  }

  predicate Timers(d: Done, eb: bool)
  {
    var (s, s') := (d.before, d.after);
    && (s'.oracleArmed <==>
          if d.command.SourceAvailable? then false
          else if FallsBack(d) then s.oracleArmed || d.env.aux
          else s.oracleArmed && !(SetsPhase(d) && s'.own.phase == Offline))
    && s'.ladderArmed == s.ladderArmed
       + if (FallsBack(d) && eb && !d.env.readySegment && !s.ladderWatching)
            || (d.command.LadderTick? && s.ladderWatching && s.own.phase == Fallback && !d.env.readySegment) then 1 else 0
  }

  /** The rest: since when the phase has been, when a flapping output was last warned of, whether the output has failed, and
      the two timers. */
  predicate RestMoves(d: Done, eb: bool)
  {
    && d.after.own.since == (if SetsPhase(d) then d.env.wall else d.before.own.since)
    && (!d.command.OutFlapping? ==>
          d.after.lastToastAt == if d.command.SourceAvailable? && d.before.own.phase == Offline then 0 else d.before.lastToastAt)
    && Fails(d) && Timers(d, eb)
  }

  predicate Moves(d: Done, eb: bool)
  {
    NodesMove(d, eb) && RestMoves(d, eb)
  }

  // ----- one command -----

  lemma ReturnMoves(s: State, eb: bool, e: Env)
    requires StateInv(s, eb) && s.own.phase == Fallback
    ensures SourceComes(Done(s, SourceAvailable, e, OnSourceAvailable(s, e)))
  {
  }

  lemma AgainMoves(s: State, eb: bool, e: Env)
    requires StateInv(s, eb) && s.own.phase == Live
    ensures SourceComes(Done(s, SourceAvailable, e, OnSourceAvailable(s, e)))
  {
  }

  lemma BeginMoves(s: State, eb: bool, e: Env)
    requires StateInv(s, eb) && s.own.phase == Offline
    ensures SourceComes(Done(s, SourceAvailable, e, OnSourceAvailable(s, e)))
  {
  }

  lemma ComesMoves(s: State, eb: bool, e: Env)
    requires StateInv(s, eb)
    ensures SourceComes(Done(s, SourceAvailable, e, OnSourceAvailable(s, e)))
  {
    hide *;
    match s.own.phase
    case Fallback => ReturnMoves(s, eb, e);
    case Live => AgainMoves(s, eb, e);
    case Offline => BeginMoves(s, eb, e);
  }

  /** Live, but perhaps for its relay. */
  predicate FromLive(s: State, s0: State)
  {
    s.own.phase == Live && s0 == s.(nodes := s.nodes.(relay := s0.nodes.relay))
  }

  lemma RefusedMoves(s: State, s0: State, c: Command, eb: bool, e: Env, stalled: bool)
    requires FromLive(s, s0) && e.fallbackProblem
    ensures GoesOff(Done(s, c, e, EnterFallback(s0, eb, e, stalled)), [FallbackUnusable], false)
  {
    TearMoves(s, SetActive(s0, Backup), c, e);
    hide TeardownClean;
  }

  lemma SilentMoves(s: State, s0: State, c: Command, eb: bool, e: Env, stalled: bool)
    requires StateInv(s, eb) && FromLive(s, s0) && !e.fallbackProblem && eb && !e.readySegment
    ensures GoesToBackup(Done(s, c, e, EnterFallback(s0, eb, e, stalled)), eb, s0.nodes.relay, if stalled then [Stalled] else [])
  {
  }

  lemma PlayingMoves(s: State, s0: State, c: Command, eb: bool, e: Env, stalled: bool)
    requires StateInv(s, eb) && FromLive(s, s0) && !e.fallbackProblem && !(eb && !e.readySegment)
    ensures GoesToBackup(Done(s, c, e, EnterFallback(s0, eb, e, stalled)), eb, s0.nodes.relay, if stalled then [Stalled] else [])
  {
  }

  lemma EnterMoves(s: State, s0: State, c: Command, eb: bool, e: Env, stalled: bool)
    requires StateInv(s, eb) && FromLive(s, s0)
    ensures var d := Done(s, c, e, EnterFallback(s0, eb, e, stalled));
            if e.fallbackProblem then GoesOff(d, [FallbackUnusable], false)
            else GoesToBackup(d, eb, s0.nodes.relay, if stalled then [Stalled] else [])
  {
    hide *;
    if e.fallbackProblem {
      RefusedMoves(s, s0, c, eb, e, stalled);
    } else if eb && !e.readySegment {
      SilentMoves(s, s0, c, eb, e, stalled);
    } else {
      PlayingMoves(s, s0, c, eb, e, stalled);
    }
  }

  lemma TearMoves(s: State, s0: State, c: Command, e: Env)
    requires s0.own == s.own && s0.reports == s.reports
    ensures GoesOff(Done(s, c, e, TeardownClean(s0, e)), [], false)
    ensures GoesOff(Done(s, c, e, GiveUpOnUnreachable(s0, e)), [GaveUp], true)
    ensures GiveUpOnUnreachable(s0, e).nodes.failed == s0.nodes.failed
  {
  }

  lemma LostWhileLive(s: State, eb: bool, e: Env)
    requires StateInv(s, eb) && s.own.phase == Live
    ensures SourceGoes(Done(s, SourceUnavailable, e, OnSourceUnavailable(s, eb, e)), eb)
  {
    TearMoves(s, SetRelay(s, false), SourceUnavailable, e);
    EnterMoves(s, SetRelay(s, false), SourceUnavailable, eb, e, false);
    hide EnterFallback, TeardownClean, GiveUpOnUnreachable, GoesOff, GoesToBackup, StateInv;
  }

  lemma LostOtherwise(s: State, eb: bool, e: Env)
    requires StateInv(s, eb) && s.own.phase != Live
    ensures SourceGoes(Done(s, SourceUnavailable, e, OnSourceUnavailable(s, eb, e)), eb)
  {
    hide EnterFallback, TeardownClean, GiveUpOnUnreachable, GoesOff, GoesToBackup;
  }

  lemma GoesMoves(s: State, eb: bool, e: Env)
    requires StateInv(s, eb)
    ensures SourceGoes(Done(s, SourceUnavailable, e, OnSourceUnavailable(s, eb, e)), eb)
  {
    hide *;
    if s.own.phase == Live {
      LostWhileLive(s, eb, e);
    } else {
      LostOtherwise(s, eb, e);
    }
  }

  lemma StallMoves(s: State, eb: bool, e: Env)
    requires StateInv(s, eb)
    ensures RelayStalls(Done(s, RelayStalled, e, OnRelayStalled(s, eb, e)), eb)
  {
    TearMoves(s, s, RelayStalled, e);
    if s.own.phase == Live {
      EnterMoves(s, s, RelayStalled, eb, e, true);
    }
    hide EnterFallback, TeardownClean, GoesOff, GoesToBackup;
  }

  lemma BackMoves(s: State, paramsChanged: bool, eb: bool, e: Env)
    requires StateInv(s, eb)
    ensures SwitchesBack(Done(s, SwitchedToRelay(paramsChanged), e, OnSwitchedToRelay(s, paramsChanged, e)), paramsChanged)
  {
  }

  lemma FlapMoves(s: State, neverSucceeded: bool, eb: bool, e: Env)
    requires StateInv(s, eb)
    ensures Flaps(Done(s, OutFlapping(neverSucceeded), e, OnOutFlapping(s, neverSucceeded, e)), neverSucceeded)
  {
    TearMoves(s, s.(nodes := s.nodes.(failed := true)), OutFlapping(neverSucceeded), e);
    hide GiveUpOnUnreachable, GoesOff;
  }

  lemma LookMoves(s: State, eb: bool, e: Env)
    requires StateInv(s, eb)
    ensures LadderLooks(Done(s, LadderTick, e, OnLadderTick(s, e)))
  {
  }

  lemma EnableMoves(s: State, on: bool, eb: bool, e: Env)
    requires StateInv(s, eb)
    ensures Switches(Done(s, SetEnabled(on), e, OnSetEnabled(s, on)), on, s.own.gate, s.own.group)
  {
  }

  lemma GateMoves(s: State, c: Command, on: bool, eb: bool, e: Env)
    requires StateInv(s, eb)
    ensures Switches(Done(s, c, e, OnSetGate(s, on)), s.own.enabled, on, s.own.group)
  {
  }

  lemma GroupMoves(s: State, group: string, on: bool, eb: bool, e: Env)
    requires StateInv(s, eb)
    ensures Switches(Done(s, SetGroup(group, on), e, OnSetGate(Publish(s.(own := s.own.(group := group))), on)),
                     s.own.enabled, on, group)
  {
    GateMoves(Publish(s.(own := s.own.(group := group))), SetGroup(group, on), on, eb, e);
    hide OnSetGate;
  }

  lemma CommandMovesNodes(s: State, c: Command, eb: bool, e: Env)
    requires StateInv(s, eb)
    ensures NodesMove(Done(s, c, e, Execute(s, c, eb, e)), eb)
  {
    hide OnSourceAvailable, OnSourceUnavailable, OnRelayStalled, OnSwitchedToRelay, OnOutFlapping, OnLadderTick, OnSetEnabled,
      OnSetGate, TeardownClean, SourceComes, SourceGoes, RelayStalls, SwitchesBack, Flaps, LadderLooks, Switches, GoesOff;
    match c
    case SourceAvailable => ComesMoves(s, eb, e);
    case SourceUnavailable => GoesMoves(s, eb, e);
    case RelayStalled => StallMoves(s, eb, e);
    case SwitchedToRelay(paramsChanged) => BackMoves(s, paramsChanged, eb, e);
    case OutFlapping(neverSucceeded) => FlapMoves(s, neverSucceeded, eb, e);
    case LadderTick => LookMoves(s, eb, e);
    case SetEnabled(on) => EnableMoves(s, on, eb, e);
    case SetGate(on) => GateMoves(s, c, on, eb, e);
    case SetGroup(group, on) => GroupMoves(s, group, on, eb, e);
    case UpdateCredentials =>
    case _ => TearMoves(s, s, c, e);
  }

  lemma EnterRest(s: State, s0: State, c: Command, eb: bool, e: Env, stalled: bool)
    requires StateInv(s, eb) && FromLive(s, s0) && (c.SourceUnavailable? || c.RelayStalled?)
    ensures RestMoves(Done(s, c, e, EnterFallback(s0, eb, e, stalled)), eb)
  {
  }

  lemma OffRest(s: State, s0: State, c: Command, eb: bool, e: Env)
    requires s0.own == s.own && s0.lastToastAt == s.lastToastAt && s0.ladderArmed == s.ladderArmed && SetsPhase(Done(s, c, e, s))
    requires c.SourceUnavailable? || c.RelayStalled? || c.Halt? || c.GracefulStop? || c.OracleRecheck?
    requires s0.nodes.failed == s.nodes.failed
    ensures RestMoves(Done(s, c, e, TeardownClean(s0, e)), eb) && RestMoves(Done(s, c, e, GiveUpOnUnreachable(s0, e)), eb)
  {
  }

  lemma SourceRest(s: State, c: Command, eb: bool, e: Env)
    requires StateInv(s, eb) && c.SourceUnavailable?
    ensures RestMoves(Done(s, c, e, Execute(s, c, eb, e)), eb)
  {
    if s.own.phase == Live {
      OffRest(s, SetRelay(s, false), c, eb, e);
      EnterRest(s, SetRelay(s, false), c, eb, e, false);
      hide RestMoves, EnterFallback, TeardownClean, GiveUpOnUnreachable, StateInv;
    } else {
      hide EnterFallback, TeardownClean, GiveUpOnUnreachable;
    }
  }

  lemma StallRest(s: State, c: Command, eb: bool, e: Env)
    requires StateInv(s, eb) && c.RelayStalled?
    ensures RestMoves(Done(s, c, e, Execute(s, c, eb, e)), eb)
  {
    if s.own.phase == Live {
      OffRest(s, s, c, eb, e);
      EnterRest(s, s, c, eb, e, true);
      hide RestMoves, EnterFallback, TeardownClean, StateInv;
    } else {
      hide EnterFallback, TeardownClean;
    }
  }

  lemma ComesRest(s: State, c: Command, eb: bool, e: Env)
    requires StateInv(s, eb) && c.SourceAvailable?
    ensures RestMoves(Done(s, c, e, Execute(s, c, eb, e)), eb)
  {
  }

  lemma BackRest(s: State, c: Command, eb: bool, e: Env)
    requires StateInv(s, eb) && c.SwitchedToRelay?
    ensures RestMoves(Done(s, c, e, Execute(s, c, eb, e)), eb)
  {
  }

  lemma FlapRest(s: State, c: Command, eb: bool, e: Env)
    requires StateInv(s, eb) && c.OutFlapping?
    ensures RestMoves(Done(s, c, e, Execute(s, c, eb, e)), eb)
  {
  }

  lemma LadderRest(s: State, c: Command, eb: bool, e: Env)
    requires StateInv(s, eb) && c.LadderTick?
    ensures RestMoves(Done(s, c, e, Execute(s, c, eb, e)), eb)
  {
  }

  lemma SwitchRest(s: State, c: Command, eb: bool, e: Env)
    requires StateInv(s, eb) && (c.SetEnabled? || c.SetGate? || c.SetGroup?)
    ensures RestMoves(Done(s, c, e, Execute(s, c, eb, e)), eb)
  {
  }

  lemma OtherRest(s: State, c: Command, eb: bool, e: Env)
    requires StateInv(s, eb)
    requires c.RelayResumed? || c.LadderMinted? || c.OracleRecheck? || c.UpdateCredentials? || c.UpdateTracks? || c.ApplyPreset?
             || c.Halt? || c.GracefulStop?
    ensures RestMoves(Done(s, c, e, Execute(s, c, eb, e)), eb)
  {
    if SetsPhase(Done(s, c, e, s)) {
      OffRest(s, s, c, eb, e);
      hide RestMoves, TeardownClean;
    } else {
      hide TeardownClean;
    }
  }

  lemma CommandMoves(s: State, c: Command, eb: bool, e: Env)
    requires StateInv(s, eb)
    ensures Moves(Done(s, c, e, Execute(s, c, eb, e)), eb)
  {
    CommandMovesNodes(s, c, eb, e);
    hide NodesMove, RestMoves, StateInv, Execute;
    match c
    case SourceAvailable => ComesRest(s, c, eb, e);
    case SourceUnavailable => SourceRest(s, c, eb, e);
    case RelayStalled => StallRest(s, c, eb, e);
    case SwitchedToRelay(_) => BackRest(s, c, eb, e);
    case OutFlapping(_) => FlapRest(s, c, eb, e);
    case LadderTick => LadderRest(s, c, eb, e);
    case SetEnabled(_) => SwitchRest(s, c, eb, e);
    case SetGate(_) => SwitchRest(s, c, eb, e);
    case SetGroup(_, _) => SwitchRest(s, c, eb, e);
    case _ => OtherRest(s, c, eb, e);
  }

  // ----- whole runs -----

  /** One execution begins where the one before it ended, but for the timers. */
  predicate Linked(s: State, s': State)
  {
    s'.own == s.own && s'.nodes == s.nodes && s'.reports == s.reports && s'.ladderWatching == s.ladderWatching
  }

  function Commands(done: seq<Done>): seq<Command>
  {
    seq(|done|, i requires 0 <= i < |done| => done[i].command)
  }

  ghost predicate HistoryOk(y: Sys, eb: bool)
  {
    && (forall d :: d in y.done ==> Moves(d, eb))
    && (forall i :: 0 < i < |y.done| ==> Linked(y.done[i - 1].after, y.done[i].before))
    && (y.done != [] && !y.ended ==> Linked(y.done[|y.done| - 1].after, y.s))
    && (y.dropped == 0 ==> y.asked == Commands(y.done) + y.queue)
  }

  lemma NextKeepsHistory(y: Sys, eb: bool, e: Env)
    requires SysInv(y, eb) && HistoryOk(y, eb)
    ensures HistoryOk(RunNext(y, eb, e), eb)
  {
    hide Execute, NodesFit, AllOff, Moves;
    if !y.ended && y.queue != [] {
      var d := Done(y.s, y.queue[0], e, Execute(y.s, y.queue[0], eb, e));
      CommandMoves(y.s, y.queue[0], eb, e);
      var y' := RunNext(y, eb, e);
      assert y'.done == y.done + [d];
      forall x | x in y'.done ensures Moves(x, eb) {
        assert x in y.done || x == d;
      }
      forall i | 0 < i < |y'.done| ensures Linked(y'.done[i - 1].after, y'.done[i].before) {
        assert i < |y.done| ==> y'.done[i] == y.done[i];
      }
      assert Commands(y'.done) == Commands(y.done) + [y.queue[0]];
      assert y.queue == [y.queue[0]] + y.queue[1..];
      assert (Commands(y.done) + [y.queue[0]]) + y.queue[1..] == Commands(y.done) + y.queue;
    }
  }

  lemma {:induction false} DrainKeepsHistory(y: Sys, eb: bool, envs: seq<Env>)
    requires SysInv(y, eb) && HistoryOk(y, eb) && !y.ended
    ensures HistoryOk(Drain(y, eb, envs), eb)
    decreases |envs|
  {
    hide SysInv, HistoryOk, Execute;
    if envs != [] {
      RunNextKeepsInv(y, eb, envs[0]);
      NextKeepsHistory(y, eb, envs[0]);
      DrainKeepsHistory(RunNext(y, eb, envs[0]), eb, envs[1..]);
    }
  }

  lemma AskedKeepsHistory(y: Sys, y0: Sys, c: Command, eb: bool)
    requires HistoryOk(y, eb) && y0 == y.(s := y0.s) && Linked(y.s, y0.s) && y0.s.published == y.s.published
    ensures HistoryOk(Asked(Enqueue(y0, c), c), eb)
  {
    hide Moves;
    assert (Commands(y.done) + y.queue) + [c] == Commands(y.done) + (y.queue + [c]);
  }

  lemma StepKeepsHistory(y: Sys, step: Step, eb: bool)
    requires SysInv(y, eb) && HistoryOk(y, eb)
    ensures HistoryOk(SysStep(y, step, eb), eb)
  {
    hide RunNext, Drain, Moves, SysInv, Enqueue, Asked;
    match step
    case Post(c) => AskedKeepsHistory(y, y, c, eb);
    case LadderFires =>
      if y.s.ladderArmed > 0 {
        AskedKeepsHistory(y, y.(s := y.s.(ladderArmed := y.s.ladderArmed - 1)), LadderTick, eb);
      }
    case OracleFires => AskedKeepsHistory(y, y.(s := y.s.(oracleArmed := false)), OracleRecheck, eb);
    case Run(e) => NextKeepsHistory(y, eb, e);
    case Shutdown(envs) =>
      if !y.ended {
        DrainKeepsHistory(y, eb, envs);
      }
  }

  lemma {:induction false} RunKeepsHistory(y: Sys, steps: seq<Step>, eb: bool)
    requires SysInv(y, eb) && HistoryOk(y, eb)
    ensures HistoryOk(SysRun(y, steps, eb), eb)
    decreases |steps|
  {
    hide SysInv, SysStep, HistoryOk;
    if steps != [] {
      StepKeepsHistory(y, steps[0], eb);
      StepKeepsInv(y, steps[0], eb);
      RunKeepsHistory(SysStep(y, steps[0], eb), steps[1..], eb);
    }
  }

  /** Over every run, the shutdown's last commands included: every command executed moved the platform as the table
      says, from where the one before it had left it. */
  lemma EveryCommandMoves(enabled: bool, gate: bool, group: string, wall: int, steps: seq<Step>, eb: bool)
    ensures var done := SysRun(Start(enabled, gate, group, wall), steps, eb).done;
            && (forall d :: d in done ==> Moves(d, eb))
            && (forall i :: 0 < i < |done| ==> Linked(done[i - 1].after, done[i].before))
  {
    NothingDone(enabled, gate, group, wall, eb);
    hide SysRun, SysStep, Moves;
    RunKeepsHistory(Start(enabled, gate, group, wall), steps, eb);
  }

  /** So long as the queue has not overflowed, the commands asked for are those executed and then those queued, in the
      order they were asked for: none is lost, doubled or overtaken. */
  lemma NoCommandIsLost(enabled: bool, gate: bool, group: string, wall: int, steps: seq<Step>, eb: bool)
    ensures var y := SysRun(Start(enabled, gate, group, wall), steps, eb);
            y.dropped == 0 ==> y.asked == Commands(y.done) + y.queue
  {
    NothingDone(enabled, gate, group, wall, eb);
    hide SysRun, SysStep, Moves;
    RunKeepsHistory(Start(enabled, gate, group, wall), steps, eb);
  }

  /** A command from outside is queued unless the machine is shut, and lost only if 256 wait already. */
  lemma PostQueues(y: Sys, c: Command, eb: bool)
    ensures var y' := SysStep(y, Post(c), eb);
            if c == LadderTick || c == OracleRecheck || y.s.published.shut then y' == y
            else if |y.queue| < 256 then y'.queue == y.queue + [c] && y'.dropped == y.dropped && y'.s == y.s
            else y'.queue == y.queue && y'.dropped == y.dropped + 1 && y'.s == y.s
  {
  }

  /** A timer's tick comes once for each time it was armed. */
  lemma TimersPost(y: Sys, eb: bool)
    ensures var y' := SysStep(y, LadderFires, eb);
            if y.s.ladderArmed == 0 then y' == y
            else
              y'.s == y.s.(ladderArmed := y.s.ladderArmed - 1)
              && (!y.s.published.shut && |y.queue| < 256 ==> y'.queue == y.queue + [LadderTick])
    ensures var y' := SysStep(y, OracleFires, eb);
            if !y.s.oracleArmed then y' == y
            else
              y'.s == y.s.(oracleArmed := false) && (!y.s.published.shut && |y.queue| < 256 ==> y'.queue == y.queue + [OracleRecheck])
  {
  }

  /** A turn of the owner executes the command that has waited longest. */
  lemma TurnExecutes(y: Sys, e: Env, eb: bool)
    ensures var y' := SysStep(y, Run(e), eb);
            if y.ended || y.queue == [] then y' == y
            else
              && y'.queue == y.queue[1..] && |y'.done| == |y.done| + 1 && y'.done[..|y.done|] == y.done
              && y'.done[|y.done|].before == y.s && y'.done[|y.done|].command == y.queue[0] && y'.done[|y.done|].after == y'.s
  {
    hide Execute;
  }

  lemma NothingDone(enabled: bool, gate: bool, group: string, wall: int, eb: bool)
    ensures SysInv(Start(enabled, gate, group, wall), eb) && HistoryOk(Start(enabled, gate, group, wall), eb)
  {
  }
}
