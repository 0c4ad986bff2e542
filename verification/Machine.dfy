// The state machine of one platform: commands from many threads, run one at a time by the owner thread.
module Machine {
  const COMMAND_QUEUE := 256
  const FLAPPING_TOAST_COOLDOWN := 30

  datatype Phase = Offline | Live | Fallback

  datatype Source = NoSource | Relay | Backup

  datatype Command =
    | SourceAvailable | SourceUnavailable | RelayStalled | RelayResumed | SwitchedToRelay(paramsChanged: bool)
    | OutFlapping(neverSucceeded: bool) | LadderMinted | LadderTick | OracleRecheck
    | SetEnabled(on: bool) | SetGate(on: bool) | SetGroup(group: string, on: bool)
    | UpdateCredentials | UpdateTracks | ApplyPreset | Halt | GracefulStop

  /** What the machine is told when it asks, while it runs one command. */
  datatype Env = Env(aux: bool, gracefulRecent: bool, mainSessionLive: bool, fallbackProblem: bool, readySegment: bool,
                     outputAlive: bool, pendingSwitch: bool, credentialsChanged: bool, now: int, wall: int)

  /** What the machine last asked of its nodes. */
  datatype Nodes = Nodes(relay: bool, output: bool, player: bool, active: Source, resuming: bool, failed: bool)

  /** What the machine reported to the manager. */
  datatype Report = Stalled | Recovered | GaveUp | FallbackUnusable | Toast

  datatype Snapshot = Snapshot(phase: Phase, since: int, halted: bool, enabled: bool, gate: bool, group: string, shut: bool)

  datatype State = State(own: Snapshot, published: Snapshot, lastToastAt: int, ladderWatching: bool, ladderArmed: nat,
                         oracleArmed: bool, nodes: Nodes, reports: seq<Report>)

  const NODES_OFF := Nodes(false, false, false, NoSource, false, false)

  function Fresh(enabled: bool, gate: bool, group: string, wall: int): State
  {
    var own := Snapshot(Offline, wall, false, enabled, gate, group, false);
    State(own, own, 0, false, 0, false, NODES_OFF, [])
  }

  predicate EffectiveEnabled(s: State)
  {
    s.own.enabled && s.own.gate
  }

  predicate OnAir(s: State)
  {
    s.own.phase != Offline
  }

  function Publish(s: State): State
  {
    s.(published := s.own)
  }

  function SetPhase(s: State, phase: Phase, e: Env): State
  {
    Publish(s.(own := s.own.(phase := phase, since := e.wall)))
  }

  function TellManager(s: State, report: Report): State
  {
    s.(reports := s.reports + [report])
  }

  // ----- nodes -----

  function SetRelay(s: State, on: bool): State
  {
    s.(nodes := s.nodes.(relay := on))
  }

  function StartOutput(s: State): State
  {
    s.(nodes := s.nodes.(output := true, failed := false))
  }

  function StopOutput(s: State): State
  {
    s.(nodes := s.nodes.(output := false))
  }

  /** Stopped and started again. */
  function BounceOutput(s: State): State
  {
    s.(nodes := s.nodes.(output := true))
  }

  function SetPlayer(s: State, on: bool): State
  {
    s.(nodes := s.nodes.(player := on))
  }

  function SetActive(s: State, source: Source): State
  {
    s.(nodes := s.nodes.(active := source))
  }

  function SetResuming(s: State, on: bool): State
  {
    s.(nodes := s.nodes.(resuming := on))
  }

  /** The nodes all stopped and the timeline reset. */
  function Wind(s: State): State
  {
    s.(nodes := s.nodes.(relay := false, player := false, output := false, active := NoSource), oracleArmed := false)
  }

  // ----- handlers -----

  function TeardownClean(s: State, e: Env): State
  {
    SetPhase(Wind(s), Offline, e)
  }

  function GiveUpOnUnreachable(s: State, e: Env): State
  {
    var s1 := Wind(s);
    TellManager(SetPhase(s1.(own := s1.own.(halted := true)), Offline, e), GaveUp)
  }

  function OnSourceAvailable(s: State, e: Env): State
  {
    if s.own.shut then s
    else
      var s0 := s.(oracleArmed := false);
      if s.own.phase == Fallback then
        var s1 := SetRelay(s0, true);
        SetResuming(if EffectiveEnabled(s) then StartOutput(s1) else s1, true)
      else
        var s1 :=
          if s.own.phase == Live then s0
          else
            var s2 := s0.(lastToastAt := 0, own := s0.own.(halted := false));
            if EffectiveEnabled(s) then StartOutput(s2) else s2;
        SetPhase(SetRelay(SetActive(SetPlayer(s1, false), Relay), true), Live, e)
  }

  function OnSwitchedToRelay(s: State, paramsChanged: bool, e: Env): State
  {
    if s.own.phase != Fallback then s
    else
      var s1 :=
        if !paramsChanged then s
        else if EffectiveEnabled(s) && !s.nodes.failed then BounceOutput(SetActive(s, Relay))
        else SetActive(s, Relay);
      TellManager(SetPlayer(SetResuming(SetPhase(s1, Live, e), false), false), Recovered)
  }

  function WatchLadder(s: State): State
  {
    if s.ladderWatching then s else s.(ladderWatching := true, ladderArmed := s.ladderArmed + 1)
  }

  /** The backup video, or on a ladder arm without a ready segment, silence until there is one; false when the
      platform went off the air instead. */
  function BeginFallback(s: State, eb: bool, e: Env): (State, bool)
  {
    if e.fallbackProblem then (TellManager(TeardownClean(s, e), FallbackUnusable), false)
    else if eb && !e.readySegment then (WatchLadder(StopOutput(TellManager(s, Toast))), true)
    else (SetPlayer(s, true), true)
  }

  function EnterFallback(s: State, eb: bool, e: Env, stalled: bool): State
  {
    var (s1, ok) := BeginFallback(SetActive(s, Backup), eb, e);
    if !ok then s1
    else
      var s2 := SetPhase(if e.aux then s1.(oracleArmed := true) else s1, Fallback, e);
      if stalled then TellManager(s2, Stalled) else s2
  }

  predicate NoSessionToLeanOn(e: Env)
  {
    e.aux && (e.gracefulRecent || !e.mainSessionLive)
  }

  function OnSourceUnavailable(s: State, eb: bool, e: Env): State
  {
    var s1 := SetRelay(s, false);
    if s.own.phase == Offline then s1
    else if s.own.phase == Fallback then
      if s.nodes.resuming then SetActive(SetResuming(s1, false), Backup) else s1
    else if NoSessionToLeanOn(e) then TeardownClean(s1, e)
    else if EffectiveEnabled(s) && !e.outputAlive then GiveUpOnUnreachable(s1, e)
    else EnterFallback(s1, eb, e, false)
  }

  function OnRelayStalled(s: State, eb: bool, e: Env): State
  {
    if s.own.phase != Live then s
    else if NoSessionToLeanOn(e) then TeardownClean(s, e)
    else EnterFallback(s, eb, e, true)
  }

  function OnLadderTick(s: State, e: Env): State
  {
    if !s.ladderWatching then s
    else if s.own.shut || s.own.phase != Fallback then s.(ladderWatching := false)
    else if !e.readySegment then s.(ladderArmed := s.ladderArmed + 1)
    else
      var s1 := SetActive(s, Backup);
      SetPlayer(if EffectiveEnabled(s) then StartOutput(s1) else s1, true).(ladderWatching := false)
  }

  function OnOracleRecheck(s: State, e: Env): State
  {
    if s.own.phase == Fallback && !e.pendingSwitch && e.gracefulRecent then TeardownClean(s, e) else s
  }

  function OnOutFlapping(s: State, neverSucceeded: bool, e: Env): State
  {
    if neverSucceeded then
      if s.own.phase == Offline then s
      else GiveUpOnUnreachable(s.(nodes := s.nodes.(failed := true)), e)
    else if e.now - s.lastToastAt < FLAPPING_TOAST_COOLDOWN then s
    else TellManager(s.(lastToastAt := e.now), Toast)
  }

  function OnSetEnabled(s: State, on: bool): State
  {
    if s.own.enabled == on then s
    else
      var s1 := Publish(s.(own := s.own.(enabled := on)));
      if !on then StopOutput(s1.(nodes := s1.nodes.(failed := false)))
      else if s.own.gate && OnAir(s) then StartOutput(s1)
      else s1
  }

  function OnSetGate(s: State, on: bool): State
  {
    if s.own.gate == on then s
    else
      var s1 := Publish(s.(own := s.own.(gate := on)));
      if !on then StopOutput(s1)
      else if s.own.enabled && OnAir(s) then StartOutput(s1)
      else s1
  }

  function Execute(s: State, c: Command, eb: bool, e: Env): State
  {
    match c
    case SourceAvailable => OnSourceAvailable(s, e)
    case SourceUnavailable => OnSourceUnavailable(s, eb, e)
    case RelayStalled => OnRelayStalled(s, eb, e)
    case RelayResumed => s
    case SwitchedToRelay(paramsChanged) => OnSwitchedToRelay(s, paramsChanged, e)
    case OutFlapping(neverSucceeded) => OnOutFlapping(s, neverSucceeded, e)
    case LadderMinted => s
    case LadderTick => OnLadderTick(s, e)
    case OracleRecheck => OnOracleRecheck(s, e)
    case SetEnabled(on) => OnSetEnabled(s, on)
    case SetGate(on) => OnSetGate(s, on)
    case SetGroup(group, on) => OnSetGate(Publish(s.(own := s.own.(group := group))), on)
    case UpdateCredentials =>
      if e.credentialsChanged && EffectiveEnabled(s) && OnAir(s) then BounceOutput(s) else s
    case UpdateTracks => s
    case ApplyPreset => s
    case Halt => TeardownClean(s, e)
    case GracefulStop => if s.own.phase == Fallback then TeardownClean(s, e) else s
  }

  function DoShutdown(s: State): State
  {
    var s1 := Publish(s.(own := s.own.(shut := true)));
    s1.(oracleArmed := false, ladderArmed := 0, nodes := s1.nodes.(relay := false, player := false, output := false))
  }

  // ----- the queue -----

  /** One command executed, with the answers it was given. */
  datatype Done = Done(before: State, command: Command, env: Env, after: State)

  /** With the commands that were to be queued while the machine took any, and the history of those executed. */
  datatype Sys = Sys(s: State, queue: seq<Command>, dropped: nat, ended: bool, asked: seq<Command>, done: seq<Done>)

  datatype Step =
    | Post(command: Command)
    | LadderFires
    | OracleFires
    | Run(env: Env)
    | Shutdown(envs: seq<Env>)

  /** Never blocks; after the shutdown a command perishes silently, and a full queue drops it. */
  function Enqueue(y: Sys, c: Command): Sys
  {
    if y.s.published.shut then y
    else if |y.queue| >= COMMAND_QUEUE then y.(dropped := y.dropped + 1)
    else y.(queue := y.queue + [c])
  }

  function RunNext(y: Sys, eb: bool, e: Env): Sys
  {
    if y.ended || y.queue == [] then y
    else
      var after := Execute(y.s, y.queue[0], eb, e);
      y.(s := after, queue := y.queue[1..], done := y.done + [Done(y.s, y.queue[0], e, after)])
  }

  function Drain(y: Sys, eb: bool, envs: seq<Env>): Sys
    decreases |envs|
  {
    if envs == [] then y else Drain(RunNext(y, eb, envs[0]), eb, envs[1..])
  }

  function Asked(y: Sys, c: Command): Sys
  {
    if y.s.published.shut then y else y.(asked := y.asked + [c])
  }

  /** Commands come from other threads, except the ticks, which only timers post. */
  predicate External(c: Command)
  {
    c != LadderTick && c != OracleRecheck
  }

  function SysStep(y: Sys, step: Step, eb: bool): Sys
  {
    match step
    case Post(c) => if External(c) then Asked(Enqueue(y, c), c) else y
    case LadderFires =>
      if y.s.ladderArmed == 0 then y
      else Asked(Enqueue(y.(s := y.s.(ladderArmed := y.s.ladderArmed - 1)), LadderTick), LadderTick)
    case OracleFires =>
      if !y.s.oracleArmed then y else Asked(Enqueue(y.(s := y.s.(oracleArmed := false)), OracleRecheck), OracleRecheck)
    case Run(e) => RunNext(y, eb, e)
    case Shutdown(envs) =>
      if y.ended then y
      else
        var y1 := Drain(y, eb, envs);
        y1.(s := DoShutdown(y1.s), ended := true)
  }

  function SysRun(y: Sys, steps: seq<Step>, eb: bool): Sys
    decreases |steps|
  {
    if steps == [] then y else SysRun(SysStep(y, steps[0], eb), steps[1..], eb)
  }

  function Start(enabled: bool, gate: bool, group: string, wall: int): Sys
  {
    Sys(Fresh(enabled, gate, group, wall), [], 0, false, [], [])
  }

  // ----- what every command keeps -----

  /** What the nodes are asked for fits the phase and the two switches. */
  predicate NodesFit(s: State, eb: bool)
  {
    && (s.nodes.output ==> EffectiveEnabled(s) && OnAir(s))
    && (!eb && EffectiveEnabled(s) && OnAir(s) ==> s.nodes.output)
    && (s.nodes.player ==> s.own.phase == Fallback)
    && (s.own.phase == Offline ==> !s.nodes.relay && s.nodes.active == NoSource)
    && (s.own.phase == Live ==> s.nodes.active != NoSource)
    && (s.own.phase == Fallback ==> s.nodes.active == Backup && (s.nodes.player || s.ladderWatching))
    && (!eb ==> !s.ladderWatching)
  }

  predicate StateInv(s: State, eb: bool)
  {
    NodesFit(s, eb) && s.published == s.own && !s.own.shut
  }

  function Watching(s: State): nat
  {
    if s.ladderWatching then 1 else 0
  }

  /** The invariant is kept, and ticks are armed as the watch begins and ends; a tick that has come is spent. */
  predicate Kept(s: State, s': State, eb: bool, tick: bool)
  {
    && StateInv(s', eb)
    && (if tick then s.ladderWatching ==> s'.ladderArmed == s.ladderArmed + Watching(s')
        else s'.ladderArmed + Watching(s) == s.ladderArmed + Watching(s'))
  }

  lemma ReturnKeeps(s: State, eb: bool, e: Env)
    requires StateInv(s, eb) && s.own.phase == Fallback
    ensures Kept(s, OnSourceAvailable(s, e), eb, false)
  {
  }

  lemma AgainKeeps(s: State, eb: bool, e: Env)
    requires StateInv(s, eb) && s.own.phase == Live
    ensures Kept(s, OnSourceAvailable(s, e), eb, false)
  {
  }

  lemma BeginKeeps(s: State, eb: bool, e: Env)
    requires StateInv(s, eb) && s.own.phase == Offline
    ensures Kept(s, OnSourceAvailable(s, e), eb, false)
  {
  }

  lemma AvailableKeeps(s: State, eb: bool, e: Env)
    requires StateInv(s, eb)
    ensures Kept(s, OnSourceAvailable(s, e), eb, false)
  {
    hide *;
    match s.own.phase
    case Fallback => ReturnKeeps(s, eb, e);
    case Live => AgainKeeps(s, eb, e);
    case Offline => BeginKeeps(s, eb, e);
  }

  lemma SwitchedKeeps(s: State, paramsChanged: bool, eb: bool, e: Env)
    requires StateInv(s, eb)
    ensures Kept(s, OnSwitchedToRelay(s, paramsChanged, e), eb, false)
  {
  }

  lemma TeardownKeeps(s: State, s0: State, eb: bool, e: Env)
    requires StateInv(s, eb) && s.own == s0.own && s.ladderWatching == s0.ladderWatching && s.ladderArmed == s0.ladderArmed
    ensures Kept(s, TeardownClean(s0, e), eb, false) && Kept(s, GiveUpOnUnreachable(s0, e), eb, false)
  {
  }

  lemma RefusedKeeps(s: State, s0: State, eb: bool, e: Env, stalled: bool)
    requires StateInv(s, eb) && s0.own == s.own && s0.ladderWatching == s.ladderWatching && s0.ladderArmed == s.ladderArmed
    requires e.fallbackProblem
    ensures Kept(s, EnterFallback(s0, eb, e, stalled), eb, false)
  {
    TeardownKeeps(s, SetActive(s0, Backup), eb, e);
    hide TeardownClean;
  }

  lemma SilentKeeps(s: State, s0: State, eb: bool, e: Env, stalled: bool)
    requires StateInv(s, eb) && s.own.phase == Live && s0 == s.(nodes := s.nodes.(relay := s0.nodes.relay))
    requires !e.fallbackProblem && eb && !e.readySegment
    ensures Kept(s, EnterFallback(s0, eb, e, stalled), eb, false)
  {
  }

  lemma PlayingKeeps(s: State, s0: State, eb: bool, e: Env, stalled: bool)
    requires StateInv(s, eb) && s.own.phase == Live && s0 == s.(nodes := s.nodes.(relay := s0.nodes.relay))
    requires !e.fallbackProblem && !(eb && !e.readySegment)
    ensures Kept(s, EnterFallback(s0, eb, e, stalled), eb, false)
  {
  }

  lemma EnterKeeps(s: State, s0: State, eb: bool, e: Env, stalled: bool)
    requires StateInv(s, eb) && s.own.phase == Live && s0 == s.(nodes := s.nodes.(relay := s0.nodes.relay))
    ensures Kept(s, EnterFallback(s0, eb, e, stalled), eb, false)
  {
    hide *;
    if e.fallbackProblem {
      RefusedKeeps(s, s0, eb, e, stalled);
    } else if eb && !e.readySegment {
      SilentKeeps(s, s0, eb, e, stalled);
    } else {
      PlayingKeeps(s, s0, eb, e, stalled);
    }
  }

  lemma UnavailableKeeps(s: State, eb: bool, e: Env)
    requires StateInv(s, eb)
    ensures Kept(s, OnSourceUnavailable(s, eb, e), eb, false)
  {
    hide TeardownClean, GiveUpOnUnreachable, EnterFallback;
    TeardownKeeps(s, SetRelay(s, false), eb, e);
    if s.own.phase == Live {
      EnterKeeps(s, SetRelay(s, false), eb, e, false);
    }
  }

  lemma StalledKeeps(s: State, eb: bool, e: Env)
    requires StateInv(s, eb)
    ensures Kept(s, OnRelayStalled(s, eb, e), eb, false)
  {
    hide TeardownClean, EnterFallback;
    TeardownKeeps(s, s, eb, e);
    if s.own.phase == Live {
      EnterKeeps(s, s, eb, e, true);
    }
  }

  lemma FlappingKeeps(s: State, neverSucceeded: bool, eb: bool, e: Env)
    requires StateInv(s, eb)
    ensures Kept(s, OnOutFlapping(s, neverSucceeded, e), eb, false)
  {
    hide GiveUpOnUnreachable;
    TeardownKeeps(s, s.(nodes := s.nodes.(failed := true)), eb, e);
  }

  lemma TickKeeps(s: State, eb: bool, e: Env)
    requires StateInv(s, eb)
    ensures Kept(s, OnLadderTick(s, e), eb, true)
  {
  }

  lemma SwitchesKeep(s: State, eb: bool, on: bool)
    requires StateInv(s, eb)
    ensures Kept(s, OnSetEnabled(s, on), eb, false) && Kept(s, OnSetGate(s, on), eb, false)
  {
  }

  lemma GroupKeeps(s: State, eb: bool, group: string, on: bool)
    requires StateInv(s, eb)
    ensures Kept(s, OnSetGate(Publish(s.(own := s.own.(group := group))), on), eb, false)
  {
    SwitchesKeep(Publish(s.(own := s.own.(group := group))), eb, on);
    hide OnSetGate;
  }

  lemma ExecuteKeeps(s: State, c: Command, eb: bool, e: Env)
    requires StateInv(s, eb)
    ensures Kept(s, Execute(s, c, eb, e), eb, c == LadderTick)
  {
    hide OnSourceAvailable, OnSourceUnavailable, OnRelayStalled, OnSwitchedToRelay, OnOutFlapping, OnLadderTick, OnSetEnabled,
      OnSetGate, TeardownClean;
    match c
    case SourceAvailable => AvailableKeeps(s, eb, e);
    case SourceUnavailable => UnavailableKeeps(s, eb, e);
    case RelayStalled => StalledKeeps(s, eb, e);
    case RelayResumed =>
    case SwitchedToRelay(paramsChanged) => SwitchedKeeps(s, paramsChanged, eb, e);
    case OutFlapping(neverSucceeded) => FlappingKeeps(s, neverSucceeded, eb, e);
    case LadderMinted =>
    case LadderTick => TickKeeps(s, eb, e);
    case OracleRecheck => TeardownKeeps(s, s, eb, e);
    case SetEnabled(on) => SwitchesKeep(s, eb, on);
    case SetGate(on) => SwitchesKeep(s, eb, on);
    case SetGroup(group, on) => GroupKeeps(s, eb, group, on);
    case UpdateCredentials =>
    case UpdateTracks =>
    case ApplyPreset =>
    case Halt => TeardownKeeps(s, s, eb, e);
    case GracefulStop => TeardownKeeps(s, s, eb, e);
  }

  function Ticks(queue: seq<Command>): nat
  {
    if queue == [] then 0 else Ticks(queue[1..]) + if queue[0] == LadderTick then 1 else 0
  }

  lemma {:induction false} TicksSnoc(queue: seq<Command>, c: Command)
    ensures Ticks(queue + [c]) == Ticks(queue) + if c == LadderTick then 1 else 0
  {
    if queue != [] {
      assert (queue + [c])[1..] == queue[1..] + [c];
      TicksSnoc(queue[1..], c);
    }
  }

  /** A watched ladder has exactly one tick on its way, armed or queued. */
  predicate TicksFit(y: Sys)
  {
    y.s.ladderArmed + Ticks(y.queue) == if y.s.ladderWatching then 1 else 0
  }

  predicate SysInv(y: Sys, eb: bool)
  {
    && (!y.ended ==> StateInv(y.s, eb))
    && (!y.ended && y.dropped == 0 ==> TicksFit(y))
    && (y.ended ==> y.s.published == y.s.own && y.s.own.shut && AllOff(y.s))
  }

  predicate AllOff(s: State)
  {
    !s.nodes.relay && !s.nodes.player && !s.nodes.output && s.ladderArmed == 0 && !s.oracleArmed
  }

  lemma RunNextKeepsInv(y: Sys, eb: bool, e: Env)
    requires SysInv(y, eb)
    ensures SysInv(RunNext(y, eb, e), eb)
  {
    hide Execute, NodesFit, AllOff;
    if !y.ended && y.queue != [] {
      ExecuteKeeps(y.s, y.queue[0], eb, e);
    }
  }

  lemma {:induction false} DrainKeepsInv(y: Sys, eb: bool, envs: seq<Env>)
    requires SysInv(y, eb) && !y.ended
    ensures SysInv(Drain(y, eb, envs), eb) && !Drain(y, eb, envs).ended
    decreases |envs|
  {
    hide SysInv, Execute;
    if envs != [] {
      RunNextKeepsInv(y, eb, envs[0]);
      DrainKeepsInv(RunNext(y, eb, envs[0]), eb, envs[1..]);
    }
  }

  lemma StepKeepsInv(y: Sys, step: Step, eb: bool)
    requires SysInv(y, eb)
    ensures SysInv(SysStep(y, step, eb), eb)
  {
    hide Execute, Drain;
    match step
    case Post(c) => TicksSnoc(y.queue, c);
    case LadderFires => TicksSnoc(y.queue, LadderTick);
    case OracleFires => TicksSnoc(y.queue, OracleRecheck);
    case Run(e) => RunNextKeepsInv(y, eb, e);
    case Shutdown(envs) =>
      if !y.ended {
        DrainKeepsInv(y, eb, envs);
      }
  }

  lemma {:induction false} RunKeepsInv(y: Sys, steps: seq<Step>, eb: bool)
    requires SysInv(y, eb)
    ensures SysInv(SysRun(y, steps, eb), eb)
    decreases |steps|
  {
    hide SysInv, SysStep;
    if steps != [] {
      StepKeepsInv(y, steps[0], eb);
      RunKeepsInv(SysStep(y, steps[0], eb), steps[1..], eb);
    }
  }

  /** At every command boundary before the shutdown: the output is wanted only while enabled, the gate open and
      the platform on air, and off the ladder arm exactly then; the player only in fallback; offline everything is
      off; and the published snapshot is the owner's state. */
  lemma WantedFits(enabled: bool, gate: bool, group: string, wall: int, steps: seq<Step>, eb: bool)
    ensures var y := SysRun(Start(enabled, gate, group, wall), steps, eb);
            var s := y.s;
            && s.published == s.own
            && (y.ended ==> AllOff(s))
            && (!y.ended ==>
                  && (s.nodes.output ==> EffectiveEnabled(s) && OnAir(s))
                  && (!eb ==> (s.nodes.output <==> EffectiveEnabled(s) && OnAir(s)))
                  && (s.nodes.player ==> s.own.phase == Fallback)
                  && (s.own.phase == Offline ==> !s.nodes.relay && !s.nodes.player && !s.nodes.output))
  {
    hide SysRun, SysStep;
    RunKeepsInv(Start(enabled, gate, group, wall), steps, eb);
  }

  /** In fallback either the backup player is wanted, or one ladder tick is on its way that will see to it, so
      long as the queue has not overflowed. */
  lemma FallbackIsAttended(enabled: bool, gate: bool, group: string, wall: int, steps: seq<Step>, eb: bool)
    ensures var y := SysRun(Start(enabled, gate, group, wall), steps, eb);
            !y.ended && y.dropped == 0 && y.s.own.phase == Fallback && !y.s.nodes.player ==>
              eb && y.s.ladderArmed + Ticks(y.queue) == 1
  {
    hide SysRun, SysStep;
    RunKeepsInv(Start(enabled, gate, group, wall), steps, eb);
  }

  /** The tick that finds a segment ready puts the backup video on air. */
  lemma ReadyTickAttends(s: State, eb: bool, e: Env)
    requires StateInv(s, eb) && s.own.phase == Fallback && s.ladderWatching && e.readySegment
    ensures var s' := Execute(s, LadderTick, eb, e);
            s'.nodes.player && !s'.ladderWatching && (s'.nodes.output <==> EffectiveEnabled(s) || s.nodes.output)
  {
  }

  // ----- what does not hold, and exactly when -----

  predicate Unrelayed(s: State)
  {
    s.own.phase == Live && !s.nodes.relay
  }

  predicate SwitchesUnrelayed(d: Done)
  {
    d.command.SwitchedToRelay? && d.before.own.phase == Fallback && !d.before.nodes.relay
  }

  predicate StaysUnrelayed(d: Done)
  {
    d.after.own.phase == Live && !d.command.SourceAvailable?
  }

  predicate Silent(s: State)
  {
    s.own.phase == Live && EffectiveEnabled(s) && !s.nodes.output
  }

  predicate SwitchesSilent(d: Done)
  {
    && d.command.SwitchedToRelay? && d.before.own.phase == Fallback && EffectiveEnabled(d.before) && !d.before.nodes.output
    && (d.command.paramsChanged ==> d.before.nodes.failed)
  }

  predicate StaysSilent(d: Done)
  {
    d.after.own.phase == Live && EffectiveEnabled(d.after) && !(d.command.UpdateCredentials? && d.env.credentialsChanged)
  }

  /** Such a command was executed, and every one after it left things so. */
  ghost predicate Since(done: seq<Done>, begins: Done -> bool, stays: Done -> bool)
  {
    exists i :: 0 <= i < |done| && begins(done[i]) && forall j :: i < j < |done| ==> stays(done[j])
  }

  lemma SinceSnoc(done: seq<Done>, d: Done, begins: Done -> bool, stays: Done -> bool)
    ensures Since(done + [d], begins, stays) <==> begins(d) || (Since(done, begins, stays) && stays(d))
  {
    var all := done + [d];
    if begins(d) {
      assert begins(all[|done|]);
    } else if Since(done, begins, stays) && stays(d) {
      var i :| 0 <= i < |done| && begins(done[i]) && forall j :: i < j < |done| ==> stays(done[j]);
      assert begins(all[i]);
    }
    if Since(all, begins, stays) && !begins(d) {
      var i :| 0 <= i < |all| && begins(all[i]) && forall j :: i < j < |all| ==> stays(all[j]);
      assert begins(done[i]) && stays(all[|done|]);
      forall j | i < j < |done| ensures stays(done[j]) {
        assert stays(all[j]);
      }
    }
  }

  /** How the relay comes to be missing in live, or the output, and how it stays so. */
  predicate Told(d: Done)
  {
    && (Unrelayed(d.after) <==> SwitchesUnrelayed(d) || (Unrelayed(d.before) && StaysUnrelayed(d)))
    && (Silent(d.after) <==> SwitchesSilent(d) || (Silent(d.before) && StaysSilent(d)))
  }

  lemma AvailableTells(s: State, eb: bool, e: Env)
    requires StateInv(s, eb)
    ensures Told(Done(s, SourceAvailable, e, OnSourceAvailable(s, e)))
  {
  }

  lemma EnterTells(s: State, s0: State, eb: bool, e: Env, stalled: bool)
    ensures EnterFallback(s0, eb, e, stalled).own.phase != Live
  {
  }

  lemma UnavailableTells(s: State, eb: bool, e: Env)
    requires StateInv(s, eb)
    ensures Told(Done(s, SourceUnavailable, e, OnSourceUnavailable(s, eb, e)))
  {
    EnterTells(s, SetRelay(s, false), eb, e, false);
    hide EnterFallback;
  }

  lemma StalledTells(s: State, eb: bool, e: Env)
    requires StateInv(s, eb)
    ensures Told(Done(s, RelayStalled, e, OnRelayStalled(s, eb, e)))
  {
    EnterTells(s, s, eb, e, true);
    hide EnterFallback;
  }

  lemma SwitchedTells(s: State, paramsChanged: bool, eb: bool, e: Env)
    requires StateInv(s, eb)
    ensures Told(Done(s, SwitchedToRelay(paramsChanged), e, OnSwitchedToRelay(s, paramsChanged, e)))
  {
  }

  lemma FlappingTells(s: State, neverSucceeded: bool, eb: bool, e: Env)
    requires StateInv(s, eb)
    ensures Told(Done(s, OutFlapping(neverSucceeded), e, OnOutFlapping(s, neverSucceeded, e)))
  {
  }

  lemma TickTells(s: State, eb: bool, e: Env)
    requires StateInv(s, eb)
    ensures Told(Done(s, LadderTick, e, OnLadderTick(s, e)))
  {
  }

  lemma EnabledTells(s: State, on: bool, eb: bool, e: Env)
    requires StateInv(s, eb)
    ensures Told(Done(s, SetEnabled(on), e, OnSetEnabled(s, on)))
  {
  }

  lemma GateTells(s: State, c: Command, on: bool, eb: bool, e: Env)
    requires StateInv(s, eb) && (c.SetGate? || c.SetGroup?)
    ensures Told(Done(s, c, e, OnSetGate(s, on)))
  {
  }

  lemma GroupTells(s: State, group: string, on: bool, eb: bool, e: Env)
    requires StateInv(s, eb)
    ensures var s1 := Publish(s.(own := s.own.(group := group)));
            Told(Done(s, SetGroup(group, on), e, OnSetGate(s1, on)))
  {
    var s1 := Publish(s.(own := s.own.(group := group)));
    GateTells(s1, SetGroup(group, on), on, eb, e);
    hide OnSetGate;
  }

  lemma RestTells(s: State, c: Command, eb: bool, e: Env)
    requires StateInv(s, eb) && (c.UpdateCredentials? || c.Halt? || c.GracefulStop? || c.OracleRecheck?)
    ensures Told(Done(s, c, e, Execute(s, c, eb, e)))
  {
    hide OnSourceAvailable, OnSourceUnavailable, OnRelayStalled, OnSwitchedToRelay, OnOutFlapping, OnLadderTick, OnSetEnabled,
      OnSetGate;
  }

  lemma StepTells(s: State, c: Command, eb: bool, e: Env)
    requires StateInv(s, eb)
    ensures Told(Done(s, c, e, Execute(s, c, eb, e)))
  {
    hide OnSourceAvailable, OnSourceUnavailable, OnRelayStalled, OnSwitchedToRelay, OnOutFlapping, OnLadderTick, OnSetEnabled,
      OnSetGate, TeardownClean;
    match c
    case SourceAvailable => AvailableTells(s, eb, e);
    case SourceUnavailable => UnavailableTells(s, eb, e);
    case RelayStalled => StalledTells(s, eb, e);
    case SwitchedToRelay(paramsChanged) => SwitchedTells(s, paramsChanged, eb, e);
    case OutFlapping(neverSucceeded) => FlappingTells(s, neverSucceeded, eb, e);
    case LadderTick => TickTells(s, eb, e);
    case SetEnabled(on) => EnabledTells(s, on, eb, e);
    case SetGate(on) => GateTells(s, c, on, eb, e);
    case SetGroup(group, on) => GroupTells(s, group, on, eb, e);
    case RelayResumed =>
    case LadderMinted =>
    case UpdateTracks =>
    case ApplyPreset =>
    case _ => RestTells(s, c, eb, e);
  }

  ghost predicate HistoryTells(y: Sys)
  {
    !y.ended ==>
      && (Unrelayed(y.s) <==> Since(y.done, SwitchesUnrelayed, StaysUnrelayed))
      && (Silent(y.s) <==> Since(y.done, SwitchesSilent, StaysSilent))
  }

  lemma StepKeepsHistory(y: Sys, step: Step, eb: bool)
    requires SysInv(y, eb) && HistoryTells(y)
    ensures HistoryTells(SysStep(y, step, eb))
  {
    hide Execute, Drain, Since, NodesFit, AllOff;
    if step.Run? && !y.ended && y.queue != [] {
      var d := Done(y.s, y.queue[0], step.env, Execute(y.s, y.queue[0], eb, step.env));
      StepTells(y.s, y.queue[0], eb, step.env);
      SinceSnoc(y.done, d, SwitchesUnrelayed, StaysUnrelayed);
      SinceSnoc(y.done, d, SwitchesSilent, StaysSilent);
    }
  }

  lemma {:induction false} RunKeepsHistory(y: Sys, steps: seq<Step>, eb: bool)
    requires SysInv(y, eb) && HistoryTells(y)
    ensures HistoryTells(SysRun(y, steps, eb))
    decreases |steps|
  {
    hide SysInv, SysStep, HistoryTells;
    if steps != [] {
      StepKeepsInv(y, steps[0], eb);
      StepKeepsHistory(y, steps[0], eb);
      RunKeepsHistory(SysStep(y, steps[0], eb), steps[1..], eb);
    }
  }

  /** At every command boundary before the shutdown: live has no relay if and only if a switch back was executed in
      fallback while the relay was stopped, and since then the platform stayed live and no source became available. */
  lemma LiveLacksRelayIff(enabled: bool, gate: bool, group: string, wall: int, steps: seq<Step>, eb: bool)
    ensures var y := SysRun(Start(enabled, gate, group, wall), steps, eb);
            !y.ended ==> (y.s.own.phase == Live && !y.s.nodes.relay <==> Since(y.done, SwitchesUnrelayed, StaysUnrelayed))
  {
    hide SysRun, SysStep, Since;
    NoHistory(enabled, gate, group, wall);
    RunKeepsHistory(Start(enabled, gate, group, wall), steps, eb);
  }

  /** And: live is silent, though enabled and the gate open, if and only if a switch back was executed while the
      output was stopped, without reconnecting it, and since then the platform stayed live and enabled, and its
      credentials the same. */
  lemma LiveIsSilentIff(enabled: bool, gate: bool, group: string, wall: int, steps: seq<Step>, eb: bool)
    ensures var y := SysRun(Start(enabled, gate, group, wall), steps, eb);
            !y.ended ==> (y.s.own.phase == Live && EffectiveEnabled(y.s) && !y.s.nodes.output
                          <==> Since(y.done, SwitchesSilent, StaysSilent))
  {
    hide SysRun, SysStep, Since;
    NoHistory(enabled, gate, group, wall);
    RunKeepsHistory(Start(enabled, gate, group, wall), steps, eb);
  }

  lemma NoHistory(enabled: bool, gate: bool, group: string, wall: int)
    ensures HistoryTells(Start(enabled, gate, group, wall))
  {
  }

  const CALM := Env(false, false, true, false, true, true, false, false, 0, 0)

  const COMES_UP := [Post(SourceAvailable), Run(CALM)]
  const STALLS := [Post(RelayStalled), Run(CALM)]
  const CROSS := [Post(SourceUnavailable), Post(SwitchedToRelay(false))]
  const BOTH_RUN := [Run(CALM), Run(CALM)]

  /** Live without a relay: the switch back was reported behind the loss of the source. */
  lemma LiveMayLackRelay()
    ensures var s := SysRun(Start(true, true, "", 0), COMES_UP + (STALLS + (CROSS + BOTH_RUN)), false).s;
            s.own.phase == Live && !s.nodes.relay
  {
    var y0 := Start(true, true, "", 0);
    GoesLive(y0);
    hide *;
    TwoSteps(y0, Post(SourceAvailable), Run(CALM), false);
    var y2 := SysRun(y0, COMES_UP, false);
    FallsBack(y2);
    TwoSteps(y2, Post(RelayStalled), Run(CALM), false);
    var y4 := SysRun(y2, STALLS, false);
    Queued(y4);
    TwoSteps(y4, Post(SourceUnavailable), Post(SwitchedToRelay(false)), false);
    var y6 := SysRun(y4, CROSS, false);
    SwitchesWithoutRelay(y6);
    TwoSteps(y6, Run(CALM), Run(CALM), false);
    SysRunAppend(y0, COMES_UP, STALLS + (CROSS + BOTH_RUN), false);
    SysRunAppend(y2, STALLS, CROSS + BOTH_RUN, false);
    SysRunAppend(y4, CROSS, BOTH_RUN, false);
  }

  lemma GoesLive(y: Sys)
    requires y == Start(true, true, "", 0)
    ensures forall eb ::
              var y' := SysStep(SysStep(y, Post(SourceAvailable), eb), Run(CALM), eb);
              && y'.s.own.phase == Live && y'.queue == [] && !y'.ended && !y'.s.published.shut && !y'.s.own.shut
              && !y'.s.nodes.resuming && EffectiveEnabled(y'.s)
  {
  }

  lemma Queued(y: Sys)
    requires y.queue == [] && !y.s.published.shut
    ensures SysStep(SysStep(y, Post(SourceUnavailable), false), Post(SwitchedToRelay(false)), false)
            == y.(queue := [SourceUnavailable, SwitchedToRelay(false)],
                  asked := y.asked + [SourceUnavailable] + [SwitchedToRelay(false)])
  {
  }

  lemma FallsBack(y: Sys)
    requires y.queue == [] && !y.ended && y.s.own.phase == Live && !y.s.published.shut && !y.s.nodes.resuming
    ensures var y' := SysStep(SysStep(y, Post(RelayStalled), false), Run(CALM), false);
            && y'.s.own.phase == Fallback && y'.queue == [] && !y'.ended && y'.s.published.shut == y'.s.own.shut == y.s.own.shut
            && !y'.s.nodes.resuming
  {
  }

  lemma SwitchesWithoutRelay(y: Sys)
    requires y.queue == [SourceUnavailable, SwitchedToRelay(false)] && !y.ended && y.s.own.phase == Fallback
    requires !y.s.nodes.resuming
    ensures var y' := SysStep(SysStep(y, Run(CALM), false), Run(CALM), false);
            y'.s.own.phase == Live && !y'.s.nodes.relay
  {
    assert y.queue[1..] == [SwitchedToRelay(false)];
  }

  const UNREADY := CALM.(readySegment := false)
  const GOES_SILENT := [Post(RelayStalled), Run(UNREADY)]
  const COMES_BACK := [Post(SwitchedToRelay(false)), Run(UNREADY)]

  /** On the ladder arm the output may stay off in live: it was stopped for want of a ready segment, and the
      switch back does not start it again. */
  lemma LadderArmMayStaySilent()
    ensures var s := SysRun(Start(true, true, "", 0), COMES_UP + (GOES_SILENT + COMES_BACK), true).s;
            s.own.phase == Live && EffectiveEnabled(s) && !s.nodes.output
  {
    var y0 := Start(true, true, "", 0);
    GoesLive(y0);
    hide *;
    TwoSteps(y0, Post(SourceAvailable), Run(CALM), true);
    var y2 := SysRun(y0, COMES_UP, true);
    GoesSilent(y2);
    TwoSteps(y2, Post(RelayStalled), Run(UNREADY), true);
    var y4 := SysRun(y2, GOES_SILENT, true);
    BackWithoutOutput(y4);
    TwoSteps(y4, Post(SwitchedToRelay(false)), Run(UNREADY), true);
    SysRunAppend(y0, COMES_UP, GOES_SILENT + COMES_BACK, true);
    SysRunAppend(y2, GOES_SILENT, COMES_BACK, true);
  }

  lemma GoesSilent(y: Sys)
    requires y.queue == [] && !y.ended && y.s.own.phase == Live && !y.s.published.shut && EffectiveEnabled(y.s)
    ensures var y' := SysStep(SysStep(y, Post(RelayStalled), true), Run(UNREADY), true);
            && y'.s.own.phase == Fallback && y'.queue == [] && !y'.ended && y'.s.published.shut == y'.s.own.shut == y.s.own.shut
            && !y'.s.nodes.output && EffectiveEnabled(y'.s)
  {
  }

  lemma BackWithoutOutput(y: Sys)
    requires y.queue == [] && !y.ended && y.s.own.phase == Fallback && !y.s.published.shut && EffectiveEnabled(y.s)
    requires !y.s.nodes.output
    ensures var y' := SysStep(SysStep(y, Post(SwitchedToRelay(false)), true), Run(UNREADY), true);
            y'.s.own.phase == Live && EffectiveEnabled(y'.s) && !y'.s.nodes.output
  {
  }

  lemma TwoSteps(y: Sys, a: Step, b: Step, eb: bool)
    ensures SysRun(y, [a, b], eb) == SysStep(SysStep(y, a, eb), b, eb)
  {
    hide SysStep;
    assert [a, b][1..] == [b] && [b][1..] == [];
    assert SysRun(SysStep(y, a, eb), [b], eb) == SysRun(SysStep(SysStep(y, a, eb), b, eb), [], eb);
  }

  lemma {:induction false} SysRunAppend(y: Sys, a: seq<Step>, b: seq<Step>, eb: bool)
    ensures SysRun(y, a + b, eb) == SysRun(SysRun(y, a, eb), b, eb)
    decreases |a|
  {
    hide SysStep;
    if a == [] {
      assert a + b == b;
    } else {
      assert (a + b)[0] == a[0] && (a + b)[1..] == a[1..] + b;
      SysRunAppend(SysStep(y, a[0], eb), a[1..], b, eb);
    }
  }

  // ----- the owner thread's object -----

  class Owner {
    const eb: bool
    var own: Snapshot
    var published: Snapshot
    var lastFlappingToastAt: int
    var ladderWatching: bool
    var ladderArmed: nat
    var oracleArmed: bool
    var nodes: Nodes
    var reports: seq<Report>

    function Abs(): State
      reads this
    {
      State(own, published, lastFlappingToastAt, ladderWatching, ladderArmed, oracleArmed, nodes, reports)
    }

    constructor (ladderArm: bool, enabled: bool, gate: bool, group: string, wall: int)
      ensures Abs() == Fresh(enabled, gate, group, wall) && eb == ladderArm
    {
      eb := ladderArm;
      own := Snapshot(Offline, wall, false, enabled, gate, group, false);
      published := Snapshot(Offline, wall, false, enabled, gate, group, false);
      lastFlappingToastAt, ladderWatching, ladderArmed, oracleArmed := 0, false, 0, false;
      nodes, reports := NODES_OFF, [];
    }

    method SetState(phase: Phase, e: Env)
      modifies `own, `published
      ensures Abs() == SetPhase(old(Abs()), phase, e)
    {
      own := own.(phase := phase, since := e.wall);
      published := own;
    }

    method StopAll()
      modifies `nodes, `oracleArmed
      ensures Abs() == Wind(old(Abs()))
    {
      nodes := nodes.(relay := false);
      nodes := nodes.(player := false);
      nodes := nodes.(output := false);
      nodes := nodes.(active := NoSource);
      oracleArmed := false;
    }

    method Teardown(e: Env)
      modifies `nodes, `oracleArmed, `own, `published
      ensures Abs() == TeardownClean(old(Abs()), e)
    {
      StopAll();
      SetState(Offline, e);
    }

    method GiveUp(e: Env)
      modifies `nodes, `oracleArmed, `own, `published, `reports
      ensures Abs() == GiveUpOnUnreachable(old(Abs()), e)
    {
      StopAll();
      own := own.(halted := true);
      SetState(Offline, e);
      reports := reports + [GaveUp];
    }

    method StartOutputIfEnabled()
      modifies `nodes
      ensures Abs() == if EffectiveEnabled(old(Abs())) then StartOutput(old(Abs())) else old(Abs())
    {
      if own.enabled && own.gate {
        nodes := nodes.(output := true, failed := false);
      }
    }

    method SourceIsAvailable(e: Env)
      modifies `oracleArmed, `nodes, `own, `published, `lastFlappingToastAt
      ensures Abs() == OnSourceAvailable(old(Abs()), e)
    {
      if own.shut {
        return;
      }
      oracleArmed := false;
      if own.phase == Fallback {
        nodes := nodes.(relay := true);
        StartOutputIfEnabled();
        nodes := nodes.(resuming := true);
        return;
      }
      if own.phase == Offline {
        lastFlappingToastAt := 0;
        own := own.(halted := false);
        StartOutputIfEnabled();
      }
      nodes := nodes.(player := false, active := Relay);
      nodes := nodes.(relay := true);
      SetState(Live, e);
    }

    /** New parameters need a clean connection rather than a seamless switch. */
    method Reconnect()
      modifies `nodes
      ensures Abs() == if EffectiveEnabled(old(Abs())) && !old(nodes).failed then BounceOutput(SetActive(old(Abs()), Relay))
                       else SetActive(old(Abs()), Relay)
    {
      nodes := nodes.(active := Relay);
      if own.enabled && own.gate && !nodes.failed {
        nodes := nodes.(output := true);
      }
    }

    method SwitchedBack(paramsChanged: bool, e: Env)
      modifies `nodes, `own, `published, `reports
      ensures Abs() == OnSwitchedToRelay(old(Abs()), paramsChanged, e)
    {
      if own.phase != Fallback {
        return;
      }
      if paramsChanged {
        Reconnect();
      }
      hide BounceOutput, EffectiveEnabled;
      SetState(Live, e);
      nodes := nodes.(resuming := false, player := false);
      reports := reports + [Recovered];
    }

    method BeginFallbackPlayback(e: Env) returns (ok: bool)
      modifies `oracleArmed, `nodes, `own, `published, `ladderWatching, `ladderArmed, `reports
      ensures (Abs(), ok) == BeginFallback(old(Abs()), eb, e)
    {
      if e.fallbackProblem {
        Teardown(e);
        reports := reports + [FallbackUnusable];
        return false;
      }
      if eb && !e.readySegment {
        reports := reports + [Toast];
        nodes := nodes.(output := false);
        if !ladderWatching {
          ladderWatching, ladderArmed := true, ladderArmed + 1;
        }
        return true;
      }
      nodes := nodes.(player := true);
      return true;
    }

    method GoToBackup(e: Env, stalled: bool)
      modifies `oracleArmed, `nodes, `own, `published, `ladderWatching, `ladderArmed, `reports
      ensures Abs() == EnterFallback(old(Abs()), eb, e, stalled)
    {
      hide BeginFallback;
      nodes := nodes.(active := Backup);
      var ok := BeginFallbackPlayback(e);
      if !ok {
        return;
      }
      if e.aux {
        oracleArmed := true;
      }
      SetState(Fallback, e);
      if stalled {
        reports := reports + [Stalled];
      }
    }

    method SourceIsUnavailable(e: Env)
      modifies this
      ensures Abs() == OnSourceUnavailable(old(Abs()), eb, e)
    {
      hide EnterFallback, TeardownClean, GiveUpOnUnreachable;
      nodes := nodes.(relay := false);
      if own.phase == Offline {
        return;
      }
      if own.phase == Fallback {
        if nodes.resuming {
          nodes := nodes.(resuming := false, active := Backup);
        }
        return;
      }
      if NoSessionToLeanOn(e) {
        Teardown(e);
      } else if own.enabled && own.gate && !e.outputAlive {
        GiveUp(e);
      } else {
        GoToBackup(e, false);
      }
    }

    method RelayIsStalled(e: Env)
      modifies this
      ensures Abs() == OnRelayStalled(old(Abs()), eb, e)
    {
      hide EnterFallback, TeardownClean;
      if own.phase != Live {
        return;
      }
      if NoSessionToLeanOn(e) {
        Teardown(e);
      } else {
        GoToBackup(e, true);
      }
    }

    method LadderTicks(e: Env)
      modifies `ladderWatching, `ladderArmed, `nodes
      ensures Abs() == OnLadderTick(old(Abs()), e)
    {
      if !ladderWatching {
        return;
      }
      if own.shut || own.phase != Fallback {
        ladderWatching := false;
        return;
      }
      if !e.readySegment {
        ladderArmed := ladderArmed + 1;
        return;
      }
      nodes := nodes.(active := Backup);
      if own.enabled && own.gate {
        nodes := nodes.(output := true, failed := false);
      }
      nodes := nodes.(player := true);
      ladderWatching := false;
    }

    method OutputIsFlapping(neverSucceeded: bool, e: Env)
      modifies this
      ensures Abs() == OnOutFlapping(old(Abs()), neverSucceeded, e)
    {
      hide GiveUpOnUnreachable;
      if neverSucceeded {
        if own.phase != Offline {
          nodes := nodes.(failed := true);
          GiveUp(e);
        }
        return;
      }
      if e.now - lastFlappingToastAt >= FLAPPING_TOAST_COOLDOWN {
        lastFlappingToastAt := e.now;
        reports := reports + [Toast];
      }
    }

    method Enable(on: bool)
      modifies `own, `published, `nodes
      ensures Abs() == OnSetEnabled(old(Abs()), on)
    {
      if own.enabled == on {
        return;
      }
      own := own.(enabled := on);
      published := own;
      if !on {
        nodes := nodes.(failed := false);
        nodes := nodes.(output := false);
      } else if own.gate && own.phase != Offline {
        nodes := nodes.(output := true, failed := false);
      }
    }

    method OpenGate(on: bool)
      modifies `own, `published, `nodes
      ensures Abs() == OnSetGate(old(Abs()), on)
    {
      if own.gate == on {
        return;
      }
      own := own.(gate := on);
      published := own;
      if !on {
        nodes := nodes.(output := false);
      } else if own.enabled && own.phase != Offline {
        nodes := nodes.(output := true, failed := false);
      }
    }

    /** One turn of the loop. */
    method Run(c: Command, e: Env)
      modifies this
      ensures Abs() == Execute(old(Abs()), c, eb, e)
    {
      hide OnSourceAvailable, OnSourceUnavailable, OnRelayStalled, OnSwitchedToRelay, OnOutFlapping, OnLadderTick, OnSetEnabled,
        OnSetGate, TeardownClean;
      match c
      case SourceAvailable => SourceIsAvailable(e);
      case SourceUnavailable => SourceIsUnavailable(e);
      case RelayStalled => RelayIsStalled(e);
      case RelayResumed =>
      case SwitchedToRelay(paramsChanged) => SwitchedBack(paramsChanged, e);
      case OutFlapping(neverSucceeded) => OutputIsFlapping(neverSucceeded, e);
      case LadderMinted =>
      case LadderTick => LadderTicks(e);
      case OracleRecheck =>
        if own.phase == Fallback && !e.pendingSwitch && e.gracefulRecent {
          Teardown(e);
        }
      case SetEnabled(on) => Enable(on);
      case SetGate(on) => OpenGate(on);
      case SetGroup(group, on) =>
        own := own.(group := group);
        published := own;
        OpenGate(on);
      case UpdateCredentials =>
        if e.credentialsChanged && own.enabled && own.gate && own.phase != Offline {
          nodes := nodes.(output := true);
        }
      case UpdateTracks =>
      case ApplyPreset =>
      case Halt => Teardown(e);
      case GracefulStop =>
        if own.phase == Fallback {
          Teardown(e);
        }
    }

    /** The last thing the owner thread does. */
    method ShutDown()
      modifies this
      ensures Abs() == DoShutdown(old(Abs()))
    {
      own := own.(shut := true);
      published := own;
      oracleArmed, ladderArmed := false, 0;
      nodes := nodes.(relay := false);
      nodes := nodes.(player := false);
      nodes := nodes.(output := false);
    }
  }
}
