// The backup artifact cache: many callers ask for the same artifact, and it is built once.
module Cache {
  /** The hash of source identity and target; distinct pairs are taken to have distinct keys. */
  type Key = nat

  /** A done channel: made by the caller that builds, closed when it has finished. */
  type Ticket = nat

  type Caller = nat

  datatype Files = Files(artifacts: set<Key>, sidecars: set<Key>)

  /** An artifact counts only with its sidecar. */
  predicate ArtifactValid(f: Files, key: Key)
  {
    key in f.artifacts && key in f.sidecars
  }

  /** What a build leaves on disk: the sidecar once the transcode has succeeded, the artifact only after the sidecar. */
  function FilesAfter(f: Files, key: Key, transcodeOk: bool, sidecarOk: bool, renameOk: bool): Files
  {
    Files(if transcodeOk && sidecarOk && renameOk then f.artifacts + {key} else f.artifacts,
          if transcodeOk && sidecarOk then f.sidecars + {key} else f.sidecars)
  }

  datatype Shared = Shared(inflight: map<Key, Ticket>, closed: set<Ticket>, tickets: nat, slots: nat, files: Files)

  function Fresh(files: Files): Shared
  {
    Shared(map[], {}, 0, 0, files)
  }

  /** Where a caller stands in its call. */
  datatype Phase =
    | Called | Missed | Waiting | Registered | HasSlot | Transcoding | Encoded | Recorded | Finished | Released | Unregistered
    | Returned

  datatype Place = Place(phase: Phase, key: Key, ticket: Ticket, ok: bool)

  /** Registered for its key, as no other caller is. */
  predicate Owner(p: Place)
  {
    p.phase.Registered? || p.phase.HasSlot? || p.phase.Transcoding? || p.phase.Encoded? || p.phase.Recorded? || p.phase.Finished?
    || p.phase.Released?
  }

  predicate HoldsSlot(p: Place)
  {
    p.phase.HasSlot? || p.phase.Transcoding? || p.phase.Encoded? || p.phase.Recorded? || p.phase.Finished?
  }

  // ----- the object's critical sections -----

  class Cache {
    const maxConcurrent: nat
    var inflight: map<Key, Ticket>
    var closed: set<Ticket>
    var tickets: nat
    var slots: nat
    var files: Files

    function Abs(): Shared
      reads this
    {
      Shared(inflight, closed, tickets, slots, files)
    }

    constructor (limit: int, onDisk: Files)
      ensures Abs() == Fresh(onDisk) && maxConcurrent == if limit < 1 then 1 else limit
    {
      maxConcurrent := if limit < 1 then 1 else limit;
      inflight, closed, tickets, slots, files := map[], {}, 0, 0, onDisk;
    }

    /** Under the lock: the artifact is there, or somebody builds it, or this caller is to. */
    method Register(key: Key) returns (place: Place)
      modifies `inflight, `tickets
      ensures (Abs(), place) == RegisterStep(old(Abs()), key)
    {
      if ArtifactValid(files, key) {
        return Place(Returned, key, 0, true);
      }
      if key in inflight {
        return Place(Waiting, key, inflight[key], false);
      }
      place := Place(Registered, key, tickets, false);
      inflight, tickets := inflight[key := tickets], tickets + 1;
    }

    /** Blocks while all slots are taken. */
    method TakeSlot() returns (ok: bool)
      modifies `slots
      ensures ok == (old(slots) < maxConcurrent) && slots == old(slots) + if ok then 1 else 0
    {
      ok := slots < maxConcurrent;
      if ok {
        slots := slots + 1;
      }
    }

    /** The sidecar before the artifact: an artifact without one is never valid. */
    method Publish(key: Key, sidecarOk: bool, renameOk: bool) returns (ok: bool)
      modifies `files
      ensures ok == (sidecarOk && renameOk) && (ok ==> ArtifactValid(files, key))
      ensures files == if !sidecarOk then old(files)
                       else Files(if renameOk then old(files).artifacts + {key} else old(files).artifacts,
                                  old(files).sidecars + {key})
    {
      if !sidecarOk {
        return false;
      }
      files := files.(sidecars := files.sidecars + {key});
      if !renameOk {
        return false;
      }
      files := files.(artifacts := files.artifacts + {key});
      return true;
    }

    method Unregister(key: Key)
      modifies `inflight
      ensures inflight == old(inflight) - {key}
    {
      inflight := inflight - {key};
    }

    /** Nobody else in the cache: what one call does from start to end. */
    method GetOrBuild(key: Key, transcodeOk: bool, sidecarOk: bool, renameOk: bool) returns (ok: bool)
      requires key !in inflight && slots < maxConcurrent
      modifies `inflight, `tickets, `slots, `files, `closed
      ensures ok == (ArtifactValid(old(files), key) || (transcodeOk && sidecarOk && renameOk))
      ensures ok ==> ArtifactValid(files, key)
      ensures inflight == old(inflight) && slots == old(slots)
      ensures if ArtifactValid(old(files), key) then files == old(files) && tickets == old(tickets) && closed == old(closed)
              else
                && files == FilesAfter(old(files), key, transcodeOk, sidecarOk, renameOk)
                && tickets == old(tickets) + 1 && closed == old(closed) + {old(tickets)}
    {
      if ArtifactValid(files, key) {
        return true;
      }
      var place := Register(key);
      var took := TakeSlot();
      if transcodeOk {
        ok := Publish(key, sidecarOk, renameOk);
      } else {
        ok := false;
      }
      slots := slots - 1;
      Unregister(key);
      assert old(inflight)[key := place.ticket] - {key} == old(inflight);
      closed := closed + {place.ticket};
    }
  }

  function RegisterStep(c: Shared, key: Key): (Shared, Place)
  {
    if ArtifactValid(c.files, key) then (c, Place(Returned, key, 0, true))
    else if key in c.inflight then (c, Place(Waiting, key, c.inflight[key], false))
    else (c.(inflight := c.inflight[key := c.tickets], tickets := c.tickets + 1), Place(Registered, key, c.tickets, false))
  }

  // ----- callers in any interleaving -----

  datatype Step =
    | Call(caller: Caller, key: Key)
    | FastCheck(caller: Caller)
    | Register(caller: Caller)
    | Wake(caller: Caller)
    | TakeSlot(caller: Caller)
    | Spawn(caller: Caller, started: bool)
    | Exit(caller: Caller, ok: bool)
    | WriteSidecar(caller: Caller, ok: bool)
    | Rename(caller: Caller, ok: bool)
    | ReleaseSlot(caller: Caller)
    | Unregister(caller: Caller)
    | CloseDone(caller: Caller)

  /** What each caller is at, which caller made each channel, the transcodes begun so far, and the keys of those
      that were published. */
  datatype Sys = Sys(limit: nat, c: Shared, at: map<Caller, Place>, maker: map<Ticket, Caller>, started: seq<Key>, built: set<Key>)

  function Go(y: Sys, t: Caller, phase: Phase, ok: bool): Sys
    requires t in y.at
  {
    y.(at := y.at[t := y.at[t].(phase := phase, ok := ok)])
  }

  /** A step that does not fit where the caller stands does nothing. */
  function SysStep(y: Sys, step: Step): Sys
  {
    var t := step.caller;
    if step.Call? then
      if t in y.at && !y.at[t].phase.Returned? then y else y.(at := y.at[t := Place(Called, step.key, 0, false)])
    else if t !in y.at then y
    else
      var p := y.at[t];
      match step
      case FastCheck(_) =>
        if !p.phase.Called? then y
        else if ArtifactValid(y.c.files, p.key) then Go(y, t, Returned, true) else Go(y, t, Missed, false)
      case Register(_) =>
        if !p.phase.Missed? then y
        else
          var (c', q) := RegisterStep(y.c, p.key);
          y.(c := c', at := y.at[t := q], maker := if q.phase.Registered? then y.maker[q.ticket := t] else y.maker)
      case Wake(_) =>
        if !p.phase.Waiting? || p.ticket !in y.c.closed then y else Go(y, t, Returned, ArtifactValid(y.c.files, p.key))
      case TakeSlot(_) =>
        if !p.phase.Registered? || y.c.slots >= y.limit then y
        else Go(y, t, HasSlot, false).(c := y.c.(slots := y.c.slots + 1))
      case Spawn(_, started) =>
        if !p.phase.HasSlot? then y
        else if started then Go(y, t, Transcoding, false).(started := y.started + [p.key])
        else Go(y, t, Finished, false)
      case Exit(_, ok) => if !p.phase.Transcoding? then y else Go(y, t, if ok then Encoded else Finished, false)
      case WriteSidecar(_, ok) =>
        if !p.phase.Encoded? then y
        else if !ok then Go(y, t, Finished, false)
        else Go(y, t, Recorded, false).(c := y.c.(files := y.c.files.(sidecars := y.c.files.sidecars + {p.key})))
      case Rename(_, ok) =>
        if !p.phase.Recorded? then y
        else if !ok then Go(y, t, Finished, false)
        else
          Go(y, t, Finished, true)
          .(c := y.c.(files := y.c.files.(artifacts := y.c.files.artifacts + {p.key})), built := y.built + {p.key})
      case ReleaseSlot(_) =>
        if !p.phase.Finished? || y.c.slots == 0 then y
        else Go(y, t, Released, p.ok).(c := y.c.(slots := y.c.slots - 1))
      case Unregister(_) =>
        if !p.phase.Released? then y else Go(y, t, Unregistered, p.ok).(c := y.c.(inflight := y.c.inflight - {p.key}))
      case CloseDone(_) =>
        if !p.phase.Unregistered? then y else Go(y, t, Returned, p.ok).(c := y.c.(closed := y.c.closed + {p.ticket}))
  }

  function SysRun(y: Sys, steps: seq<Step>): Sys
    decreases |steps|
  {
    if steps == [] then y else SysRun(SysStep(y, steps[0]), steps[1..])
  }

  function Start(limit: nat, files: Files): Sys
  {
    Sys(limit, Fresh(files), map[], map[], [], {})
  }

  // ----- the invariant -----

  function Holders(at: map<Caller, Place>): set<Caller>
  {
    set t | t in at && HoldsSlot(at[t])
  }

  /** The caller that made a channel and has it as its own. */
  predicate Makes(y: Sys, ticket: Ticket, key: Key)
  {
    && ticket in y.maker && y.maker[ticket] in y.at
    && Owner(y.at[y.maker[ticket]]) && y.at[y.maker[ticket]].key == key && y.at[y.maker[ticket]].ticket == ticket
  }

  /** Still to close the channel. */
  predicate WillClose(y: Sys, ticket: Ticket)
  {
    && ticket in y.maker && y.maker[ticket] in y.at && y.at[y.maker[ticket]].ticket == ticket
    && (Owner(y.at[y.maker[ticket]]) || y.at[y.maker[ticket]].phase.Unregistered?)
  }

  /** Every registered key has its owner, and every owner is registered: so no key has two. */
  ghost predicate OneOwner(y: Sys)
  {
    && (forall key :: key in y.c.inflight ==> Makes(y, y.c.inflight[key], key))
    && (forall t :: t in y.at && Owner(y.at[t]) ==>
          y.at[t].key in y.c.inflight && y.c.inflight[y.at[t].key] == y.at[t].ticket
          && y.at[t].ticket in y.maker && y.maker[y.at[t].ticket] == t)
  }

  /** Whoever waits, waits for a channel that is closed or that a live caller will close. */
  ghost predicate NoLostWaiter(y: Sys)
  {
    forall t :: t in y.at && y.at[t].phase.Waiting? ==> y.at[t].ticket in y.c.closed || WillClose(y, y.at[t].ticket)
  }

  /** Channels are numbered as they are made. */
  ghost predicate TicketsIssued(y: Sys)
  {
    && (forall ticket :: ticket in y.maker ==> ticket < y.c.tickets)
    && (forall t :: t in y.at && y.at[t].phase.Unregistered? ==>
          y.at[t].ticket in y.maker && y.maker[y.at[t].ticket] == t)
  }

  /** A published artifact stays, and nobody is on the way to building it again. */
  ghost predicate BuiltOnce(y: Sys)
  {
    && (forall key :: key in y.built ==> ArtifactValid(y.c.files, key))
    && (forall t :: t in y.at && Owner(y.at[t]) && y.at[t].key in y.built ==> y.at[t].phase.Finished? || y.at[t].phase.Released?)
    && (forall t :: t in y.at && y.at[t].phase.Recorded? ==> y.at[t].key in y.c.files.sidecars)
  }

  ghost predicate SlotsFit(y: Sys)
  {
    |Holders(y.at)| == y.c.slots && y.c.slots <= y.limit
  }

  ghost predicate Inv(y: Sys)
  {
    Channels(y) && BuiltOnce(y) && SlotsFit(y)
  }

  lemma HoldersMove(at: map<Caller, Place>, t: Caller, p: Place)
    ensures Holders(at[t := p]) == if HoldsSlot(p) then Holders(at) + {t} else Holders(at) - {t}
  {
  }

  lemma HolderIs(at: map<Caller, Place>, t: Caller)
    ensures t in Holders(at) <==> t in at && HoldsSlot(at[t])
  {
  }

  function Slot(p: Place): int
  {
    if HoldsSlot(p) then 1 else 0
  }

  /** Taking a slot and giving it back go with the caller's place. */
  lemma MoveFitsSlots(y: Sys, t: Caller, p: Place, y': Sys)
    requires SlotsFit(y) && y'.at == y.at[t := p] && y'.limit == y.limit
    requires y'.c.slots == y.c.slots + Slot(p) - (if t in y.at then Slot(y.at[t]) else 0)
    requires Slot(p) == 1 && (t !in y.at || Slot(y.at[t]) == 0) ==> y.c.slots < y.limit
    ensures SlotsFit(y')
  {
    HoldersMove(y.at, t, p);
    HolderIs(y.at, t);
    hide Holders;
  }

  ghost predicate Channels(y: Sys)
  {
    OneOwner(y) && NoLostWaiter(y) && TicketsIssued(y)
  }

  /** A caller outside its registration moves to another place outside. */
  lemma OutsideMoves(y: Sys, t: Caller, p: Place, y': Sys)
    requires Channels(y) && y'.at == y.at[t := p] && y'.maker == y.maker
    requires y'.c.inflight == y.c.inflight && y'.c.tickets == y.c.tickets && y.c.closed <= y'.c.closed
    requires !Owner(p) && !p.phase.Unregistered? && (t in y.at ==> !Owner(y.at[t]))
    requires t in y.at && y.at[t].phase.Unregistered? ==> y.at[t].ticket in y'.c.closed
    requires p.phase.Waiting? ==> p.key in y.c.inflight && p.ticket == y.c.inflight[p.key]
    ensures Channels(y')
  {
    hide Owner;
    forall key | key in y'.c.inflight ensures Makes(y', y'.c.inflight[key], key) {
      assert Makes(y, y.c.inflight[key], key);
    }
    forall w | w in y'.at && y'.at[w].phase.Waiting? ensures y'.at[w].ticket in y'.c.closed || WillClose(y', y'.at[w].ticket) {
      if w == t {
        assert Makes(y', y'.c.inflight[p.key], p.key);
      } else if y.at[w].ticket !in y.c.closed {
        assert WillClose(y, y.at[w].ticket);
      }
    }
  }

  /** A registered caller goes on, registered. */
  lemma OwnerMoves(y: Sys, t: Caller, p: Place, y': Sys)
    requires Channels(y) && y'.at == y.at[t := p] && y'.maker == y.maker
    requires y'.c.inflight == y.c.inflight && y'.c.tickets == y.c.tickets && y.c.closed == y'.c.closed
    requires t in y.at && Owner(y.at[t]) && Owner(p) && p.key == y.at[t].key && p.ticket == y.at[t].ticket
    requires !p.phase.Waiting? && !p.phase.Unregistered?
    ensures Channels(y')
  {
    hide Owner;
    forall key | key in y'.c.inflight ensures Makes(y', y'.c.inflight[key], key) {
      assert Makes(y, y.c.inflight[key], key);
    }
    forall w | w in y'.at && y'.at[w].phase.Waiting? ensures y'.at[w].ticket in y'.c.closed || WillClose(y', y'.at[w].ticket) {
      assert y.at[w].ticket in y.c.closed || WillClose(y, y.at[w].ticket);
    }
  }

  lemma OwnerRegisters(y: Sys, t: Caller, p: Place, y': Sys)
    requires Channels(y) && t in y.at && y.at[t].phase.Missed? && p.key !in y.c.inflight
    requires p.phase.Registered? && p.ticket == y.c.tickets
    requires y'.at == y.at[t := p] && y'.c.inflight == y.c.inflight[p.key := p.ticket] && y'.maker == y.maker[p.ticket := t]
    requires y'.c.tickets == y.c.tickets + 1 && y'.c.closed == y.c.closed
    ensures Channels(y')
  {
    forall key | key in y'.c.inflight ensures Makes(y', y'.c.inflight[key], key) {
      if key != p.key {
        assert Makes(y, y.c.inflight[key], key);
      }
    }
    forall w | w in y'.at && y'.at[w].phase.Waiting? ensures y'.at[w].ticket in y'.c.closed || WillClose(y', y'.at[w].ticket) {
      assert y.at[w].ticket in y.c.closed || WillClose(y, y.at[w].ticket);
    }
  }

  lemma OwnerLeaves(y: Sys, t: Caller, p: Place, y': Sys)
    requires Channels(y) && t in y.at && y.at[t].phase.Released?
    requires p.phase.Unregistered? && p.key == y.at[t].key && p.ticket == y.at[t].ticket
    requires y'.at == y.at[t := p] && y'.maker == y.maker
    requires y'.c.inflight == y.c.inflight - {p.key} && y'.c.tickets == y.c.tickets && y'.c.closed == y.c.closed
    ensures Channels(y')
  {
    forall key | key in y'.c.inflight ensures Makes(y', y'.c.inflight[key], key) {
      assert Makes(y, y.c.inflight[key], key);
    }
    forall w | w in y'.at && y'.at[w].phase.Waiting? ensures y'.at[w].ticket in y'.c.closed || WillClose(y', y'.at[w].ticket) {
      assert y.at[w].ticket in y.c.closed || WillClose(y, y.at[w].ticket);
    }
  }

  /** No new artifact, and no new owner of a built key. */
  lemma MoveKeepsBuilt(y: Sys, t: Caller, p: Place, y': Sys)
    requires BuiltOnce(y) && y'.at == y.at[t := p] && y'.built == y.built
    requires y.c.files.artifacts <= y'.c.files.artifacts && y.c.files.sidecars <= y'.c.files.sidecars
    requires Owner(p) && p.key in y.built ==> p.phase.Finished? || p.phase.Released?
    requires p.phase.Recorded? ==> p.key in y'.c.files.sidecars
    ensures BuiltOnce(y')
  {
    hide Owner;
  }

  lemma RenameBuilds(y: Sys, t: Caller, y': Sys)
    requires OneOwner(y) && BuiltOnce(y) && t in y.at && y.at[t].phase.Recorded?
    requires y' == SysStep(y, Rename(t, true))
    ensures BuiltOnce(y')
  {
    var key := y.at[t].key;
    assert forall u :: u in y.at && Owner(y.at[u]) && y.at[u].key == key ==> u == t;
  }

  lemma OutsideStep(y: Sys, step: Step)
    requires Inv(y) && (step.Call? || step.FastCheck? || step.Wake? || step.CloseDone?)
    ensures Inv(SysStep(y, step))
  {
    hide Channels, BuiltOnce, SlotsFit, ArtifactValid;
    var t, y' := step.caller, SysStep(y, step);
    if y' != y {
      OutsideMoves(y, t, y'.at[t], y');
      MoveKeepsBuilt(y, t, y'.at[t], y');
      MoveFitsSlots(y, t, y'.at[t], y');
    }
  }

  lemma RegisterStepInv(y: Sys, step: Step)
    requires Inv(y) && step.Register?
    ensures Inv(SysStep(y, step))
  {
    var t, y' := step.caller, SysStep(y, step);
    if t in y.at && y.at[t].phase.Missed? {
      assert y.at[t].key in y.built ==> ArtifactValid(y.c.files, y.at[t].key);
      hide Channels, BuiltOnce, SlotsFit, ArtifactValid;
      if y'.at[t].phase.Registered? {
        OwnerRegisters(y, t, y'.at[t], y');
      } else {
        OutsideMoves(y, t, y'.at[t], y');
      }
      MoveKeepsBuilt(y, t, y'.at[t], y');
      MoveFitsSlots(y, t, y'.at[t], y');
    }
  }

  lemma NotBuiltYet(y: Sys, t: Caller)
    requires BuiltOnce(y) && t in y.at && Owner(y.at[t]) && !y.at[t].phase.Finished? && !y.at[t].phase.Released?
    ensures y.at[t].key !in y.built
  {
  }

  lemma OwnerStep(y: Sys, step: Step)
    requires Inv(y)
    requires step.TakeSlot? || step.Spawn? || step.Exit? || step.WriteSidecar? || (step.Rename? && !step.ok) || step.ReleaseSlot?
    ensures Inv(SysStep(y, step))
  {
    hide Channels, BuiltOnce, SlotsFit;
    var t, y' := step.caller, SysStep(y, step);
    if y' != y {
      if !y.at[t].phase.Finished? {
        NotBuiltYet(y, t);
      }
      OwnerMoves(y, t, y'.at[t], y');
      MoveKeepsBuilt(y, t, y'.at[t], y');
      MoveFitsSlots(y, t, y'.at[t], y');
    }
  }

  lemma RenameStep(y: Sys, step: Step)
    requires Inv(y) && step.Rename? && step.ok
    ensures Inv(SysStep(y, step))
  {
    hide OneOwner, NoLostWaiter, TicketsIssued, BuiltOnce, SlotsFit;
    var t, y' := step.caller, SysStep(y, step);
    if y' != y {
      OwnerMoves(y, t, y'.at[t], y');
      RenameBuilds(y, t, y');
      MoveFitsSlots(y, t, y'.at[t], y');
    }
  }

  lemma UnregisterStep(y: Sys, step: Step)
    requires Inv(y) && step.Unregister?
    ensures Inv(SysStep(y, step))
  {
    hide Channels, BuiltOnce, SlotsFit;
    var t, y' := step.caller, SysStep(y, step);
    if y' != y {
      OwnerLeaves(y, t, y'.at[t], y');
      MoveKeepsBuilt(y, t, y'.at[t], y');
      MoveFitsSlots(y, t, y'.at[t], y');
    }
  }

  lemma StepKeepsInv(y: Sys, step: Step)
    requires Inv(y)
    ensures Inv(SysStep(y, step))
  {
    hide *;
    match step
    case Register(_) => RegisterStepInv(y, step);
    case Rename(_, ok) =>
      if ok {
        RenameStep(y, step);
      } else {
        OwnerStep(y, step);
      }
    case Unregister(_) => UnregisterStep(y, step);
    case Call(_, _) => OutsideStep(y, step);
    case FastCheck(_) => OutsideStep(y, step);
    case Wake(_) => OutsideStep(y, step);
    case CloseDone(_) => OutsideStep(y, step);
    case TakeSlot(_) => OwnerStep(y, step);
    case Spawn(_, _) => OwnerStep(y, step);
    case Exit(_, _) => OwnerStep(y, step);
    case WriteSidecar(_, _) => OwnerStep(y, step);
    case ReleaseSlot(_) => OwnerStep(y, step);
  }

  lemma {:induction false} RunKeepsInv(y: Sys, steps: seq<Step>)
    requires Inv(y)
    ensures Inv(SysRun(y, steps))
    decreases |steps|
  {
    hide Inv, SysStep;
    if steps != [] {
      StepKeepsInv(y, steps[0]);
      RunKeepsInv(SysStep(y, steps[0]), steps[1..]);
    }
  }

  lemma StartInv(limit: nat, files: Files)
    ensures Inv(Start(limit, files))
  {
    assert Holders(map[]) == {};
  }

  // ----- what holds over every run -----

  /** Two callers building, one key: they are the same caller; and every key in flight has its caller. */
  lemma OneBuilderPerKey(limit: nat, files: Files, steps: seq<Step>, t: Caller, u: Caller)
    requires var at := SysRun(Start(limit, files), steps).at;
             t in at && u in at && Owner(at[t]) && Owner(at[u]) && at[t].key == at[u].key
    ensures t == u
  {
    hide SysRun, Owner;
    StartInv(limit, files);
    RunKeepsInv(Start(limit, files), steps);
  }

  lemma InflightHasOwner(limit: nat, files: Files, steps: seq<Step>, key: Key)
    requires key in SysRun(Start(limit, files), steps).c.inflight
    ensures var at := SysRun(Start(limit, files), steps).at; exists t :: t in at && Owner(at[t]) && at[t].key == key
  {
    hide SysRun, Owner;
    StartInv(limit, files);
    RunKeepsInv(Start(limit, files), steps);
    var y := SysRun(Start(limit, files), steps);
    assert Makes(y, y.c.inflight[key], key);
  }

  function Running(at: map<Caller, Place>): set<Caller>
  {
    set t | t in at && at[t].phase.Transcoding?
  }

  /** No more transcodes than slots at any moment. */
  lemma TranscodesWithinLimit(limit: nat, files: Files, steps: seq<Step>)
    ensures |Running(SysRun(Start(limit, files), steps).at)| <= limit
  {
    hide SysRun;
    StartInv(limit, files);
    RunKeepsInv(Start(limit, files), steps);
    var y := SysRun(Start(limit, files), steps);
    LimitStays(Start(limit, files), steps);
    assert Running(y.at) <= Holders(y.at);
    SubsetSize(Running(y.at), Holders(y.at));
  }

  lemma {:induction false} LimitStays(y: Sys, steps: seq<Step>)
    ensures SysRun(y, steps).limit == y.limit
    decreases |steps|
  {
    if steps != [] {
      LimitStays(SysStep(y, steps[0]), steps[1..]);
    }
  }

  lemma {:induction false} SubsetSize(a: set<Caller>, b: set<Caller>)
    requires a <= b
    ensures |a| <= |b|
    decreases |a|
  {
    if a != {} {
      var x :| x in a;
      SubsetSize(a - {x}, b - {x});
    }
  }

  /** A caller that waits is not forgotten: its channel is closed, or a live caller is still to close it. */
  lemma WaiterHasOwner(limit: nat, files: Files, steps: seq<Step>, w: Caller)
    requires var at := SysRun(Start(limit, files), steps).at; w in at && at[w].phase.Waiting?
    ensures var y := SysRun(Start(limit, files), steps);
            y.at[w].ticket in y.c.closed || WillClose(y, y.at[w].ticket)
  {
    hide SysRun, WillClose;
    StartInv(limit, files);
    RunKeepsInv(Start(limit, files), steps);
  }

  lemma BuiltIsValid(y: Sys, key: Key)
    requires BuiltOnce(y) && key in y.built
    ensures ArtifactValid(y.c.files, key)
  {
  }

  lemma StepStartsNone(y: Sys, step: Step, key: Key)
    requires Inv(y) && key in y.built
    ensures var y' := SysStep(y, step); key in y'.built && |y.started| <= |y'.started| && key !in y'.started[|y.started|..]
  {
    hide Channels, BuiltOnce, SlotsFit;
    assert ArtifactValid(y.c.files, key) by { BuiltIsValid(y, key); }
    var t := step.caller;
    if step.Spawn? && t in y.at && y.at[t].phase.HasSlot? {
      NotBuiltYet(y, t);
    }
  }

  /** Once a key's build has succeeded, no transcode for it is ever started again. */
  lemma {:induction false} BuiltNeverRestarted(y: Sys, steps: seq<Step>, key: Key)
    requires Inv(y) && key in y.built
    ensures var y' := SysRun(y, steps);
            && ArtifactValid(y'.c.files, key) && |y.started| <= |y'.started| && key !in y'.started[|y.started|..]
    decreases |steps|
  {
    hide SysStep, Channels, SlotsFit, ArtifactValid;
    if steps != [] {
      StepStartsNone(y, steps[0], key);
      StepKeepsInv(y, steps[0]);
      hide BuiltOnce;
      var y1 := SysStep(y, steps[0]);
      BuiltNeverRestarted(y1, steps[1..], key);
      var y' := SysRun(y, steps);
      forall i | |y.started| <= i < |y'.started| ensures y'.started[i] != key {
        StartedGrows(y, steps[0]);
        RunStartedGrows(y1, steps[1..]);
        if i < |y1.started| {
          assert y'.started[i] == y1.started[i] && y1.started[i] in y1.started[|y.started|..];
        } else {
          assert y'.started[i] in y'.started[|y1.started|..];
        }
      }
    }
  }

  lemma StartedGrows(y: Sys, step: Step)
    ensures y.started <= SysStep(y, step).started
  {
    hide ArtifactValid;
  }

  lemma {:induction false} RunStartedGrows(y: Sys, steps: seq<Step>)
    ensures y.started <= SysRun(y, steps).started
    decreases |steps|
  {
    hide SysStep;
    if steps != [] {
      StartedGrows(y, steps[0]);
      RunStartedGrows(SysStep(y, steps[0]), steps[1..]);
    }
  }

  /** From any run on: once built, built for good. */
  lemma BuildsOnce(limit: nat, files: Files, before: seq<Step>, after: seq<Step>, key: Key)
    requires key in SysRun(Start(limit, files), before).built
    ensures var y := SysRun(Start(limit, files), before);
            var y' := SysRun(y, after);
            && ArtifactValid(y'.c.files, key) && |y.started| <= |y'.started| && key !in y'.started[|y.started|..]
  {
    StartInv(limit, files);
    RunKeepsInv(Start(limit, files), before);
    BuiltNeverRestarted(SysRun(Start(limit, files), before), after, key);
  }
}
