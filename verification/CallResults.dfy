/**
 What calls do with the flags they check, and what their results say. `TransportTheorems` bounds what can go
 wrong; here are the other halves: a set flag stops every call that has yet to load it, every result has its
 cause, a shut-down direction ends in a shut-down wire, and a send on an open connection goes out whole.
 */
module CallResults {
  import opened ByteStrings
  import opened Wrappers
  import opened Transport
  import opened TransportSafety
  import opened TransportTheorems
  import W = WireGrowth

  // ------------------------------------------------------------------ a set flag stops a call

  /** The flags that make an I/O call impossible. */
  predicate Stops(flag: Flag, call: Call) {
    match call
    case Receive(cap) => cap > 0 && (flag == Closed || flag == Paused || flag == ReadShut)
    case Flush => flag == Closed || flag == Paused || flag == WriteShut
    case _ => IsWriter(call) && Payload(call) != [] && (flag == Closed || flag == Paused || flag == WriteShut)
  }

  /** A call in its first round of checks. */
  predicate AtDoor(pc: Point) {
    pc == LoadEof(First) || pc == LoadClosed(First) || pc == LoadPaused(First) || pc == LoadShut(First)
  }

  /** The flag is in front of the call: what it is about to load, it has not passed in this round. */
  predicate InFront(pc: Point, flag: Flag) {
    match pc
    case LoadEof(_) => true
    case LoadClosed(_) => true
    case LoadPaused(_) => flag != Closed
    case LoadShut(_) => flag != Closed && flag != Paused
    case _ => false
  }

  /** The call has yet to load the flag before it reaches the operating system. */
  predicate LoadAhead(pc: Point, flag: Flag) {
    match pc
    case LoadEof(_) => true
    case LoadClosed(_) => true
    case LoadPaused(_) => true
    case LoadShut(pass) => pass == First || flag != Paused
    case AwaitGate => true
    case FetchClosed => flag == Closed
    case _ => false
  }

  predicate TurnedAway(pc: Point) {
    pc.Finished? && (pc.outcome.Refused? || pc.outcome == EndOfStream)
  }

  /** The flag is set at every moment of the continuation. */
  ghost predicate Held(es: seq<Event>, more: seq<Event>, flag: Flag) {
    forall k :: 0 <= k <= |more| ==> flag in Run(es + more[..k]).flags
  }

  lemma DoorTick(s: State, id: OpId, flag: Flag)
    requires id in s.ops && Stops(flag, s.ops[id].call) && flag in s.flags
    requires AtDoor(s.ops[id].pc) && InFront(s.ops[id].pc, flag)
    ensures var t := TickAt(s, id);
      && id in t.ops && t.ops[id].call == s.ops[id].call
      && ((AtDoor(t.ops[id].pc) && InFront(t.ops[id].pc, flag)) || TurnedAway(t.ops[id].pc))
  {
  }

  lemma AheadAct(s: State, id: OpId, action: Action, flag: Flag)
    requires Ready(s, id, action) && id in s.ops && Stops(flag, s.ops[id].call) && flag in s.flags
    requires LoadAhead(s.ops[id].pc, flag)
    ensures var t := Act(s, id, action);
      && id in t.ops && t.ops[id].call == s.ops[id].call
      && (LoadAhead(t.ops[id].pc, flag) || TurnedAway(t.ops[id].pc) || t.ops[id].pc == Finished(Dropped))
  {
  }

  lemma {:induction false} DoorRun(es: seq<Event>, more: seq<Event>, id: OpId, flag: Flag)
    requires Held(es, more, flag)
    requires id in Run(es).ops && Stops(flag, Run(es).ops[id].call)
    requires AtDoor(Run(es).ops[id].pc) && InFront(Run(es).ops[id].pc, flag)
    ensures var t := Run(es + more);
      && id in t.ops && t.ops[id].call == Run(es).ops[id].call
      && ((AtDoor(t.ops[id].pc) && InFront(t.ops[id].pc, flag)) || TurnedAway(t.ops[id].pc))
  {
    hide Step, Inv, AtDoor, InFront, Stops, TurnedAway;
    if more == [] {
      assert es + more == es;
    } else {
      var init, e := more[..|more| - 1], more[|more| - 1];
      HeldBefore(es, more, flag);
      DoorRun(es, init, id, flag);
      assert (es + more)[..|es + more| - 1] == es + init;
      RunInv(es + init);
      DoorStep(Run(es + init), id, e, flag);
    }
  }

  lemma HeldBefore(es: seq<Event>, more: seq<Event>, flag: Flag)
    requires Held(es, more, flag) && more != []
    ensures Held(es, more[..|more| - 1], flag) && flag in Run(es + more[..|more| - 1]).flags
  {
    hide Run;
    var init := more[..|more| - 1];
    forall k | 0 <= k <= |init| ensures flag in Run(es + init[..k]).flags {
      assert init[..k] == more[..k];
    }
    assert init[..|init|] == init;
  }

  lemma DoorStep(s: State, id: OpId, e: Event, flag: Flag)
    requires Inv(s) && flag in s.flags && id in s.ops && Stops(flag, s.ops[id].call)
    requires (AtDoor(s.ops[id].pc) && InFront(s.ops[id].pc, flag)) || TurnedAway(s.ops[id].pc)
    ensures var t := Step(s, e);
      && id in t.ops && t.ops[id].call == s.ops[id].call
      && ((AtDoor(t.ops[id].pc) && InFront(t.ops[id].pc, flag)) || TurnedAway(t.ops[id].pc))
  {
    hide Inv, TickAt, Stops;
    if Enabled(s, e) {
      StepOthers(s, e);
      if e.By? && e.id == id {
        DoorTick(s, id, flag);
      }
    }
  }

  lemma {:induction false} AheadRun(es: seq<Event>, more: seq<Event>, id: OpId, flag: Flag)
    requires Held(es, more, flag)
    requires id in Run(es).ops && Stops(flag, Run(es).ops[id].call) && LoadAhead(Run(es).ops[id].pc, flag)
    ensures var t := Run(es + more);
      && id in t.ops && t.ops[id].call == Run(es).ops[id].call
      && (LoadAhead(t.ops[id].pc, flag) || TurnedAway(t.ops[id].pc) || t.ops[id].pc == Finished(Dropped))
  {
    hide Step, Inv, LoadAhead, Stops, TurnedAway;
    if more == [] {
      assert es + more == es;
    } else {
      var init, e := more[..|more| - 1], more[|more| - 1];
      HeldBefore(es, more, flag);
      AheadRun(es, init, id, flag);
      assert (es + more)[..|es + more| - 1] == es + init;
      RunInv(es + init);
      AheadStep(Run(es + init), id, e, flag);
    }
  }

  lemma AheadStep(s: State, id: OpId, e: Event, flag: Flag)
    requires Inv(s) && flag in s.flags && id in s.ops && Stops(flag, s.ops[id].call)
    requires LoadAhead(s.ops[id].pc, flag) || TurnedAway(s.ops[id].pc) || s.ops[id].pc == Finished(Dropped)
    ensures var t := Step(s, e);
      && id in t.ops && t.ops[id].call == s.ops[id].call
      && (LoadAhead(t.ops[id].pc, flag) || TurnedAway(t.ops[id].pc) || t.ops[id].pc == Finished(Dropped))
  {
    hide Inv, Act, Stops;
    if Enabled(s, e) {
      StepOthers(s, e);
      if e.By? && e.id == id {
        AheadAct(s, id, e.action, flag);
      }
    }
  }

  /**
   The checks at the door. As long as the connection is closed, paused, or shut in its direction, a non-empty
   receive, write or send and every flush that begins gets neither to a gate nor to the operating system: it
   is still loading flags, or it has returned a refusal or the end of the stream.
   */
  lemma FlagStopsCall(es: seq<Event>, call: Call, id: OpId, more: seq<Event>, flag: Flag)
    requires id !in Run(es).ops && Stops(flag, call) && Held(es + [By(id, Begin(call))], more, flag)
    ensures var t := Run(es + [By(id, Begin(call))] + more);
      && id in t.ops && t.ops[id].call == call && t.ops[id].written == 0
      && (AtDoor(t.ops[id].pc) || TurnedAway(t.ops[id].pc))
  {
    hide Step;
    var begin := By(id, Begin(call));
    assert (es + [begin])[..|es|] == es;
    BeginsAtDoor(Run(es), id, call, flag);
    DoorRun(es + [begin], more, id, flag);
    RunInv(es + [begin] + more);
    DoorWritesNothing(Run(es + [begin] + more), id);
  }

  lemma BeginsAtDoor(s: State, id: OpId, call: Call, flag: Flag)
    requires id !in s.ops && Stops(flag, call)
    ensures var t := Step(s, By(id, Begin(call)));
      && id in t.ops && t.ops[id].call == call && AtDoor(t.ops[id].pc) && InFront(t.ops[id].pc, flag)
  {
  }

  lemma DoorWritesNothing(s: State, id: OpId)
    requires Inv(s) && id in s.ops && (AtDoor(s.ops[id].pc) || TurnedAway(s.ops[id].pc))
    ensures s.ops[id].written == 0
  {
    assert OpInv(s, id);
  }

  /** The one-way flags hold themselves. */
  lemma OneWayHeld(es: seq<Event>, more: seq<Event>, flag: Flag)
    requires flag != Paused && flag in Run(es).flags
    ensures Held(es, more, flag)
  {
    hide Run;
    forall k | 0 <= k <= |more| ensures flag in Run(es + more[..k]).flags {
      MonotoneOverRuns(es, more[..k]);
    }
  }

  /**
   After `shutdown_read`, `shutdown_write` or a close, for good: a receive that begins when the receive
   direction is shut, and a write, send or flush that begins when the send direction is shut, is turned away
   at the door, whatever else happens.
   */
  lemma ShutDirectionStopsCalls(es: seq<Event>, call: Call, id: OpId, more: seq<Event>, flag: Flag)
    requires flag != Paused && flag in Run(es).flags && id !in Run(es).ops && Stops(flag, call)
    ensures var t := Run(es + [By(id, Begin(call))] + more);
      && id in t.ops && t.ops[id].call == call && t.ops[id].written == 0
      && (AtDoor(t.ops[id].pc) || TurnedAway(t.ops[id].pc))
  {
    hide Run;
    MonotoneOverRuns(es, [By(id, Begin(call))]);
    OneWayHeld(es + [By(id, Begin(call))], more, flag);
    FlagStopsCall(es, call, id, more, flag);
  }

  /**
   The checks under the gate. A call that waits for its gate, or has just got it, looks at the flags again:
   if one is set from now on that it has yet to load, it never reaches the operating system.
   */
  lemma FlagStopsWaitingCall(es: seq<Event>, more: seq<Event>, id: OpId, flag: Flag)
    requires id in Run(es).ops && Stops(flag, Run(es).ops[id].call) && LoadAhead(Run(es).ops[id].pc, flag)
    requires if flag == Paused then Held(es, more, flag) else flag in Run(es).flags
    ensures var t := Run(es + more);
      && id in t.ops && t.ops[id].pc != AwaitIo && t.ops[id].pc != FetchSlot
      && (t.ops[id].pc.Finished? ==> TurnedAway(t.ops[id].pc) || t.ops[id].pc.outcome == Dropped)
  {
    if flag != Paused {
      OneWayHeld(es, more, flag);
    }
    AheadRun(es, more, id, flag);
  }

  // ------------------------------------------------------------------ every result has its cause

  predicate Does(e: Event, id: OpId, action: Action) {
    e == By(id, action)
  }

  /** Why a refusal was returned: a flag that was set, a token, or a deadline. */
  predicate RefusalCause(s: State, e: Event, id: OpId, why: Refusal)
    requires id in s.ops
  {
    var call := s.ops[id].call;
    match why
    case IsClosed => Closed in s.flags
    case IsPaused => Paused in s.flags
    case DirectionShut => if call.Receive? then ReadShut in s.flags else WriteShut in s.flags
    case Interrupted =>
      || (Does(e, id, SeeClose) && CloseToken in s.flags)
      || (Does(e, id, SeeReadShut) && ReadToken in s.flags && call.Receive?)
    case TimedOutWaiting => Does(e, id, GateTimeout) && call.SendTimeout?
  }

  /** Why a call that returns no data and no count was successful. */
  predicate SuccessCause(s: State, t: State, e: Event, id: OpId)
    requires id in s.ops && id in t.ops
  {
    var call := s.ops[id].call;
    match call
    case Send(data) => e.By? && e.action.IoWrite? && t.ops[id].written == |data|
    case SendTimeout(data) => e.By? && e.action.IoWrite? && t.ops[id].written == |data|
    case Flush => Does(e, id, IoDone)
    case ShutdownRead => Closed in s.flags || ReadShut in s.flags
    case ShutdownWrite =>
      Closed in s.flags || (WriteShut in s.flags && (Does(e, id, IoDone) ==> WireShut in t.flags))
    case Close => Closed in t.flags && (Does(e, id, IoDone) ==> WireShut in t.flags)
    case Pause => Closed in s.flags || Paused in t.flags
    case Resume => Closed in s.flags || Paused !in t.flags
    case _ => false
  }

  /** Why call `id` returns in the step from `s` to `t`. */
  predicate ResultCause(s: State, t: State, e: Event, id: OpId)
    requires id in s.ops && id in t.ops && t.ops[id].pc.Finished?
  {
    match t.ops[id].pc.outcome
    case Success => SuccessCause(s, t, e, id)
    case Wrote(count) => Does(e, id, IoWrite(count)) && count > 0
    case Chunk(data) => data != [] && Does(e, id, IoRead(|data|)) && t.delivered == s.delivered + data
    case EndOfStream => PeerEof in s.flags || s.ops[id].pc == StoreEof
    case Refused(why) => RefusalCause(s, e, id, why)
    case Broken(_) => Closed in s.flags && (s.ops[id].pc.Closing? || (Does(e, id, SeeClose) && CloseToken in s.flags))
    case IoError => if s.ops[id].call.Close? then Does(e, id, IoFail) else Closed in s.flags && s.ops[id].pc.Closing?
    case Dropped => Does(e, id, Drop)
  }

  lemma LoadCauses(s: State, id: OpId)
    requires CloseFlags(s) && Ready(s, id, Tick) && OpInv(s, id) && !s.ops[id].pc.Closing?
    requires id in LoadTick(s, id).ops && LoadTick(s, id).ops[id].pc.Finished? && TickAt(s, id) == LoadTick(s, id)
    ensures ResultCause(s, LoadTick(s, id), By(id, Tick), id)
  {
    match s.ops[id].pc
    case LoadEof(_) =>
    case LoadClosed(_) =>
    case LoadPaused(_) =>
    case LoadShut(_) =>
    case _ =>
  }

  lemma OtherCauses(s: State, id: OpId)
    requires CloseFlags(s) && Ready(s, id, Tick) && OpInv(s, id) && !s.ops[id].pc.Closing?
    requires TickAt(s, id) == StoreTick(s, id) || TickAt(s, id) == SlotTick(s, id)
    requires TickAt(s, id) != LoadTick(s, id)
    requires id in TickAt(s, id).ops && TickAt(s, id).ops[id].pc.Finished?
    ensures ResultCause(s, TickAt(s, id), By(id, Tick), id)
  {
  }

  lemma ClosingCauses(s: State, id: OpId)
    requires CloseFlags(s) && id in s.ops && OpInv(s, id) && s.ops[id].pc.Closing?
    requires id in TickAt(s, id).ops && TickAt(s, id).ops[id].pc.Finished?
    ensures ResultCause(s, TickAt(s, id), By(id, Tick), id)
  {
    match s.ops[id].pc.step
    case SetWriteShut(_) =>
    case TakeSlot =>
    case _ =>
  }

  lemma IoCauses(s: State, id: OpId, action: Action)
    requires CloseFlags(s) && (action.IoWrite? || action.IoRead?) && Ready(s, id, action) && OpInv(s, id)
    requires id in Act(s, id, action).ops && Act(s, id, action).ops[id].pc.Finished?
    ensures ResultCause(s, Act(s, id, action), By(id, action), id)
  {
  }

  lemma SelectCauses(s: State, id: OpId, action: Action)
    requires CloseFlags(s) && Ready(s, id, action) && !action.Begin? && !action.Tick? && OpInv(s, id)
    requires !action.IoWrite? && !action.IoRead?
    requires id in Act(s, id, action).ops && Act(s, id, action).ops[id].pc.Finished?
    ensures ResultCause(s, Act(s, id, action), By(id, action), id)
  {
    match action
    case SeeClose =>
    case IoDone =>
    case IoFail =>
    case _ =>
  }

  lemma ActCauses(s: State, id: OpId, action: Action)
    requires CloseFlags(s) && Ready(s, id, action) && !action.Begin? && OpInv(s, id)
    requires id in Act(s, id, action).ops && Act(s, id, action).ops[id].pc.Finished?
    ensures ResultCause(s, Act(s, id, action), By(id, action), id)
  {
    hide CloseFlags, ResultCause, LoadTick, StoreTick, SlotTick;
    if action.IoWrite? || action.IoRead? {
      IoCauses(s, id, action);
    } else if !action.Tick? {
      SelectCauses(s, id, action);
    } else if s.ops[id].pc.Closing? {
      ClosingCauses(s, id);
    } else if TickAt(s, id) == LoadTick(s, id) {
      LoadCauses(s, id);
    } else {
      OtherCauses(s, id);
    }
  }

  /**
   No result without its cause. Whenever a call returns, the state at that very moment shows why: the flag or
   token that a refusal names, the operating system's answer behind an error or a count, and for a success
   that what was asked for is done.
   */
  lemma ResultHasCause(es: seq<Event>, e: Event, id: OpId)
    requires id in Run(es).ops && !Run(es).ops[id].pc.Finished?
    requires id in Run(es + [e]).ops && Run(es + [e]).ops[id].pc.Finished?
    ensures ResultCause(Run(es), Run(es + [e]), e, id)
  {
    hide Inv, Act, ResultCause;
    RunInv(es);
    assert (es + [e])[..|es|] == es;
    InvOf(Run(es), id);
    StepOthers(Run(es), e);
    ActCauses(Run(es), id, e.action);
  }

  lemma InvOf(s: State, id: OpId)
    requires Inv(s) && id in s.ops
    ensures OpInv(s, id) && CloseFlags(s)
  {
  }

  /** A call other than a close fails the connection only upon an error, a deadline, or a write of nothing. */
  lemma FailureHasCause(es: seq<Event>, e: Event, id: OpId)
    requires id in Run(es).ops && !Run(es).ops[id].pc.Closing?
    requires id in Run(es + [e]).ops && Run(es + [e]).ops[id].pc.Closing?
    ensures var s := Run(es);
      && (Does(e, id, IoFail) || Does(e, id, IoWrite(0)) || (Does(e, id, IoTimeout) && s.ops[id].call.SendTimeout?))
      && s.ops[id].pc == AwaitIo && !s.ops[id].call.Close?
  {
    hide Inv, Act;
    RunInv(es);
    assert (es + [e])[..|es|] == es;
    InvOf(Run(es), id);
    StepOthers(Run(es), e);
    ActFails(Run(es), id, e.action);
  }

  lemma ActFails(s: State, id: OpId, action: Action)
    requires Ready(s, id, action) && !action.Begin? && OpInv(s, id) && !s.ops[id].pc.Closing?
    requires id in Act(s, id, action).ops && Act(s, id, action).ops[id].pc.Closing?
    ensures action == IoFail || action == IoWrite(0) || (action == IoTimeout && s.ops[id].call.SendTimeout?)
    ensures s.ops[id].pc == AwaitIo && !s.ops[id].call.Close?
  {
  }

  // ------------------------------------------------------------------ a shut direction ends in a shut wire

  /** A `shutdown_write` is between its store and its return; it holds the write gate. */
  predicate ShutUnderWay(s: State) {
    && s.writeGate.Some? && s.writeGate.value in s.ops && s.ops[s.writeGate.value].call.ShutdownWrite?
    && (match s.ops[s.writeGate.value].pc
        case FetchClosed => true
        case FetchSlot => true
        case AwaitIo => true
        case Closing(step, _) => step == Swap
        case _ => false)
  }

  /** The send direction is marked on an open connection, but the wire is neither shut nor about to be. */
  predicate LeftOpen(s: State) {
    Closed !in s.flags && WriteShut in s.flags && WireShut !in s.flags && !ShutUnderWay(s)
  }

  predicate NoShutdownDropped(s: State) {
    forall id :: id in s.ops && s.ops[id].call.ShutdownWrite? ==> s.ops[id].pc != Finished(Dropped)
  }

  lemma MarkingAct(s: State, id: OpId, action: Action)
    requires Ready(s, id, action) && (id in s.ops ==> OpInv(s, id)) && WriteShut !in s.flags
    ensures var t := Act(s, id, action); !LeftOpen(t)
  {
    match action
    case Tick => MarkingTick(s, id);
    case _ =>
  }

  lemma MarkingTick(s: State, id: OpId)
    requires Ready(s, id, Tick) && OpInv(s, id) && WriteShut !in s.flags
    ensures !LeftOpen(TickAt(s, id))
  {
    if s.ops[id].pc.Closing? {
      match s.ops[id].pc.step
      case SetWriteShut(_) =>
      case TakeSlot =>
      case _ =>
    } else {
      assert TickAt(s, id) == LoadTick(s, id) || TickAt(s, id) == StoreTick(s, id) || TickAt(s, id) == SlotTick(s, id);
    }
  }

  lemma HolderShuts(s: State, id: OpId, action: Action)
    requires Ready(s, id, action) && id in s.ops && OpInv(s, id) && CloseFlags(s) && Closed !in s.flags
    requires ShutUnderWay(s) && s.writeGate == Some(id) && action != Drop
    ensures !LeftOpen(Act(s, id, action))
  {
    match action
    case Tick => HolderTick(s, id);
    case _ =>
  }

  lemma HolderTick(s: State, id: OpId)
    requires Ready(s, id, Tick) && id in s.ops && OpInv(s, id) && CloseFlags(s) && Closed !in s.flags
    requires ShutUnderWay(s) && s.writeGate == Some(id)
    ensures !LeftOpen(TickAt(s, id))
  {
    assert s.ops[id].pc == FetchClosed || s.ops[id].pc == FetchSlot || s.ops[id].pc.Closing?;
  }

  /** A `shutdown_write` is dropped while it awaits the operating system. */
  predicate DropsShutdown(s: State, e: Event) {
    e.By? && e.action.Drop? && At(s, e.id, AwaitIo) && s.ops[e.id].call.ShutdownWrite?
  }

  lemma ShutStep(s: State, e: Event)
    requires Inv(s) && !LeftOpen(s) && !DropsShutdown(s, e)
    ensures !LeftOpen(Step(s, e))
  {
    hide Act, Inv, ShutUnderWay;
    if Enabled(s, e) {
      StepOthers(s, e);
      if e.By? && e.id in s.ops {
        InvOf(s, e.id);
      }
      if e.By? && WriteShut !in s.flags {
        MarkingAct(s, e.id, e.action);
      } else if Closed !in s.flags && ShutUnderWay(s) {
        ShutStays(s, e);
      }
    }
  }

  lemma ShutStays(s: State, e: Event)
    requires Inv(s) && Enabled(s, e) && ShutUnderWay(s) && Closed !in s.flags && !DropsShutdown(s, e)
    ensures !LeftOpen(Step(s, e))
  {
    hide Act, Inv;
    var g := s.writeGate.value;
    StepOthers(s, e);
    InvOf(s, g);
    if Actor(e) == Some(g) {
        HolderShuts(s, g, e.action);
    }
  }

  lemma DropMarks(s: State, e: Event)
    requires DropsShutdown(s, e)
    ensures !NoShutdownDropped(Step(s, e))
  {
    var t := Step(s, e);
    assert t.ops[e.id].call.ShutdownWrite? && t.ops[e.id].pc == Finished(Dropped);
  }

  /** A dropped call stays dropped. */
  lemma DroppedStays(s: State, e: Event)
    requires Inv(s) && NoShutdownDropped(Step(s, e))
    ensures NoShutdownDropped(s)
  {
    hide Inv, Act;
    if Enabled(s, e) {
      StepOthers(s, e);
    }
  }

  /**
   The wire follows the mark. As long as no `shutdown_write` has been dropped, a send direction that is marked
   shut on an open connection has a wire that is shut, or a `shutdown_write` is at this moment on its way from
   the mark to the operating system, and holds the gate.
   */
  lemma {:induction false} ShutdownShutsWire(es: seq<Event>)
    requires NoShutdownDropped(Run(es))
    ensures var s := Run(es);
      Closed !in s.flags && WriteShut in s.flags ==> WireShut in s.flags || ShutUnderWay(s)
  {
    hide Step, Inv, ShutUnderWay, NoShutdownDropped;
    if es != [] {
      var init, e := es[..|es| - 1], es[|es| - 1];
      RunInv(init);
      DroppedStays(Run(init), e);
      ShutdownShutsWire(init);
      if DropsShutdown(Run(init), e) {
        DropMarks(Run(init), e);
      }
      ShutStep(Run(init), e);
    }
  }

  /**
   What a dropped `shutdown_write` does, exactly. One step brings an open connection into the state in which
   the direction is marked, the wire is open, and nobody is about to shut it, if and only if it drops a
   `shutdown_write` at its I/O whose wire is not shut yet.
   */
  lemma LeftOpenExactly(es: seq<Event>, e: Event)
    requires !LeftOpen(Run(es))
    ensures var s := Run(es);
      LeftOpen(Run(es + [e])) <==> DropsShutdown(s, e) && Closed !in s.flags && WireShut !in s.flags
  {
    hide Inv;
    var s := Run(es);
    RunInv(es);
    assert (es + [e])[..|es|] == es;
    if DropsShutdown(s, e) {
      InvOf(s, e.id);
      DropLeaves(s, e.id);
    } else {
      ShutStep(s, e);
    }
  }

  lemma DropLeaves(s: State, id: OpId)
    requires At(s, id, AwaitIo) && s.ops[id].call.ShutdownWrite? && OpInv(s, id)
    ensures LeftOpen(Step(s, By(id, Drop))) <==> Closed !in s.flags && WireShut !in s.flags
  {
  }

  // ------------------------------------------------------------------ shutting down, from start to end

  /** `shutdown_write` has come to `pc` on an open connection; nothing else has changed. */
  predicate ShutAt(s: State, t: State, id: OpId, pc: Point) {
    && W.OpenFlags(s.flags) && t.flags == s.flags && t.wire == s.wire
    && id in t.ops && t.ops[id].call == ShutdownWrite && t.ops[id].pc == pc && t.ops[id].written == 0
    && t.writeGate == (if pc == LoadClosed(First) || pc == LoadShut(First) || pc == AwaitGate then None else Some(id))
  }

  lemma ShutChecks(s: State, t: State, id: OpId, pass: Pass)
    requires ShutAt(s, t, id, LoadClosed(pass))
    ensures ShutAt(s, Step(Step(t, By(id, Tick)), By(id, Tick)), id, if pass == First then AwaitGate else StoreWriteShut)
  {
    assert ShutAt(s, Step(t, By(id, Tick)), id, LoadShut(pass));
  }

  /** The mark, the two looks of `stream()`, and the operating system's answer. */
  lemma ShutStores(s: State, t: State, id: OpId)
    requires ShutAt(s, t, id, StoreWriteShut)
    ensures var u := Step(Step(Step(t, By(id, Tick)), By(id, Tick)), By(id, Tick));
      && u.flags == s.flags + {WriteShut} && u.wire == s.wire && u.writeGate == Some(id)
      && id in u.ops && u.ops[id].call == ShutdownWrite && u.ops[id].pc == AwaitIo
  {
    var a := Step(t, By(id, Tick));
    assert a.flags == s.flags + {WriteShut} && a.ops[id].pc == FetchClosed;
    assert Step(a, By(id, Tick)) == Move(a, id, FetchSlot);
  }

  function ShutToIo(id: OpId): seq<Event> {
    var tick := By(id, Tick);
    [By(id, Begin(ShutdownWrite))] + [tick] + [tick] + [By(id, TakeGate)] + [tick] + [tick] + [tick] + [tick] + [tick]
  }

  lemma ShutReachesIo(s: State, id: OpId)
    requires W.OpenFlags(s.flags) && s.writeGate.None? && id !in s.ops
    ensures var u := RunFrom(s, ShutToIo(id));
      && u.flags == s.flags + {WriteShut} && u.wire == s.wire && u.writeGate == Some(id)
      && id in u.ops && u.ops[id].call == ShutdownWrite && u.ops[id].pc == AwaitIo
  {
    hide Step, RunFrom;
    var begin, tick := By(id, Begin(ShutdownWrite)), By(id, Tick);
    var a := Step(s, begin);
    ShutBegins(s, id);
    ShutChecks(s, a, id, First);
    var b := Step(Step(a, tick), tick);
    ShutGate(s, b, id);
    var c := Step(b, By(id, TakeGate));
    ShutChecks(s, c, id, Again);
    var d := Step(Step(c, tick), tick);
    ShutStores(s, d, id);
    W.RunFromOne(s, begin);
    W.RunFromSnoc(s, [begin], tick);
    W.RunFromSnoc(s, [begin] + [tick], tick);
    W.RunFromSnoc(s, [begin] + [tick] + [tick], By(id, TakeGate));
    var g := [begin] + [tick] + [tick] + [By(id, TakeGate)];
    W.RunFromSnoc(s, g, tick);
    W.RunFromSnoc(s, g + [tick], tick);
    W.RunFromSnoc(s, g + [tick] + [tick], tick);
    W.RunFromSnoc(s, g + [tick] + [tick] + [tick], tick);
    W.RunFromSnoc(s, g + [tick] + [tick] + [tick] + [tick], tick);
  }

  lemma ShutBegins(s: State, id: OpId)
    requires W.OpenFlags(s.flags) && s.writeGate.None? && id !in s.ops
    ensures ShutAt(s, Step(s, By(id, Begin(ShutdownWrite))), id, LoadClosed(First))
  {
  }

  lemma ShutGate(s: State, t: State, id: OpId)
    requires ShutAt(s, t, id, AwaitGate)
    ensures ShutAt(s, Step(t, By(id, TakeGate)), id, LoadClosed(Again))
  {
  }

  /** Undisturbed, `shutdown_write` on an open connection shuts the wire and reports success. */
  lemma ShutdownGoesThrough(s: State, id: OpId)
    requires W.OpenFlags(s.flags) && s.writeGate.None? && id !in s.ops
    ensures var t := RunFrom(s, ShutToIo(id) + [By(id, IoDone)]);
      && id in t.ops && t.ops[id].pc == Finished(Success) && t.wire == s.wire
      && t.flags == s.flags + {WriteShut} + {WireShut} && t.writeGate.None?
  {
    hide RunFrom, ShutToIo;
    ShutReachesIo(s, id);
    W.RunFromSnoc(s, ShutToIo(id), By(id, IoDone));
    ShutDone(RunFrom(s, ShutToIo(id)), id);
  }

  lemma ShutDone(s: State, id: OpId)
    requires At(s, id, AwaitIo) && s.ops[id].call == ShutdownWrite && s.writeGate == Some(id)
    ensures var t := Step(s, By(id, IoDone));
      At(t, id, Finished(Success)) && t.flags == s.flags + {WireShut} && t.wire == s.wire && t.writeGate.None?
    ensures var t := Step(s, By(id, Drop));
      At(t, id, Finished(Dropped)) && t.flags == s.flags && t.wire == s.wire && t.ops.Keys == s.ops.Keys
  {
  }

  /** On a marked direction a later `shutdown_write` returns success after two loads, and does nothing. */
  lemma LaterShutDoesNothing(s: State, id: OpId)
    requires Closed !in s.flags && WriteShut in s.flags && id !in s.ops
    ensures var t := RunFrom(s, [By(id, Begin(ShutdownWrite))] + [By(id, Tick)] + [By(id, Tick)]);
      At(t, id, Finished(Success)) && t.ops[id].call == ShutdownWrite && t.flags == s.flags && t.wire == s.wire
  {
    hide RunFrom;
    var begin, tick := By(id, Begin(ShutdownWrite)), By(id, Tick);
    W.RunFromOne(s, begin);
    W.RunFromSnoc(s, [begin], tick);
    W.RunFromSnoc(s, [begin] + [tick], tick);
    LaterLoads(Step(s, begin), id);
  }

  lemma LaterLoads(s: State, id: OpId)
    requires Closed !in s.flags && WriteShut in s.flags && At(s, id, LoadClosed(First)) && s.ops[id].call == ShutdownWrite
    ensures var t := Step(Step(s, By(id, Tick)), By(id, Tick));
      At(t, id, Finished(Success)) && t.ops[id].call == ShutdownWrite && t.flags == s.flags && t.wire == s.wire
  {
    assert Step(s, By(id, Tick)) == Move(s, id, LoadShut(First));
  }

  /**
   A `shutdown_write` is dropped while the operating system shuts the wire down. The connection stays open and
   the wire unshut, and the next `shutdown_write` reports success without doing anything.
   */
  lemma DroppedShutdownLeavesWireOpen() returns (es: seq<Event>, id: OpId)
    ensures var t := Run(es);
      && At(t, id, Finished(Success)) && t.ops[id].call == ShutdownWrite
      && Closed !in t.flags && WriteShut in t.flags && WireShut !in t.flags
  {
    hide RunFrom, ShutToIo;
    ShutReachesIo(Init, 0);
    W.RunFromSnoc(Init, ShutToIo(0), By(0, Drop));
    ShutDone(RunFrom(Init, ShutToIo(0)), 0);
    var dropped := RunFrom(Init, ShutToIo(0) + [By(0, Drop)]);
    id := W.FreshId(dropped.ops);
    LaterShutDoesNothing(dropped, id);
    var later := [By(id, Begin(ShutdownWrite))] + [By(id, Tick)] + [By(id, Tick)];
    W.RunFromAppend(Init, ShutToIo(0) + [By(0, Drop)], later);
    es := ShutToIo(0) + [By(0, Drop)] + later;
    assert Run(es) == RunFrom(Init, es);
  }

  // ------------------------------------------------------------------ what a close undoes and lets go

  lemma ClearingStep(s: State, id: OpId)
    requires id in s.ops && s.ops[id].pc.Closing? && s.ops[id].pc.step.ClearPause?
    ensures var t := Step(s, By(id, Tick)); Paused !in t.flags && t.flags == s.flags - {Paused}
    ensures var t := Step(s, By(id, Tick));
      && t.ops.Keys == s.ops.Keys && !t.ops[id].pc.StorePause?
      && forall other :: other in s.ops && other != id ==> t.ops[other] == s.ops[other]
  {
  }

  /** A close unpauses, whoever wins it: unless a `pause` has passed its check and has yet to store, the
      connection is not paused once a closing call has cleared the flag, and never again. */
  lemma CloseUnpauses(es: seq<Event>, id: OpId, more: seq<Event>)
    requires id in Run(es).ops && Run(es).ops[id].pc.Closing? && Run(es).ops[id].pc.step.ClearPause?
    requires !PauseInFlight(Run(es))
    ensures Paused !in Run(es + [By(id, Tick)] + more).flags
  {
    hide Step, Inv;
    var s := Run(es);
    RunInv(es);
    assert (es + [By(id, Tick)])[..|es|] == es;
    ClearingStep(s, id);
    assert Closed in s.flags by { ClosingIsClosed(s, id); }
    StaysUnpaused(es + [By(id, Tick)], more);
  }

  lemma ClosingIsClosed(s: State, id: OpId)
    requires Inv(s) && id in s.ops && s.ops[id].pc.Closing? && s.ops[id].pc.step.ClearPause?
    ensures Closed in s.flags
  {
    assert OpInv(s, id);
  }

  /** A call that has returned holds no reference to the stream. */
  predicate LetGo(op: Op) {
    op.pc.Finished? ==> HoldsStream !in op.marks
  }

  lemma ActLetsGo(s: State, id: OpId, action: Action)
    requires Ready(s, id, action)
    ensures id in Act(s, id, action).ops && LetGo(Act(s, id, action).ops[id])
  {
    match action
    case Tick => TickLetsGo(s, id);
    case _ =>
  }

  lemma TickLetsGo(s: State, id: OpId)
    requires Ready(s, id, Tick)
    ensures id in TickAt(s, id).ops && LetGo(TickAt(s, id).ops[id])
  {
    if s.ops[id].pc.Closing? {
      match s.ops[id].pc.step
      case SetWriteShut(_) =>
      case TakeSlot =>
      case _ =>
    } else {
      assert TickAt(s, id) == LoadTick(s, id) || TickAt(s, id) == StoreTick(s, id) || TickAt(s, id) == SlotTick(s, id);
    }
  }

  lemma {:induction false} ReturnedLetGo(es: seq<Event>, id: OpId)
    requires id in Run(es).ops
    ensures LetGo(Run(es).ops[id])
  {
    hide Act, Inv, LetGo;
    if es != [] {
      var init, e := es[..|es| - 1], es[|es| - 1];
      RunInv(init);
      if Enabled(Run(init), e) {
        StepOthers(Run(init), e);
        if e.By? && e.id == id {
          ActLetsGo(Run(init), id, e.action);
        } else {
          ReturnedLetGo(init, id);
        }
      } else {
        ReturnedLetGo(init, id);
      }
    }
  }

  /** After a close, the stream goes away when the last call has returned, and the wire is shut by that. */
  lemma ClosedStreamVanishes(es: seq<Event>)
    requires SlotEmpty in Run(es).flags && forall id :: id in Run(es).ops ==> Run(es).ops[id].pc.Finished?
    ensures WireShut in Run(es + [Vanish]).flags
  {
    hide Inv, Act;
    forall id | id in Run(es).ops ensures HoldsStream !in Run(es).ops[id].marks {
      ReturnedLetGo(es, id);
    }
    assert (es + [Vanish])[..|es|] == es;
  }

  lemma DropStep(s: State, id: OpId)
    requires Inv(s) && (At(s, id, AwaitGate) || At(s, id, AwaitIo))
    ensures var t := Step(s, By(id, Drop));
      && At(t, id, Finished(Dropped)) && t.ops[id].written == s.ops[id].written
      && HoldsStream !in t.ops[id].marks && t.readGate != Some(id) && t.writeGate != Some(id)
      && t.flags == s.flags && t.wire == s.wire && t.delivered == s.delivered
      && forall other :: other in s.ops && other != id ==> other in t.ops && t.ops[other] == s.ops[other]
  {
    assert OpInv(s, id);
  }

  /** A future can be dropped wherever it waits, for its gate or for the operating system. The call is over, its
      gate and its reference to the stream are free, and nothing else has happened: no flag, no byte, no other
      call. */
  lemma DroppedCallLetsGo(es: seq<Event>, id: OpId)
    requires At(Run(es), id, AwaitGate) || At(Run(es), id, AwaitIo)
    ensures var s, t := Run(es), Run(es + [By(id, Drop)]);
      && At(t, id, Finished(Dropped)) && t.ops[id].written == s.ops[id].written
      && HoldsStream !in t.ops[id].marks && t.readGate != Some(id) && t.writeGate != Some(id)
      && t.flags == s.flags && t.wire == s.wire && t.delivered == s.delivered
      && forall other :: other in s.ops && other != id ==> other in t.ops && t.ops[other] == s.ops[other]
  {
    hide Step, Inv;
    RunInv(es);
    W.RunFromSnoc(Init, es, By(id, Drop));
    DropStep(Run(es), id);
  }

  // ------------------------------------------------------------------ the environment is free

  /**
   Nothing is assumed of the operating system and the peer. A writer at its I/O may have any number of the bytes
   that it has left accepted, a reader may get any number of those that have arrived, up to its buffer, and
   nothing only at the end of the stream; every I/O may fail; and the peer may write until it has shut its side.
   */
  lemma EnvironmentIsFree(es: seq<Event>, id: OpId, count: nat, bytes: Bytes)
    ensures var s := Run(es);
      && (At(s, id, AwaitIo) && IsWriter(s.ops[id].call) ==>
            (Enabled(s, By(id, IoWrite(count))) <==> s.ops[id].written + count <= |Payload(s.ops[id].call)|))
      && (At(s, id, AwaitIo) && s.ops[id].call.Receive? && count > 0 ==>
            (Enabled(s, By(id, IoRead(count))) <==>
               count <= s.ops[id].call.cap && count <= |s.incoming| - |s.delivered|))
      && (At(s, id, AwaitIo) && s.ops[id].call.Receive? ==>
            (Enabled(s, By(id, IoRead(0))) <==> IncomingShut in s.flags && s.delivered == s.incoming))
      && (At(s, id, AwaitIo) ==> Enabled(s, By(id, IoFail)))
      && (IncomingShut !in s.flags ==> Run(es + [PeerWrites(bytes)]).incoming == s.incoming + bytes)
      && IncomingShut in Run(es + [PeerShuts]).flags
  {
    hide Run, Inv, Enabled;
    RunInv(es);
    IoIsFree(Run(es), id, count);
    PeerIsFree(Run(es), bytes);
    W.RunFromSnoc(Init, es, PeerWrites(bytes));
    W.RunFromSnoc(Init, es, PeerShuts);
    assert Run(es + [PeerWrites(bytes)]) == RunFrom(Init, es + [PeerWrites(bytes)]) by { RunIsFrom(es + [PeerWrites(bytes)]); }
    assert Run(es + [PeerShuts]) == RunFrom(Init, es + [PeerShuts]) by { RunIsFrom(es + [PeerShuts]); }
    RunIsFrom(es);
  }

  lemma RunIsFrom(es: seq<Event>)
    ensures Run(es) == RunFrom(Init, es)
  {
  }

  lemma IoIsFree(s: State, id: OpId, count: nat)
    requires Inv(s)
    ensures At(s, id, AwaitIo) && IsWriter(s.ops[id].call) ==>
      (Enabled(s, By(id, IoWrite(count))) <==> s.ops[id].written + count <= |Payload(s.ops[id].call)|)
    ensures At(s, id, AwaitIo) && s.ops[id].call.Receive? && count > 0 ==>
      (Enabled(s, By(id, IoRead(count))) <==> count <= s.ops[id].call.cap && count <= |s.incoming| - |s.delivered|)
    ensures At(s, id, AwaitIo) && s.ops[id].call.Receive? ==>
      (Enabled(s, By(id, IoRead(0))) <==> IncomingShut in s.flags && s.delivered == s.incoming)
    ensures At(s, id, AwaitIo) ==> Enabled(s, By(id, IoFail))
  {
    hide CloseFlags, WriteOrder, OpInv;
    if |s.delivered| == |s.incoming| {
      assert s.incoming[..|s.delivered|] == s.incoming;
    }
  }

  lemma PeerIsFree(s: State, bytes: Bytes)
    ensures IncomingShut !in s.flags ==> Step(s, PeerWrites(bytes)).incoming == s.incoming + bytes
    ensures IncomingShut in Step(s, PeerShuts).flags
  {
  }
}
