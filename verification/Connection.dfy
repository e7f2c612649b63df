/**
 The connection object: the asynchronous operations in the shape in which they are written, as methods
 over the shared state. Before every atomic action any other calls, the peer and the operating system may
 have moved; a method that reaches an await whose condition does not come true returns `Pending`. Each
 method proves that what it does is a run of the transport machine, and what its result says about the wire.
 */
module Connection {
  import opened ByteStrings
  import opened Wrappers
  import opened Transport
  import opened TransportSafety
  import opened TransportTheorems

  datatype Answer = Returned(outcome: Outcome) | Pending

  // ------------------------------------------------------------------ interference

  predicate ByOthers(es: seq<Event>, id: OpId) {
    forall i :: 0 <= i < |es| ==> Actor(es[i]) != Some(id)
  }

  /** The events of everybody else. */
  function Foreign(es: seq<Event>, id: OpId): (others: seq<Event>)
    ensures ByOthers(others, id)
  {
    if es == [] then []
    else Foreign(es[..|es| - 1], id) + (if Actor(es[|es| - 1]) == Some(id) then [] else [es[|es| - 1]])
  }

  /** What the steps of others leave alone. */
  predicate Meanwhile(s: State, t: State, id: OpId) {
    && Monotone(s, t)
    && (id in s.ops <==> id in t.ops)
    && (id in s.ops ==> t.ops[id] == s.ops[id])
  }

  lemma {:induction false} ForeignKeeps(s: State, es: seq<Event>, id: OpId)
    requires Inv(s) && ByOthers(es, id)
    ensures Inv(RunFrom(s, es)) && Meanwhile(s, RunFrom(s, es), id)
  {
    hide Inv, Step, Others;
    if es == [] {
      assert RunFrom(s, es) == s;
    } else {
      var init, e := es[..|es| - 1], es[|es| - 1];
      ForeignKeeps(s, init, id);
      StepInv(RunFrom(s, init), e);
      ForeignStep(RunFrom(s, init), e, id);
      MonotoneTransitive(s, RunFrom(s, init), RunFrom(s, es));
    }
  }

  lemma ForeignStep(s: State, e: Event, id: OpId)
    requires Inv(s) && Actor(e) != Some(id)
    ensures Meanwhile(s, Step(s, e), id)
  {
    hide Inv, Apply;
    if Enabled(s, e) {
      StepOthers(s, e);
    }
  }

  lemma MonotoneTransitive(s: State, t: State, u: State)
    requires Monotone(s, t) && Monotone(t, u)
    ensures Monotone(s, u)
  {
  }

  // ------------------------------------------------------------------ what one action does to its call

  /** The flag that a load reads, what happens if it is set, and where the call goes if it is not. */
  function LoadFlag(call: Call, pc: Point): Flag {
    match pc
    case LoadEof(_) => PeerEof
    case LoadPaused(_) => Paused
    case LoadShut(_) => DirectionFlag(call)
    case _ => Closed
  }

  function WhenSet(call: Call, pc: Point): Outcome {
    match pc
    case LoadEof(_) => EndOfStream
    case FetchClosed => Refused(IsClosed)
    case _ =>
      if !IsIo(call) then Success
      else Refused(match pc
                   case LoadPaused(_) => IsPaused
                   case LoadShut(_) => DirectionShut
                   case _ => IsClosed)
  }

  function WhenClear(call: Call, pc: Point): Point {
    match pc
    case LoadEof(pass) => LoadClosed(pass)
    case LoadClosed(pass) => AfterClosedCheck(call, pass)
    case LoadPaused(pass) => LoadShut(pass)
    case LoadShut(pass) => AfterShutCheck(call, pass)
    case _ => FetchSlot
  }

  predicate IsLoad(pc: Point) {
    pc.LoadEof? || pc.LoadClosed? || pc.LoadPaused? || pc.LoadShut? || pc.FetchClosed?
  }

  /** A call has moved to `pc` and has neither written nor changed otherwise. */
  predicate Advanced(s: State, t: State, id: OpId, pc: Point) {
    && id in s.ops && id in t.ops
    && t.ops[id].pc == pc && t.ops[id].call == s.ops[id].call && t.ops[id].written == s.ops[id].written
  }

  lemma LoadAdvances(s: State, id: OpId)
    requires id in s.ops && IsLoad(s.ops[id].pc)
    ensures var op, t := s.ops[id], Step(s, By(id, Tick));
      && t.flags == s.flags
      && Advanced(s, t, id, if LoadFlag(op.call, op.pc) in s.flags then Finished(WhenSet(op.call, op.pc))
                            else WhenClear(op.call, op.pc))
  {
  }

  lemma CloseAdvances(s: State, id: OpId)
    requires id in s.ops && s.ops[id].pc.Closing?
    ensures var op, t := s.ops[id], Step(s, By(id, Tick)); var step, after := op.pc.step, op.pc.after;
      match step
      case Swap => Advanced(s, t, id, Closing(ClearPause(if Closed in s.flags then Lost else Won), after))
      case ClearPause(race) => Advanced(s, t, id, Closing(SetReadShut(race), after))
      case SetReadShut(race) => Advanced(s, t, id, Closing(SetWriteShut(race), after))
      case SetWriteShut(race) => Advanced(s, t, id, if race == Won then Closing(CancelClose, after) else Finished(after))
      case CancelClose => Advanced(s, t, id, Closing(CancelRead, after))
      case CancelRead => Advanced(s, t, id, Closing(TakeSlot, after))
      case TakeSlot =>
        Advanced(s, t, id, if op.call.Close? && SlotEmpty !in s.flags then AwaitGate else Finished(after))
    ensures s.ops[id].pc.step.Swap? || Closed in s.flags ==> Closed in Step(s, By(id, Tick)).flags
  {
    match s.ops[id].pc.step
    case SetWriteShut(_) =>
    case TakeSlot =>
    case _ =>
  }

  lemma StoreAdvances(s: State, id: OpId)
    requires id in s.ops
    ensures var pc, t := s.ops[id].pc, Step(s, By(id, Tick));
      && (pc == StoreEof ==> Advanced(s, t, id, Finished(EndOfStream)) && PeerEof in t.flags)
      && (pc == StoreReadShut ==> Advanced(s, t, id, CancelReadToken))
      && (pc == CancelReadToken ==> Advanced(s, t, id, Finished(Success)) && ReadToken in t.flags)
      && (pc == StoreWriteShut ==> Advanced(s, t, id, FetchClosed) && WriteShut in t.flags)
      && (pc == StorePause ==> Advanced(s, t, id, Finished(Success)) && Paused in t.flags)
      && (pc == StoreResume ==> Advanced(s, t, id, Finished(Success)) && Paused !in t.flags)
      && (pc == FetchSlot ==>
            t.flags == s.flags
            && Advanced(s, t, id, if SlotEmpty in s.flags then Finished(Refused(IsClosed)) else AwaitIo))
  {
  }

  lemma GateAdvances(s: State, id: OpId)
    requires At(s, id, AwaitGate)
    ensures var call := s.ops[id].call;
      && (GateFree(s, call) ==>
            Advanced(s, Step(s, By(id, TakeGate)), id,
                     if call.Receive? then LoadEof(Again) else if call.Close? then AwaitIo else LoadClosed(Again)))
      && (CloseToken in s.flags && IsIo(call) ==>
            Advanced(s, Step(s, By(id, SeeClose)), id, Finished(Refused(Interrupted))))
      && (ReadToken in s.flags && call.Receive? ==>
            Advanced(s, Step(s, By(id, SeeReadShut)), id, Finished(Refused(Interrupted))))
      && (call.SendTimeout? ==> Advanced(s, Step(s, By(id, GateTimeout)), id, Finished(Refused(TimedOutWaiting))))
  {
  }

  /** I/O that is interrupted, fails or times out. */
  lemma IoAdvances(s: State, id: OpId)
    requires At(s, id, AwaitIo)
    ensures var call, loops := s.ops[id].call, s.ops[id].call.Send? || s.ops[id].call.SendTimeout?;
      && (CloseToken in s.flags && IsIo(call) ==>
            Advanced(s, Step(s, By(id, SeeClose)), id,
                     Finished(if loops then Broken(s.ops[id].written) else Refused(Interrupted))))
      && (ReadToken in s.flags && call.Receive? ==>
            Advanced(s, Step(s, By(id, SeeReadShut)), id, Finished(Refused(Interrupted))))
      && Advanced(s, Step(s, By(id, IoFail)), id,
                  if call.Close? then Finished(IoError)
                  else Closing(Swap, if loops then Broken(s.ops[id].written) else IoError))
      && (call.SendTimeout? ==> Advanced(s, Step(s, By(id, IoTimeout)), id, Closing(Swap, Broken(s.ops[id].written))))
  {
  }

  /** I/O that completes without moving bytes. */
  lemma DoneAdvances(s: State, id: OpId)
    requires At(s, id, AwaitIo) && s.ops[id].written <= |Payload(s.ops[id].call)|
    ensures var call, loops := s.ops[id].call, s.ops[id].call.Send? || s.ops[id].call.SendTimeout?;
      && (call.Flush? || call.ShutdownWrite? || call.Close? ==>
            Advanced(s, Step(s, By(id, IoDone)), id, Finished(Success))
            && (!call.Flush? ==> WireShut in Step(s, By(id, IoDone)).flags))
      && (IsWriter(call) ==>
            Advanced(s, Step(s, By(id, IoWrite(0))), id, Closing(Swap, if loops then Broken(s.ops[id].written) else IoError)))
      && (Ready(s, id, IoRead(0)) ==> Advanced(s, Step(s, By(id, IoRead(0))), id, StoreEof))
  {
  }

  lemma WriteAdvances(s: State, id: OpId, count: nat)
    requires Ready(s, id, IoWrite(count)) && count > 0
    ensures var op, t := s.ops[id], Step(s, By(id, IoWrite(count)));
      && id in t.ops && t.ops[id].call == op.call && t.ops[id].written == op.written + count
      && t.ops[id].pc == (if op.call.WriteOnce? then Finished(Wrote(count))
                          else if op.written + count == |Payload(op.call)| then Finished(Success) else AwaitIo)
  {
  }

  lemma ReadAdvances(s: State, id: OpId, count: nat)
    requires Ready(s, id, IoRead(count)) && count > 0
    ensures var t, chunk := Step(s, By(id, IoRead(count))), s.incoming[|s.delivered|..|s.delivered| + count];
      && id in t.ops && t.ops[id].call == s.ops[id].call && t.ops[id].pc == Finished(Chunk(chunk))
      && t.delivered == s.delivered + chunk
  {
  }

  /** The flags that the availability checks load, in their order. */
  function Checked(call: Call): seq<Flag> {
    [Closed, Paused, if call.Receive? then ReadShut else WriteShut]
  }

  /** Moments between two others, each not before the one in front of it. */
  predicate InOrder(before: seq<Event>, seen: seq<seq<Event>>, after: seq<Event>) {
    && (forall k :: 0 <= k < |seen| ==> before <= seen[k] <= after)
    && forall j, k :: 0 <= j <= k < |seen| ==> seen[j] <= seen[k]
  }

  /** One flag after the other was loaded, each at its own moment: `stopped` tells whether the last one was set,
      all in front of it were clear, and without a stop all of them were. */
  ghost predicate FirstSet(flags: seq<Flag>, seen: seq<seq<Event>>, stopped: bool) {
    && 0 < |seen| <= |flags|
    && (!stopped ==> |seen| == |flags|)
    && forall k :: 0 <= k < |seen| ==> (flags[k] in Run(seen[k]).flags <==> stopped && k == |seen| - 1)
  }

  // ------------------------------------------------------------------ the object

  /** Outcome of waiting for a gate, and of one attempt at I/O. */
  datatype Gate = Granted | Stopped(outcome: Outcome) | Waiting

  datatype IoResult = Moved(count: nat) | Error | Cancelled(outcome: Outcome) | Blocked

  class ConnectionCore {
    /** The shared fields, the calls in progress, and the two byte streams. */
    var state: State
    ghost var history: seq<Event>

    ghost predicate Valid()
      reads this
    {
      state == Run(history) && Inv(state)
    }

    constructor ()
      ensures Valid() && state == Init && history == []
    {
      state, history := Init, [];
      new;
      RunInv([]);
    }

    /** Anybody else moves. */
    method Interfere(id: OpId)
      requires Valid()
      modifies this
      ensures Valid() && Meanwhile(old(state), state, id)
      ensures old(history) <= history
    {
      hide Inv, Step, Run, RunFrom;
      var es: seq<Event> := *;
      var others := Foreign(es, id);
      ForeignKeeps(state, others, id);
      RunAppend(history, others);
      state := RunFrom(state, others);
      history := history + others;
    }

    /** One atomic action of a call. */
    method Perform(id: OpId, action: Action)
      requires Valid()
      modifies this
      ensures Valid() && state == Step(old(state), By(id, action))
      ensures old(history) <= history
    {
      hide Inv, Step;
      var e := By(id, action);
      StepInv(state, e);
      assert (history + [e])[..|history|] == history;
      state := Step(state, e);
      history := history + [e];
    }

    /** Start a call; it may find any state. */
    method Start(id: OpId, call: Call)
      requires Valid() && id !in state.ops
      modifies this
      ensures Valid() && old(history) <= history
      ensures id in state.ops && state.ops[id] == Op(call, Entry(call), 0, {})
    {
      hide Inv, Monotone;
      Interfere(id);
      Perform(id, Begin(call));
    }

    /** Load one atomic flag, or check closure before fetching the stream. */
    method Load(id: OpId) returns (isSet: bool)
      requires Valid() && id in state.ops && IsLoad(state.ops[id].pc)
      modifies this
      ensures Valid() && old(history) <= history
      ensures var op := old(state).ops[id];
        Advanced(old(state), state, id, if isSet then Finished(WhenSet(op.call, op.pc)) else WhenClear(op.call, op.pc))
      ensures isSet <==> LoadFlag(old(state).ops[id].call, old(state).ops[id].pc) in state.flags
    {
      hide Inv, Monotone, Step;
      Interfere(id);
      var op := state.ops[id];
      isSet := LoadFlag(op.call, op.pc) in state.flags;
      LoadAdvances(state, id);
      Perform(id, Tick);
    }

    /** `ensure_read_available` and `ensure_write_available`: closed, then paused, then the direction. The ghost
        result holds the history at each load. */
    method EnsureAvailable(id: OpId, pass: Pass) returns (refused: Option<Outcome>, ghost seen: seq<seq<Event>>)
      requires Valid() && id in state.ops && state.ops[id].pc == LoadClosed(pass) && IsIo(state.ops[id].call)
      modifies this
      ensures Valid() && old(history) <= history && InOrder(old(history), seen, history)
      ensures FirstSet(Checked(old(state).ops[id].call), seen, refused.Some?)
      ensures refused.None? ==> Advanced(old(state), state, id, AfterShutCheck(old(state).ops[id].call, pass))
      ensures refused.Some? ==>
        refused.value == Refused([IsClosed, IsPaused, DirectionShut][|seen| - 1])
        && Advanced(old(state), state, id, Finished(refused.value))
    {
      hide Inv, Step, Run;
      var isSet := Load(id);
      seen := [history];
      if isSet {
        return Some(Refused(IsClosed)), seen;
      }
      isSet := Load(id);
      seen := seen + [history];
      if isSet {
        return Some(Refused(IsPaused)), seen;
      }
      isSet := Load(id);
      seen := seen + [history];
      if isSet {
        return Some(Refused(DirectionShut)), seen;
      }
      return None, seen;
    }

    /** The select around a gate, or the plain wait of `shutdown_write` and `close`. */
    method AwaitTheGate(id: OpId) returns (gate: Gate)
      requires Valid() && At(state, id, AwaitGate)
      modifies this
      ensures Valid() && old(history) <= history
      ensures gate == Waiting ==> Advanced(old(state), state, id, AwaitGate)
      ensures gate.Stopped? ==> Advanced(old(state), state, id, Finished(gate.outcome)) && gate.outcome.Refused?
                                && IsIo(old(state).ops[id].call)
      ensures gate == Granted ==>
        Advanced(old(state), state, id,
                 if old(state).ops[id].call.Receive? then LoadEof(Again)
                 else if old(state).ops[id].call.Close? then AwaitIo else LoadClosed(Again))
    {
      hide Inv, Step, Monotone;
      Interfere(id);
      GateAdvances(state, id);
      var call, branch: nat := state.ops[id].call, *;
      if branch == 0 && CloseToken in state.flags && IsIo(call) {
        Perform(id, SeeClose);
        return Stopped(Refused(Interrupted));
      }
      if branch == 1 && ReadToken in state.flags && call.Receive? {
        Perform(id, SeeReadShut);
        return Stopped(Refused(Interrupted));
      }
      if branch == 2 && call.SendTimeout? {
        Perform(id, GateTimeout);
        return Stopped(Refused(TimedOutWaiting));
      }
      if branch == 3 && GateFree(state, call) {
        Perform(id, TakeGate);
        return Granted;
      }
      return Waiting;
    }

    /** `stream()`: refuse on a closed connection, then clone the reference out of the slot. A refusal means
        a closed connection in both cases, and success a reference that stays. */
    method FetchStream(id: OpId) returns (refused: Option<Outcome>, ghost seen: seq<seq<Event>>)
      requires Valid() && At(state, id, FetchClosed)
      modifies this
      ensures Valid() && old(history) <= history && InOrder(old(history), seen, history)
      ensures FirstSet([Closed, SlotEmpty], seen, refused.Some?)
      ensures refused.None? ==> Advanced(old(state), state, id, AwaitIo) && HoldsStream in state.ops[id].marks
      ensures refused.Some? ==> refused.value == Refused(IsClosed) && Closed in state.flags
                                && Advanced(old(state), state, id, Finished(refused.value))
    {
      hide Inv, Step, Monotone, Run;
      var isSet := Load(id);
      seen := [history];
      if isSet {
        return Some(Refused(IsClosed)), seen;
      }
      Interfere(id);
      StoreAdvances(state, id);
      var isEmpty := SlotEmpty in state.flags;
      Perform(id, Tick);
      seen := seen + [history];
      StreamMeans(state, id);
      return if isEmpty then Some(Refused(IsClosed)) else None, seen;
    }

    /** One atomic step of a close. */
    method CloseOnce(id: OpId)
      requires Valid() && id in state.ops && state.ops[id].pc.Closing?
      modifies this
      ensures Valid() && old(history) <= history && id in state.ops
      ensures var was, op := old(state).ops[id], state.ops[id];
        && op.call == was.call && op.written == was.written
        && (match was.pc.step
            case Swap => exists race :: op.pc == Closing(ClearPause(race), was.pc.after)
            case ClearPause(race) => op.pc == Closing(SetReadShut(race), was.pc.after)
            case SetReadShut(race) => op.pc == Closing(SetWriteShut(race), was.pc.after)
            case SetWriteShut(race) =>
              op.pc == if race == Won then Closing(CancelClose, was.pc.after) else Finished(was.pc.after)
            case CancelClose => op.pc == Closing(CancelRead, was.pc.after)
            case CancelRead => op.pc == Closing(TakeSlot, was.pc.after)
            case TakeSlot => op.pc == Finished(was.pc.after) || (op.pc == AwaitGate && was.call.Close?))
      ensures old(state).ops[id].pc.step.Swap? || Closed in old(state).flags ==> Closed in state.flags
    {
      hide Inv, Step;
      Interfere(id);
      CloseAdvances(state, id);
      Perform(id, Tick);
    }

    /** `state.close()`, and for the winner the two cancellations and the emptied slot. */
    method CloseState(id: OpId)
      requires Valid() && id in state.ops && state.ops[id].pc.Closing? && state.ops[id].pc.step.Swap?
      modifies this
      ensures Valid() && old(history) <= history && id in state.ops
      ensures state.ops[id].call == old(state).ops[id].call && state.ops[id].written == old(state).ops[id].written
      ensures state.ops[id].pc == Finished(old(state).ops[id].pc.after)
              || (state.ops[id].pc == AwaitGate && old(state).ops[id].call.Close?)
      ensures Closed in state.flags
    {
      hide Inv, Step, Monotone;
      CloseOnce(id);
      var race := state.ops[id].pc.step.race;
      CloseOnce(id);
      CloseOnce(id);
      CloseOnce(id);
      if race == Won {
        CloseOnce(id);
        CloseOnce(id);
        CloseOnce(id);
      }
    }

    /** `fail_connection`, and the error result behind it. */
    method FailConnection(id: OpId) returns (outcome: Outcome)
      requires Valid() && id in state.ops && state.ops[id].pc.Closing? && state.ops[id].pc.step.Swap?
      requires !state.ops[id].call.Close?
      modifies this
      ensures Valid() && old(history) <= history && id in state.ops
      ensures outcome == old(state).ops[id].pc.after
      ensures Advanced(old(state), state, id, Finished(outcome)) && Closed in state.flags
    {
      hide Inv, Step, Monotone;
      outcome := state.ops[id].pc.after;
      CloseState(id);
    }

    /** One write attempt: the operating system takes any part of the rest, or fails, or the token wins. */
    method AwaitWrite(id: OpId) returns (r: IoResult)
      requires Valid() && At(state, id, AwaitIo) && IsWriter(state.ops[id].call)
      requires state.ops[id].written < |Payload(state.ops[id].call)|
      modifies this
      ensures Valid() && old(history) <= history && id in state.ops && state.ops[id].call == old(state).ops[id].call
      ensures var op, now, loops := old(state).ops[id], state.ops[id], !old(state).ops[id].call.WriteOnce?;
        match r
        case Moved(count) =>
          && op.written + count <= |Payload(op.call)| && now.written == op.written + count
          && now.pc == (if count == 0 then Closing(Swap, if loops then Broken(op.written) else IoError)
                        else if !loops then Finished(Wrote(count))
                        else if now.written == |Payload(op.call)| then Finished(Success) else AwaitIo)
        case Cancelled(outcome) =>
          && now.written == op.written && now.pc == Finished(outcome)
          && outcome == (if loops then Broken(op.written) else Refused(Interrupted))
        case Blocked => now.written == op.written && now.pc == AwaitIo
        case Error =>
          now.written == op.written && now.pc == Closing(Swap, if loops then Broken(op.written) else IoError)
    {
      hide Inv, Step, Monotone;
      Interfere(id);
      IoAdvances(state, id);
      var branch: nat, count: nat := *, *;
      if branch == 0 && CloseToken in state.flags {
        var loops := !state.ops[id].call.WriteOnce?;
        r := Cancelled(if loops then Broken(state.ops[id].written) else Refused(Interrupted));
        Perform(id, SeeClose);
        return;
      }
      if branch == 1 && count <= |Payload(state.ops[id].call)| - state.ops[id].written {
        if count > 0 {
          WriteAdvances(state, id, count);
        } else {
          DoneAdvances(state, id);
        }
        Perform(id, IoWrite(count));
        return Moved(count);
      }
      if branch == 2 {
        Perform(id, IoFail);
        return Error;
      }
      if branch == 3 && state.ops[id].call.SendTimeout? {
        Perform(id, IoTimeout);
        return Error;
      }
      return Blocked;
    }

    /** Everything before the first write or flush attempt: checks, gate, checks, stream. */
    method Approach(id: OpId) returns (answer: Option<Answer>)
      requires Valid() && id in state.ops && state.ops[id].pc == LoadClosed(First)
      requires IsWriter(state.ops[id].call) || state.ops[id].call.Flush?
      modifies this
      ensures Valid() && old(history) <= history && id in state.ops
      ensures state.ops[id].call == old(state).ops[id].call && state.ops[id].written == old(state).ops[id].written
      ensures answer.None? ==> state.ops[id].pc == AwaitIo
      ensures answer == Some(Pending) ==> state.ops[id].pc == AwaitGate
      ensures answer.Some? && answer.value.Returned? ==>
        state.ops[id].pc == Finished(answer.value.outcome) && answer.value.outcome.Refused?
    {
      hide Inv, Step, Monotone, Run, InOrder, FirstSet, Checked;
      var refused, seen := EnsureAvailable(id, First);
      if refused.Some? {
        return Some(Returned(refused.value));
      }
      var gate := AwaitTheGate(id);
      match gate {
        case Stopped(outcome) => return Some(Returned(outcome));
        case Waiting => return Some(Pending);
        case Granted =>
      }
      refused, seen := EnsureAvailable(id, Again);
      if refused.Some? {
        return Some(Returned(refused.value));
      }
      refused, seen := FetchStream(id);
      if refused.Some? {
        return Some(Returned(refused.value));
      }
      return None;
    }

    /**
     `send` and `send_timeout`. Success means that the whole buffer is on the wire; an error report is exact
     and comes with a closed connection; a refusal or a parked wait for the gate has written nothing.
     */
    method SendAll(id: OpId, call: Call) returns (answer: Answer)
      requires Valid() && id !in state.ops && (call.Send? || call.SendTimeout?)
      modifies this
      ensures Valid() && old(history) <= history && id in state.ops && state.ops[id].call == call
      ensures answer.Returned? ==> state.ops[id].pc == Finished(answer.outcome)
      ensures answer.Pending? ==> state.ops[id].pc == AwaitGate || state.ops[id].pc == AwaitIo
      ensures answer == Returned(Success) ==> Part(state.ops, id) == Payload(call)
      ensures answer.Returned? && answer.outcome.Broken? ==>
        Closed in state.flags && Part(state.ops, id) == Payload(call)[..answer.outcome.reported]
        && answer.outcome.reported < |Payload(call)|
      ensures answer.Returned? && !answer.outcome.Success? && !answer.outcome.Broken? ==>
        answer.outcome.Refused? && Part(state.ops, id) == []
      ensures state.ops[id].pc == AwaitGate ==> Part(state.ops, id) == []
    {
      hide Inv, Step, Monotone;
      Start(id, call);
      var data := Payload(call);
      if data == [] {
        return Returned(Success);
      }
      var stopped := Approach(id);
      if stopped.Some? {
        return stopped.value;
      }
      var written := 0;
      while written < |data|
        invariant Valid() && old(history) <= history && id in state.ops && state.ops[id].call == call
        invariant written <= |data| && state.ops[id].written == written
        invariant state.ops[id].pc == if written < |data| then AwaitIo else Finished(Success)
      {
        var result := AwaitWrite(id);
        match result
        case Cancelled(outcome) =>
          FinishedReports(state, id);
          return Returned(outcome);
        case Moved(count) =>
          if count == 0 {
            var failed := FailConnection(id);
            FinishedReports(state, id);
            return Returned(failed);
          }
          written := written + count;
        case Blocked =>
          return Pending;
        case Error =>
          var failed := FailConnection(id);
          FinishedReports(state, id);
          return Returned(failed);
      }
      return Returned(Success);
    }

    /** `write_once`: one attempt under the same gate; the count is what was written. */
    method WriteOnce(id: OpId, data: Bytes) returns (answer: Answer)
      requires Valid() && id !in state.ops
      modifies this
      ensures Valid() && old(history) <= history && id in state.ops && state.ops[id].call == Call.WriteOnce(data)
      ensures answer.Returned? ==> state.ops[id].pc == Finished(answer.outcome)
      ensures answer.Pending? ==> state.ops[id].pc == AwaitGate || state.ops[id].pc == AwaitIo
      ensures answer.Returned? && answer.outcome.Wrote? ==>
        answer.outcome.count <= |data| && Part(state.ops, id) == data[..answer.outcome.count]
      ensures answer.Returned? && answer.outcome.Wrote? && data != [] ==> answer.outcome.count > 0
      ensures answer.Pending? || !answer.outcome.Wrote? ==> Part(state.ops, id) == []
      ensures answer == Returned(IoError) ==> Closed in state.flags
    {
      hide Inv, Step, Monotone;
      Start(id, Call.WriteOnce(data));
      if data == [] {
        return Returned(Wrote(0));
      }
      var stopped := Approach(id);
      if stopped.Some? {
        return stopped.value;
      }
      var result := AwaitWrite(id);
      match result
      case Cancelled(outcome) => return Returned(outcome);
      case Moved(count) =>
        if count == 0 {
          var failed := FailConnection(id);
          FinishedReports(state, id);
          return Returned(failed);
        }
        return Returned(Wrote(count));
      case Blocked => return Pending;
      case Error =>
        var failed := FailConnection(id);
        FinishedReports(state, id);
        return Returned(failed);
    }

    /** One read attempt. */
    method AwaitRead(id: OpId) returns (r: IoResult)
      requires Valid() && At(state, id, AwaitIo) && state.ops[id].call.Receive?
      modifies this
      ensures Valid() && old(history) <= history && id in state.ops && state.ops[id].call == old(state).ops[id].call
      ensures match r
        case Moved(count) =>
          && count <= state.ops[id].call.cap
          && (if count == 0 then state.ops[id].pc == StoreEof
              else |state.delivered| >= count
                   && state.ops[id].pc == Finished(Chunk(state.delivered[|state.delivered| - count..])))
        case Cancelled(outcome) => outcome == Refused(Interrupted) && state.ops[id].pc == Finished(outcome)
        case Blocked => state.ops[id].pc == AwaitIo
        case Error => state.ops[id].pc == Closing(Swap, IoError)
    {
      hide Inv, Step, Monotone, Finish, Read;
      Interfere(id);
      IoAdvances(state, id);
      ReceiverWritesNothing(state, id);
      DoneAdvances(state, id);
      var branch: nat, count: nat := *, *;
      if branch == 0 && CloseToken in state.flags {
        Perform(id, SeeClose);
        return Cancelled(Refused(Interrupted));
      }
      if branch == 1 && ReadToken in state.flags {
        Perform(id, SeeReadShut);
        return Cancelled(Refused(Interrupted));
      }
      if branch == 2 && Ready(state, id, IoRead(count)) {
        if count > 0 {
          ReadAdvances(state, id, count);
        }
        Perform(id, IoRead(count));
        return Moved(count);
      }
      if branch == 3 {
        Perform(id, IoFail);
        return Error;
      }
      return Blocked;
    }

    /** The end-of-stream check and `ensure_read_available`. */
    method ReadChecks(id: OpId, pass: Pass) returns (stopped: Option<Outcome>)
      requires Valid() && id in state.ops && state.ops[id].pc == LoadEof(pass) && state.ops[id].call.Receive?
      modifies this
      ensures Valid() && old(history) <= history
      ensures stopped.None? ==> Advanced(old(state), state, id, if pass == First then AwaitGate else FetchClosed)
      ensures stopped.Some? ==>
        Advanced(old(state), state, id, Finished(stopped.value)) && (stopped.value.Refused? || stopped.value == EndOfStream)
    {
      hide Inv, Step, Monotone, Run, InOrder, FirstSet, Checked;
      var isSet := Load(id);
      if isSet {
        return Some(EndOfStream);
      }
      ghost var seen;
      stopped, seen := EnsureAvailable(id, pass);
    }

    method ApproachRead(id: OpId) returns (answer: Option<Answer>)
      requires Valid() && id in state.ops && state.ops[id].pc == LoadEof(First) && state.ops[id].call.Receive?
      modifies this
      ensures Valid() && old(history) <= history && id in state.ops && state.ops[id].call == old(state).ops[id].call
      ensures answer.None? ==> state.ops[id].pc == AwaitIo
      ensures answer == Some(Pending) ==> state.ops[id].pc == AwaitGate
      ensures answer.Some? && answer.value.Returned? ==>
        state.ops[id].pc == Finished(answer.value.outcome)
        && (answer.value.outcome.Refused? || answer.value.outcome == EndOfStream)
    {
      hide Inv, Step, Monotone, Run, InOrder, FirstSet, Checked;
      var stopped := ReadChecks(id, First);
      if stopped.Some? {
        return Some(Returned(stopped.value));
      }
      var gate := AwaitTheGate(id);
      match gate {
        case Stopped(outcome) => return Some(Returned(outcome));
        case Waiting => return Some(Pending);
        case Granted =>
      }
      stopped := ReadChecks(id, Again);
      if stopped.Some? {
        return Some(Returned(stopped.value));
      }
      ghost var seen;
      stopped, seen := FetchStream(id);
      if stopped.Some? {
        return Some(Returned(stopped.value));
      }
      return None;
    }

    /**
     `receive`. A chunk is the newest part of what has been handed out; end of stream means that everything
     the peer's transport accepted has been handed out and that no more can come.
     */
    method Receive(id: OpId, cap: nat) returns (answer: Answer)
      requires Valid() && id !in state.ops
      modifies this
      ensures Valid() && old(history) <= history && id in state.ops && state.ops[id].call == Call.Receive(cap)
      ensures answer.Returned? ==> state.ops[id].pc == Finished(answer.outcome)
      ensures answer.Pending? ==> state.ops[id].pc == AwaitGate || state.ops[id].pc == AwaitIo
      ensures answer.Returned? && answer.outcome.Chunk? && cap > 0 ==>
        && 0 < |answer.outcome.data| <= cap && |answer.outcome.data| <= |state.delivered|
        && answer.outcome.data == state.delivered[|state.delivered| - |answer.outcome.data|..]
      ensures answer == Returned(EndOfStream) ==>
        PeerEof in state.flags && IncomingShut in state.flags && state.delivered == state.incoming
      ensures cap == 0 ==> answer == Returned(Chunk([]))
    {
      hide Inv, Step, Monotone;
      Start(id, Call.Receive(cap));
      if cap == 0 {
        return Returned(Chunk([]));
      }
      var stopped := ApproachRead(id);
      if stopped.Some? {
        if stopped.value.Returned? {
          FinishedReports(state, id);
        }
        return stopped.value;
      }
      var result := AwaitRead(id);
      match result
      case Moved(count) =>
        if count == 0 {
          Settle(id);
          FinishedReports(state, id);
          return Returned(EndOfStream);
        }
        return Returned(state.ops[id].pc.outcome);
      case Cancelled(outcome) => return Returned(outcome);
      case Blocked => return Pending;
      case Error =>
        var failed := FailConnection(id);
        return Returned(failed);
    }

    /** One store, or one token cancellation. */
    method Settle(id: OpId)
      requires Valid() && id in state.ops
      requires var pc := state.ops[id].pc;
        pc == StoreEof || pc == StoreReadShut || pc == CancelReadToken || pc == StoreWriteShut
        || pc == StorePause || pc == StoreResume
      modifies this
      ensures Valid() && old(history) <= history
      ensures Advanced(old(state), state, id,
                       match old(state).ops[id].pc
                       case StoreEof => Finished(EndOfStream)
                       case StoreReadShut => CancelReadToken
                       case StoreWriteShut => FetchClosed
                       case _ => Finished(Success))
      ensures old(state).ops[id].pc == CancelReadToken ==> ReadToken in state.flags && ReadShut in state.flags
      ensures old(state).ops[id].pc == StoreWriteShut ==> WriteShut in state.flags
      ensures old(state).ops[id].pc == StorePause ==> Paused in state.flags
      ensures old(state).ops[id].pc == StoreResume ==> Paused !in state.flags
    {
      hide Inv, Step, Monotone;
      Interfere(id);
      StoreAdvances(state, id);
      Perform(id, Tick);
      TokensMean(state);
    }

    /** `flush`, the I/O of `shutdown_write`, and the graceful end of `close`. */
    method AwaitDone(id: OpId) returns (r: IoResult)
      requires Valid() && At(state, id, AwaitIo)
      requires var call := state.ops[id].call; call.Flush? || call.ShutdownWrite? || call.Close?
      modifies this
      ensures Valid() && old(history) <= history && id in state.ops && state.ops[id].call == old(state).ops[id].call
      ensures match r
        case Moved(_) => state.ops[id].pc == Finished(Success) && (!state.ops[id].call.Flush? ==> WireShut in state.flags)
        case Cancelled(outcome) =>
          outcome == Refused(Interrupted) && state.ops[id].pc == Finished(outcome) && state.ops[id].call.Flush?
        case Blocked => state.ops[id].pc == AwaitIo
        case Error => state.ops[id].pc == if state.ops[id].call.Close? then Finished(IoError) else Closing(Swap, IoError)
      ensures Closed in old(state).flags ==> Closed in state.flags
    {
      hide Inv, Step;
      Interfere(id);
      IoAdvances(state, id);
      ReceiverWritesNothing(state, id);
      DoneAdvances(state, id);
      ClosedStays(state, By(id, IoDone));
      ClosedStays(state, By(id, IoFail));
      ClosedStays(state, By(id, SeeClose));
      var branch: nat := *;
      if branch == 0 && CloseToken in state.flags && state.ops[id].call.Flush? {
        Perform(id, SeeClose);
        return Cancelled(Refused(Interrupted));
      }
      if branch == 1 {
        Perform(id, IoDone);
        return Moved(0);
      }
      if branch == 2 {
        Perform(id, IoFail);
        return Error;
      }
      return Blocked;
    }

    method Flush(id: OpId) returns (answer: Answer)
      requires Valid() && id !in state.ops
      modifies this
      ensures Valid() && old(history) <= history && id in state.ops && state.ops[id].call == Call.Flush
      ensures answer.Returned? ==> state.ops[id].pc == Finished(answer.outcome)
      ensures answer.Pending? ==> state.ops[id].pc == AwaitGate || state.ops[id].pc == AwaitIo
      ensures answer == Returned(IoError) ==> Closed in state.flags
      ensures answer.Returned? ==> answer.outcome.Success? || answer.outcome.Refused? || answer.outcome == IoError
    {
      hide Inv, Step, Monotone;
      Start(id, Call.Flush);
      var stopped := Approach(id);
      if stopped.Some? {
        return stopped.value;
      }
      var result := AwaitDone(id);
      match result
      case Moved(_) => return Returned(Success);
      case Cancelled(outcome) => return Returned(outcome);
      case Blocked => return Pending;
      case Error =>
        var failed := FailConnection(id);
        FinishedReports(state, id);
        return Returned(failed);
    }

    /** `shutdown_read` never waits and never fails; unless the connection was closed or the direction shut
        already, it leaves the direction shut and its token cancelled. */
    method ShutdownRead(id: OpId) returns (already: Option<Flag>)
      requires Valid() && id !in state.ops
      modifies this
      ensures Valid() && old(history) <= history && At(state, id, Finished(Success))
      ensures already.None? ==> ReadShut in state.flags && ReadToken in state.flags
      ensures already.Some? ==> already.value in state.flags && (already.value == Closed || already.value == ReadShut)
    {
      hide Inv, Step, Monotone;
      Start(id, Call.ShutdownRead);
      var isSet := Load(id);
      if isSet {
        return Some(Closed);
      }
      isSet := Load(id);
      if isSet {
        return Some(ReadShut);
      }
      Settle(id);
      Settle(id);
      return None;
    }

    /** Closed, or the direction already shut: nothing to do. */
    method ShutChecks(id: OpId, pass: Pass) returns (already: bool)
      requires Valid() && id in state.ops && state.ops[id].pc == LoadClosed(pass) && state.ops[id].call.ShutdownWrite?
      modifies this
      ensures Valid() && old(history) <= history
      ensures Advanced(old(state), state, id,
                       if already then Finished(Success) else if pass == First then AwaitGate else StoreWriteShut)
      ensures already ==> Closed in state.flags || WriteShut in state.flags
    {
      hide Inv, Step, Monotone;
      already := Load(id);
      if !already {
        already := Load(id);
      }
    }

    /** Under the gate: mark the direction shut, and shut the stream down. */
    method ShutStream(id: OpId) returns (answer: Answer)
      requires Valid() && At(state, id, StoreWriteShut) && state.ops[id].call.ShutdownWrite?
      modifies this
      ensures Valid() && old(history) <= history && id in state.ops && state.ops[id].call == Call.ShutdownWrite
      ensures answer.Returned? ==> state.ops[id].pc == Finished(answer.outcome)
      ensures answer.Pending? ==> state.ops[id].pc == AwaitIo
      ensures WriteShut in state.flags && (answer == Returned(Success) ==> WireShut in state.flags)
      ensures answer == Returned(IoError) || answer == Returned(Refused(IsClosed)) ==> Closed in state.flags
      ensures answer.Returned? ==>
        answer.outcome.Success? || answer.outcome == Refused(IsClosed) || answer.outcome == IoError
    {
      hide Inv, Step, Monotone, Run, InOrder, FirstSet, Checked;
      Settle(id);
      ghost var marked := history;
      var refused, seen := FetchStream(id);
      FlagsStay(marked, history);
      if refused.Some? {
        return Returned(refused.value);
      }
      var result := AwaitDone(id);
      FlagsStay(marked, history);
      if result == Blocked {
        return Pending;
      }
      if result == Error {
        var failed := FailConnection(id);
        FlagsStay(marked, history);
        return Returned(failed);
      }
      return Returned(Success);
    }

    /** `shutdown_write`: the gate comes before the transition, so sends that are ahead finish first. Success
        means that the wire is shut, unless the call `found` the connection closed or the direction marked. */
    method ShutdownWrite(id: OpId) returns (answer: Answer, ghost found: bool)
      requires Valid() && id !in state.ops
      modifies this
      ensures Valid() && old(history) <= history && id in state.ops && state.ops[id].call == Call.ShutdownWrite
      ensures answer.Returned? ==> state.ops[id].pc == Finished(answer.outcome)
      ensures answer.Pending? ==> state.ops[id].pc == AwaitGate || (state.ops[id].pc == AwaitIo && WriteShut in state.flags)
      ensures found ==> answer == Returned(Success) && (Closed in state.flags || WriteShut in state.flags)
      ensures answer == Returned(Success) && !found ==> WriteShut in state.flags && WireShut in state.flags
      ensures answer == Returned(IoError) || answer == Returned(Refused(IsClosed)) ==> Closed in state.flags
      ensures answer.Returned? ==>
        answer.outcome.Success? || answer.outcome == Refused(IsClosed) || answer.outcome == IoError
    {
      hide Inv, Step, Monotone;
      Start(id, Call.ShutdownWrite);
      var already := ShutChecks(id, First);
      if already {
        return Returned(Success), true;
      }
      var gate := AwaitTheGate(id);
      if gate == Waiting {
        return Pending, false;
      }
      already := ShutChecks(id, Again);
      if already {
        return Returned(Success), true;
      }
      found := false;
      answer := ShutStream(id);
    }

    /** `close`: only the winner cancels and empties the slot, and then waits for the write gate. Whoever
        returns, the connection is closed; if it is the winner, the synchronous part is complete. */
    method Close(id: OpId) returns (answer: Answer)
      requires Valid() && id !in state.ops
      modifies this
      ensures Valid() && old(history) <= history && id in state.ops && state.ops[id].call == Call.Close
      ensures answer.Returned? ==> state.ops[id].pc == Finished(answer.outcome)
      ensures answer.Pending? ==> state.ops[id].pc == AwaitGate || state.ops[id].pc == AwaitIo
      ensures Closed in state.flags
      ensures state.winner == Some(id) ==> {SlotEmpty, CloseToken, ReadToken} <= state.flags
    {
      hide Inv, Step, Monotone;
      Start(id, Call.Close);
      CloseState(id);
      ClosedReports(state, id);
      if state.ops[id].pc.Finished? {
        return Returned(Success);
      }
      var gate := AwaitTheGate(id);
      ClosedReports(state, id);
      if gate == Waiting {
        return Pending;
      }
      var result := AwaitDone(id);
      ClosedReports(state, id);
      return if result == Blocked then Pending else Returned(state.ops[id].pc.outcome);
    }

    /** `pause` and `resume` check closure and then store, in two steps. */
    method SetPaused(id: OpId, paused: bool) returns (stored: bool)
      requires Valid() && id !in state.ops
      modifies this
      ensures Valid() && old(history) <= history && At(state, id, Finished(Success))
      ensures stored ==> (paused <==> Paused in state.flags)
      ensures !stored ==> Closed in state.flags
    {
      hide Inv, Step, Monotone;
      Start(id, if paused then Call.Pause else Call.Resume);
      var isSet := Load(id);
      if isSet {
        return false;
      }
      Settle(id);
      return true;
    }
  }

  lemma ClosedStays(s: State, e: Event)
    requires Inv(s)
    ensures Closed in s.flags ==> Closed in Step(s, e).flags
  {
    if Enabled(s, e) {
      StepOthers(s, e);
    }
  }

  lemma ReceiverWritesNothing(s: State, id: OpId)
    requires Inv(s) && id in s.ops
    ensures s.ops[id].written <= |Payload(s.ops[id].call)|
  {
    assert OpInv(s, id);
  }

  lemma TokensMean(s: State)
    requires Inv(s)
    ensures ReadToken in s.flags ==> ReadShut in s.flags
  {
  }

  /** No flag but the pause flag reverts as the history grows. */
  lemma FlagsStay(before: seq<Event>, after: seq<Event>)
    requires before <= after
    ensures Run(before).flags - {Paused} <= Run(after).flags
  {
    hide Run;
    assert before + after[|before|..] == after;
    MonotoneOverRuns(before, after[|before|..]);
  }

  /** An empty slot belongs to a closed connection, and a call at its I/O holds a reference. */
  lemma StreamMeans(s: State, id: OpId)
    requires Inv(s) && id in s.ops
    ensures SlotEmpty in s.flags ==> Closed in s.flags
    ensures s.ops[id].pc == AwaitIo ==> HoldsStream in s.ops[id].marks
  {
    assert OpInv(s, id);
  }

  /** A full close that is past its stores. */
  lemma ClosedReports(s: State, id: OpId)
    requires Inv(s) && id in s.ops && s.ops[id].call.Close? && !s.ops[id].pc.Closing?
    requires s.ops[id].pc.Finished? || s.ops[id].pc == AwaitGate || s.ops[id].pc == AwaitIo
    ensures s.winner == Some(id) ==> {SlotEmpty, CloseToken, ReadToken} <= s.flags
    ensures s.ops[id].pc == AwaitGate || s.ops[id].pc == AwaitIo ==> Closed in s.flags
  {
    assert OpInv(s, id);
  }

  /** What the invariant says about a call that has returned an error. */
  lemma FinishedReports(s: State, id: OpId)
    requires Inv(s) && id in s.ops && s.ops[id].pc.Finished?
    ensures var op, outcome := s.ops[id], s.ops[id].pc.outcome;
      && (outcome.Broken? ==> Closed in s.flags && outcome.reported == op.written < |Payload(op.call)|)
      && (outcome == IoError ==> Closed in s.flags && op.written == 0)
      && (outcome == EndOfStream ==> PeerEof in s.flags && s.delivered == s.incoming && IncomingShut in s.flags)
  {
    assert OpInv(s, id);
  }
}
