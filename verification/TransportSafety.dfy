/**
 What every run of the transport core keeps.

 The proof is rely-guarantee: `Others` is what a step of one call may do to the state seen by every
 other call, `OpInv` is what each call knows at its own program point and is stable under `Others`,
 and `SharedInv` is what the shared fields satisfy between any two events.
 */
module TransportSafety {
  import opened ByteStrings
  import opened Wrappers
  import opened Transport

  // ------------------------------------------------------------------ per-call knowledge

  /** The call is between taking its gate and returning. */
  predicate InGate(op: Op) {
    match op.pc
    case LoadEof(pass) => pass == Again
    case LoadClosed(pass) => pass == Again
    case LoadPaused(pass) => pass == Again
    case LoadShut(pass) => pass == Again
    case Closing(_, _) => !op.call.Close?
    case FetchClosed => true
    case FetchSlot => true
    case AwaitIo => true
    case StoreEof => true
    case StoreWriteShut => true
    case _ => false
  }

  /** Program points that each call can be at. */
  predicate Shape(op: Op) {
    match op.pc
    case LoadEof(_) => op.call.Receive?
    case LoadClosed(pass) => if pass == Again then IsIo(op.call) || op.call.ShutdownWrite? else !op.call.Close?
    case LoadPaused(_) => IsIo(op.call)
    case LoadShut(pass) =>
      IsIo(op.call) || op.call.ShutdownWrite? || (pass == First && op.call.ShutdownRead?)
    case AwaitGate => IsIo(op.call) || op.call.ShutdownWrite? || (op.call.Close? && HoldsStream in op.marks)
    case FetchClosed => IsIo(op.call) || op.call.ShutdownWrite?
    case FetchSlot => IsIo(op.call) || op.call.ShutdownWrite?
    case AwaitIo => HoldsStream in op.marks && (IsIo(op.call) || op.call.ShutdownWrite? || op.call.Close?)
    case StoreEof => op.call.Receive?
    case Closing(_, _) => IsIo(op.call) || op.call.ShutdownWrite? || op.call.Close?
    case StoreReadShut => op.call.ShutdownRead?
    case CancelReadToken => op.call.ShutdownRead?
    case StoreWriteShut => op.call.ShutdownWrite?
    case StorePause => op.call.Pause?
    case StoreResume => op.call.Resume?
    case Finished(_) => true
  }

  predicate HoldsGate(s: State, id: OpId, op: Op) {
    && (s.readGate == Some(id) <==> op.call.Receive? && InGate(op))
    && (s.writeGate == Some(id) <==> !op.call.Receive? && InGate(op))
  }

  /** How much a data writer has put on the wire, at each point and for each result. */
  predicate Progress(s: State, op: Op) {
    var total := |Payload(op.call)|;
    && op.written <= total
    && (!IsWriter(op.call) ==> op.written == 0)
    && (IsWriter(op.call) && !op.pc.Finished? ==> total > 0)
    && (match op.pc
        case AwaitIo => IsWriter(op.call) ==> op.written < total
        case Closing(_, after) =>
          && (op.call.Send? || op.call.SendTimeout? ==> after == Broken(op.written) && op.written < total)
          && (op.call.WriteOnce? ==> after == IoError && op.written == 0)
          && (op.call.Close? ==> after == Success)
          && (op.call.Receive? || op.call.Flush? || op.call.ShutdownWrite? ==> after == IoError)
        case Finished(outcome) => Result(s, op, outcome)
        case _ => op.written == 0)
    && (op.call.WriteOnce? && !op.pc.Finished? ==> op.written == 0)
  }

  /** What each result tells the caller. */
  predicate Result(s: State, op: Op, outcome: Outcome) {
    match outcome
    case Success => op.call.Send? || op.call.SendTimeout? ==> op.written == |Payload(op.call)|
    case Wrote(count) => op.written == count && op.call.WriteOnce?
    case Chunk(_) => op.call.Receive?
    case EndOfStream => op.call.Receive? && (PeerEof in s.flags)
    case Refused(_) => op.written == 0
    case Broken(reported) => op.written == reported && Closed in s.flags && (op.call.Send? || op.call.SendTimeout?)
                             && op.written < |Payload(op.call)|
    case IoError => op.written == 0 && Closed in s.flags
    case Dropped => op.call.WriteOnce? ==> op.written == 0
  }

  /** Where a call is in the close protocol. */
  predicate Closes(s: State, id: OpId, op: Op) {
    var won := s.winner == Some(id);
    match op.pc
    case Closing(step, _) =>
      (match step
       case Swap => !won
       case ClearPause(w) => Closed in s.flags && (w == Won <==> won)
       case SetReadShut(w) => Closed in s.flags && (w == Won <==> won)
       case SetWriteShut(w) => Closed in s.flags && (w == Won <==> won) && ReadShut in s.flags
       case CancelClose => won && ReadShut in s.flags && WriteShut in s.flags
       case CancelRead => won && CloseToken in s.flags
       case TakeSlot => won && CloseToken in s.flags && ReadToken in s.flags)
    case AwaitGate => if op.call.Close? then won && SlotEmpty in s.flags else !won
    case AwaitIo => if op.call.Close? then won && SlotEmpty in s.flags else !won
    case Finished(_) => won ==> SlotEmpty in s.flags
    case _ => !won
  }

  predicate OrderEntry(s: State, id: OpId, op: Op) {
    && (IsWriter(op.call) && InGate(op) ==> s.order != [] && s.order[|s.order| - 1] == id)
    && (op.written > 0 || Late in op.marks ==> id in s.order)
    && (id in s.order ==> IsWriter(op.call) && (InGate(op) || op.pc.Finished?))
    && (Late in op.marks ==>
          && IsWriter(op.call) && op.written == 0 && Closed in s.flags
          && (op.pc == LoadClosed(Again) || op.pc == Finished(Refused(IsClosed))))
  }

  predicate Directions(s: State, op: Op) {
    match op.pc
    case FetchClosed =>
      (IsWriter(op.call) && WireShut in s.flags ==> SlotEmpty in s.flags) && (op.call.ShutdownWrite? ==> WriteShut in s.flags)
    case FetchSlot =>
      (IsWriter(op.call) && WireShut in s.flags ==> SlotEmpty in s.flags) && (op.call.ShutdownWrite? ==> WriteShut in s.flags)
    case AwaitIo => (IsWriter(op.call) ==> WireShut !in s.flags) && (op.call.ShutdownWrite? ==> WriteShut in s.flags)
    case StoreEof => IncomingShut in s.flags && s.delivered == s.incoming
    case CancelReadToken => ReadShut in s.flags
    case _ => true
  }

  predicate OpInv(s: State, id: OpId)
    requires id in s.ops
  {
    var op := s.ops[id];
    && Shape(op)
    && HoldsGate(s, id, op)
    && Progress(s, op)
    && Closes(s, id, op)
    && OrderEntry(s, id, op)
    && Directions(s, op)
  }

  // ------------------------------------------------------------------ shared knowledge

  /** The bytes a call put on the wire. */
  function Part(ops: map<OpId, Op>, id: OpId): Bytes {
    if id in ops && ops[id].written <= |Payload(ops[id].call)|
    then Payload(ops[id].call)[..ops[id].written]
    else []
  }

  /** The contributions of a list of calls, one after the other. */
  function Contributions(ops: map<OpId, Op>, order: seq<OpId>): Bytes {
    if order == [] then []
    else Contributions(ops, order[..|order| - 1]) + Part(ops, order[|order| - 1])
  }

  /** A call that failed after putting some but not all of its buffer on the wire. */
  predicate Torn(op: Op) {
    op.pc.Finished? && op.pc.outcome.Broken? && op.written > 0
  }

  predicate CloseFlags(s: State) {
    && (CloseToken in s.flags ==> Closed in s.flags && ReadShut in s.flags && WriteShut in s.flags)
    && (ReadToken in s.flags ==> ReadShut in s.flags)
    && (SlotEmpty in s.flags ==> Closed in s.flags && CloseToken in s.flags && ReadToken in s.flags)
    && (Closed in s.flags <==> s.winner.Some?)
    && (s.winner.Some? ==> s.winner.value in s.ops)
    && (WireShut in s.flags ==> WriteShut in s.flags)
  }

  predicate Streams(s: State) {
    && s.delivered <= s.incoming
    && (PeerEof in s.flags ==> IncomingShut in s.flags && s.delivered == s.incoming)
    && (s.readGate.Some? ==> s.readGate.value in s.ops)
    && (s.writeGate.Some? ==> s.writeGate.value in s.ops)
  }

  predicate WriteOrder(s: State) {
    && (forall i :: 0 <= i < |s.order| ==> s.order[i] in s.ops)
    && (forall i, j :: 0 <= i < j < |s.order| ==> s.order[i] != s.order[j])
    && (forall i, j :: 0 <= i < j < |s.order| && Torn(s.ops[s.order[i]]) ==> Late in s.ops[s.order[j]].marks)
    && s.wire == Contributions(s.ops, s.order)
  }

  predicate Inv(s: State) {
    && CloseFlags(s)
    && Streams(s)
    && WriteOrder(s)
    && (forall id :: id in s.ops ==> OpInv(s, id))
  }

  // ------------------------------------------------------------------ guarantee

  function Actor(e: Event): Option<OpId> {
    if e.By? then Some(e.id) else None
  }

  /** One-way flags, the once-only winner, and streams that only grow. */
  predicate Monotone(s: State, t: State) {
    && s.flags - {Paused} <= t.flags
    && (s.winner.Some? ==> t.winner == s.winner)
    && s.order <= t.order
    && s.wire <= t.wire
    && s.incoming <= t.incoming
    && (IncomingShut in s.flags ==> IncomingShut in t.flags && t.incoming == s.incoming)
    && s.delivered <= t.delivered
  }

  predicate GateKept(before: Option<OpId>, after: Option<OpId>, me: Option<OpId>) {
    && (before.Some? && before != me ==> after == before)
    && (after.Some? && after != me ==> after == before)
  }

  /** Everything a step of `me` may do, as seen by any other call. */
  predicate Others(s: State, t: State, me: Option<OpId>) {
    && Monotone(s, t)
    && (forall id :: id in s.ops && Some(id) != me ==> id in t.ops && t.ops[id] == s.ops[id])
    && (forall id :: id in t.ops && Some(id) != me ==> id in s.ops)
    && (t.winner != s.winner ==> t.winner == me)
    && GateKept(s.readGate, t.readGate, me)
    && GateKept(s.writeGate, t.writeGate, me)
    && (s.readGate.Some? && s.readGate != me ==> t.delivered == s.delivered)
    && (s.writeGate.Some? && s.writeGate != me ==> t.wire == s.wire && t.order == s.order)
    && (t.order == s.order || (me.Some? && t.order == s.order + [me.value]))
    && (WireShut in t.flags && WireShut !in s.flags ==>
          s.writeGate == me || (SlotEmpty in s.flags && forall id :: id in s.ops ==> HoldsStream !in s.ops[id].marks))
  }

  // Each event satisfies the guarantee.

  lemma FinishOthers(s: State, id: OpId, outcome: Outcome)
    requires id in s.ops
    ensures Others(s, Finish(s, id, outcome), Some(id))
  {
  }

  lemma UpdateOthers(s: State, id: OpId, op: Op)
    ensures Others(s, Update(s, id, op), Some(id))
  {
  }

  lemma RaiseOthers(s: State, flag: Flag)
    requires flag == WireShut ==> SlotEmpty in s.flags && forall id :: id in s.ops ==> HoldsStream !in s.ops[id].marks
    ensures Others(s, Raise(s, flag), None)
  {
  }

  lemma LoadOthers(s: State, id: OpId)
    requires id in s.ops
    ensures Others(s, LoadTick(s, id), Some(id))
  {
    var op, done := s.ops[id], s.ops[id].pc;
    match done
    case LoadEof(pass) => FinishOthers(s, id, EndOfStream);
    case LoadClosed(pass) => UpdateOthers(s, id, op.(pc := AfterClosedCheck(op.call, pass)));
    case LoadPaused(pass) =>
    case LoadShut(pass) => UpdateOthers(s, id, op.(pc := AfterShutCheck(op.call, pass)));
    case _ =>
  }

  lemma StoreOthers(s: State, id: OpId)
    requires id in s.ops && OpInv(s, id)
    ensures Others(s, StoreTick(s, id), Some(id))
  {
  }

  lemma CloseOthers(s: State, id: OpId)
    requires id in s.ops && s.ops[id].pc.Closing? && CloseFlags(s)
    ensures Others(s, CloseTick(s, id, s.ops[id].pc.step, s.ops[id].pc.after), Some(id))
  {
    match s.ops[id].pc.step
    case Swap => SwapOthers(s, id, s.ops[id].pc.after);
    case TakeSlot => TakeOthers(s, id, s.ops[id].pc.after);
    case _ =>
  }

  lemma SwapOthers(s: State, id: OpId, after: Outcome)
    requires id in s.ops && CloseFlags(s)
    ensures Others(s, CloseTick(s, id, Swap, after), Some(id))
  {
  }

  lemma TakeOthers(s: State, id: OpId, after: Outcome)
    requires id in s.ops
    ensures Others(s, CloseTick(s, id, TakeSlot, after), Some(id))
  {
  }

  lemma TickOthers(s: State, id: OpId)
    requires id in s.ops && OpInv(s, id) && CloseFlags(s)
    ensures Others(s, TickAt(s, id), Some(id))
  {
    if s.ops[id].pc.Closing? {
      CloseOthers(s, id);
    } else if s.ops[id].pc.FetchSlot? {
    } else {
      LoadOthers(s, id);
      StoreOthers(s, id);
      assert TickAt(s, id) == LoadTick(s, id) || TickAt(s, id) == StoreTick(s, id);
    }
  }

  lemma GateOthers(s: State, id: OpId)
    requires id in s.ops && GateFree(s, s.ops[id].call)
    ensures Others(s, Acquire(s, id), Some(id))
  {
  }

  lemma WriteOthers(s: State, id: OpId, count: nat)
    requires Ready(s, id, IoWrite(count)) && s.writeGate == Some(id)
    ensures Others(s, Write(s, id, count), Some(id))
  {
  }

  lemma ReadOthers(s: State, id: OpId, count: nat)
    requires Ready(s, id, IoRead(count)) && s.readGate == Some(id) && s.delivered <= s.incoming
    ensures Others(s, Read(s, id, count), Some(id))
  {
  }

  lemma DoneOthers(s: State, id: OpId)
    requires Ready(s, id, IoDone) && OpInv(s, id)
    ensures Others(s, Act(s, id, IoDone), Some(id))
  {
    FinishOthers(s, id, Success);
  }

  lemma IoBrokeOthers(s: State, id: OpId)
    requires id in s.ops
    ensures Others(s, IoBroke(s, id), Some(id))
  {
    FinishOthers(s, id, IoError);
  }

  lemma InterruptOthers(s: State, id: OpId)
    requires id in s.ops
    ensures Others(s, Interrupt(s, id), Some(id))
  {
    FinishOthers(s, id, Broken(s.ops[id].written));
    FinishOthers(s, id, Refused(Interrupted));
  }

  lemma SelectOthers(s: State, id: OpId, action: Action)
    requires Ready(s, id, action) && !action.Begin? && OpInv(s, id) && Streams(s)
    requires !action.Tick? && !action.TakeGate? && !action.IoWrite? && !action.IoRead?
    ensures Others(s, Act(s, id, action), Some(id))
  {
    match action
    case SeeClose => InterruptOthers(s, id);
    case SeeReadShut => FinishOthers(s, id, Refused(Interrupted));
    case GateTimeout => FinishOthers(s, id, Refused(TimedOutWaiting));
    case IoDone => DoneOthers(s, id);
    case IoFail => IoBrokeOthers(s, id);
    case IoTimeout => IoBrokeOthers(s, id);
    case _ => FinishOthers(s, id, Dropped);
  }

  lemma ActOthers(s: State, id: OpId, action: Action)
    requires Inv(s) && Ready(s, id, action)
    ensures Others(s, Act(s, id, action), Some(id))
  {
    if action.Begin? {
      UpdateOthers(s, id, Op(action.call, Entry(action.call), 0, {}));
    } else {
      assert OpInv(s, id);
      match action
      case Tick => TickOthers(s, id);
      case TakeGate => GateOthers(s, id);
      case IoWrite(count) => WriteOthers(s, id, count);
      case IoRead(count) => ReadOthers(s, id, count);
      case _ => SelectOthers(s, id, action);
    }
  }

  lemma StepOthers(s: State, e: Event)
    requires Inv(s) && Enabled(s, e)
    ensures Others(s, Apply(s, e), Actor(e))
  {
    match e
    case By(id, action) => ActOthers(s, id, action);
    case Vanish => RaiseOthers(s, WireShut);
    case PeerShuts => RaiseOthers(s, IncomingShut);
    case PeerWrites(_) =>
  }

  // What a call knows survives the steps of everyone else.

  lemma StableResults(s: State, t: State, me: Option<OpId>, id: OpId)
    requires id in s.ops && OpInv(s, id) && Others(s, t, me) && Some(id) != me
    ensures id in t.ops && Progress(t, t.ops[id]) && Closes(t, id, t.ops[id])
  {
  }

  lemma StableGates(s: State, t: State, me: Option<OpId>, id: OpId)
    requires id in s.ops && OpInv(s, id) && Others(s, t, me) && Some(id) != me
    ensures id in t.ops && HoldsGate(t, id, t.ops[id]) && OrderEntry(t, id, t.ops[id]) && Directions(t, t.ops[id])
  {
  }

  lemma Stable(s: State, t: State, me: Option<OpId>, id: OpId)
    requires id in s.ops && OpInv(s, id) && Others(s, t, me) && Some(id) != me
    ensures id in t.ops && OpInv(t, id)
  {
    StableResults(s, t, me, id);
    StableGates(s, t, me, id);
  }

  // The acting call knows what its next program point asks for.

  lemma FinishOwn(s: State, id: OpId, outcome: Outcome)
    requires id in s.ops && OpInv(s, id)
    requires Result(s, s.ops[id], outcome) && s.winner != Some(id)
    requires Late in s.ops[id].marks ==> outcome == Refused(IsClosed)
    ensures id in Finish(s, id, outcome).ops && OpInv(Finish(s, id, outcome), id)
  {
  }

  lemma ClosedLoadOwn(s: State, id: OpId)
    requires id in s.ops && s.ops[id].pc.LoadClosed? && OpInv(s, id) && CloseFlags(s)
    ensures id in LoadTick(s, id).ops && OpInv(LoadTick(s, id), id)
  {
    if Closed in s.flags {
      FinishOwn(s, id, if IsIo(s.ops[id].call) then Refused(IsClosed) else Success);
    }
  }

  lemma ShutLoadOwn(s: State, id: OpId)
    requires id in s.ops && s.ops[id].pc.LoadShut? && OpInv(s, id) && CloseFlags(s)
    ensures id in LoadTick(s, id).ops && OpInv(LoadTick(s, id), id)
  {
    if DirectionFlag(s.ops[id].call) in s.flags {
      FinishOwn(s, id, if IsIo(s.ops[id].call) then Refused(DirectionShut) else Success);
    }
  }

  lemma LoadOwn(s: State, id: OpId)
    requires id in s.ops && OpInv(s, id) && CloseFlags(s)
    ensures id in LoadTick(s, id).ops && OpInv(LoadTick(s, id), id)
  {
    match s.ops[id].pc
    case LoadEof(_) =>
    case LoadClosed(_) => ClosedLoadOwn(s, id);
    case LoadPaused(_) =>
    case LoadShut(_) => ShutLoadOwn(s, id);
    case FetchClosed =>
    case _ =>
  }

  lemma StoreOwn(s: State, id: OpId)
    requires id in s.ops && OpInv(s, id) && CloseFlags(s)
    ensures id in StoreTick(s, id).ops && OpInv(StoreTick(s, id), id)
  {
    match s.ops[id].pc
    case StoreEof =>
    case StoreReadShut =>
    case CancelReadToken =>
    case StoreWriteShut =>
    case _ =>
  }

  lemma RaceOwn(s: State, id: OpId)
    requires id in s.ops && s.ops[id].pc.Closing? && OpInv(s, id) && CloseFlags(s)
    requires var step := s.ops[id].pc.step; step.Swap? || step.ClearPause? || step.SetReadShut? || step.SetWriteShut?
    ensures var t := CloseTick(s, id, s.ops[id].pc.step, s.ops[id].pc.after); id in t.ops && OpInv(t, id)
  {
    match s.ops[id].pc.step
    case Swap =>
    case SetWriteShut(_) =>
    case _ =>
  }

  lemma CloseOwn(s: State, id: OpId)
    requires id in s.ops && s.ops[id].pc.Closing? && OpInv(s, id) && CloseFlags(s)
    ensures var t := CloseTick(s, id, s.ops[id].pc.step, s.ops[id].pc.after); id in t.ops && OpInv(t, id)
  {
    match s.ops[id].pc.step
    case TakeSlot =>
    case CancelClose =>
    case CancelRead =>
    case _ => RaceOwn(s, id);
  }

  lemma SlotOwn(s: State, id: OpId)
    requires id in s.ops && s.ops[id].pc.FetchSlot? && OpInv(s, id) && CloseFlags(s)
    ensures id in SlotTick(s, id).ops && OpInv(SlotTick(s, id), id)
  {
  }

  lemma TickOwn(s: State, id: OpId)
    requires Ready(s, id, Tick) && OpInv(s, id) && CloseFlags(s)
    ensures id in TickAt(s, id).ops && OpInv(TickAt(s, id), id)
  {
    if s.ops[id].pc.Closing? {
      CloseOwn(s, id);
    } else if s.ops[id].pc.FetchSlot? {
      SlotOwn(s, id);
    } else {
      LoadOwn(s, id);
      StoreOwn(s, id);
      assert TickAt(s, id) == LoadTick(s, id) || TickAt(s, id) == StoreTick(s, id);
    }
  }

  lemma GateOwn(s: State, id: OpId)
    requires Ready(s, id, TakeGate) && OpInv(s, id) && CloseFlags(s)
    ensures id in Acquire(s, id).ops && OpInv(Acquire(s, id), id)
  {
  }

  lemma WriteOwn(s: State, id: OpId, count: nat)
    requires Ready(s, id, IoWrite(count)) && OpInv(s, id)
    ensures id in Write(s, id, count).ops && OpInv(Write(s, id, count), id)
  {
  }

  lemma ReadOwn(s: State, id: OpId, count: nat)
    requires Ready(s, id, IoRead(count)) && OpInv(s, id) && Streams(s)
    ensures id in Read(s, id, count).ops && OpInv(Read(s, id, count), id)
  {
  }

  lemma SelectOwn(s: State, id: OpId, action: Action)
    requires Ready(s, id, action) && !action.Begin? && OpInv(s, id) && CloseFlags(s)
    requires !action.Tick? && !action.TakeGate? && !action.IoWrite? && !action.IoRead?
    ensures id in Act(s, id, action).ops && OpInv(Act(s, id, action), id)
  {
    match action
    case SeeClose =>
    case SeeReadShut =>
    case GateTimeout =>
    case IoDone =>
    case IoFail =>
    case IoTimeout =>
    case _ =>
  }

  lemma BeginOwn(s: State, id: OpId, call: Call)
    requires Inv(s) && id !in s.ops
    ensures id in Act(s, id, Begin(call)).ops && OpInv(Act(s, id, Begin(call)), id)
  {
  }

  // The shared fields.

  /** A step of `id` that moves no bytes and takes no gate. */
  predicate Still(s: State, t: State, id: OpId)
    requires id in s.ops
  {
    && t.wire == s.wire && t.order == s.order && t.incoming == s.incoming && t.delivered == s.delivered
    && t.ops.Keys == s.ops.Keys
    && (forall other :: other in s.ops && other != id ==> t.ops[other] == s.ops[other])
    && t.ops[id].call == s.ops[id].call && t.ops[id].written == s.ops[id].written
    && (Late in t.ops[id].marks <==> Late in s.ops[id].marks)
    && (t.readGate == s.readGate || t.readGate.None?)
    && (t.writeGate == s.writeGate || t.writeGate.None?)
  }

  lemma FinishStill(s: State, id: OpId, outcome: Outcome)
    requires id in s.ops
    ensures Still(s, Finish(s, id, outcome), id) && Finish(s, id, outcome).flags == s.flags
    ensures Finish(s, id, outcome).winner == s.winner
  {
  }

  lemma MoveStill(s: State, id: OpId, pc: Point)
    requires id in s.ops
    ensures Still(s, Move(s, id, pc), id) && Move(s, id, pc).flags == s.flags
    ensures Move(s, id, pc).winner == s.winner
  {
  }

  lemma LoadStill(s: State, id: OpId)
    requires id in s.ops
    ensures Still(s, LoadTick(s, id), id) && LoadTick(s, id).flags == s.flags
    ensures LoadTick(s, id).winner == s.winner
  {
    var call := s.ops[id].call;
    match s.ops[id].pc
    case LoadEof(pass) => FinishStill(s, id, EndOfStream); MoveStill(s, id, LoadClosed(pass));
    case LoadClosed(pass) => FinishStill(s, id, if IsIo(call) then Refused(IsClosed) else Success);
      MoveStill(s, id, AfterClosedCheck(call, pass));
    case LoadPaused(pass) =>
    case LoadShut(pass) => FinishStill(s, id, if IsIo(call) then Refused(DirectionShut) else Success);
      MoveStill(s, id, AfterShutCheck(call, pass));
    case _ =>
  }

  lemma StoreStill(s: State, id: OpId)
    requires id in s.ops
    ensures Still(s, StoreTick(s, id), id) && StoreTick(s, id).winner == s.winner
    ensures s.flags - {Paused} <= StoreTick(s, id).flags
    ensures StoreTick(s, id).flags <=
            s.flags + (match s.ops[id].pc
                       case StoreEof => {PeerEof}
                       case StoreReadShut => {ReadShut}
                       case CancelReadToken => {ReadToken}
                       case StoreWriteShut => {WriteShut}
                       case _ => {Paused})
  {
    FinishStill(s, id, EndOfStream);
    FinishStill(s, id, Success);
    MoveStill(s, id, CancelReadToken);
    MoveStill(s, id, FetchClosed);
  }

  lemma CloseStill(s: State, id: OpId)
    requires id in s.ops && s.ops[id].pc.Closing?
    ensures Still(s, CloseTick(s, id, s.ops[id].pc.step, s.ops[id].pc.after), id)
  {
    var step, after := s.ops[id].pc.step, s.ops[id].pc.after;
    match step
    case TakeSlot =>
    case SetWriteShut(_) => FinishStill(s, id, after); MoveStill(s, id, Closing(CancelClose, after));
    case _ =>
  }

  lemma CloseFlagsTick(s: State, id: OpId)
    requires id in s.ops && s.ops[id].pc.Closing? && OpInv(s, id) && CloseFlags(s)
    ensures CloseFlags(CloseTick(s, id, s.ops[id].pc.step, s.ops[id].pc.after))
    ensures CloseTick(s, id, s.ops[id].pc.step, s.ops[id].pc.after).flags
            <= s.flags + {Closed, ReadShut, WriteShut, CloseToken, ReadToken, SlotEmpty}
  {
    match s.ops[id].pc.step
    case Swap =>
    case TakeSlot =>
    case SetWriteShut(_) =>
    case _ =>
  }

  lemma StillStreams(s: State, t: State, id: OpId)
    requires id in s.ops && Streams(s) && Still(s, t, id)
    requires IncomingShut in s.flags ==> IncomingShut in t.flags
    requires PeerEof in t.flags && PeerEof !in s.flags ==> IncomingShut in s.flags && s.delivered == s.incoming
    ensures Streams(t)
  {
  }

  lemma StoreShared(s: State, id: OpId)
    requires Ready(s, id, Tick) && OpInv(s, id) && CloseFlags(s) && Streams(s)
    ensures var t := StoreTick(s, id); Still(s, t, id) && CloseFlags(t) && Streams(t)
  {
    StoreStill(s, id);
    StillStreams(s, StoreTick(s, id), id);
  }

  lemma LoadShared(s: State, id: OpId)
    requires Ready(s, id, Tick) && CloseFlags(s) && Streams(s)
    ensures var t := LoadTick(s, id); Still(s, t, id) && CloseFlags(t) && Streams(t)
  {
    LoadStill(s, id);
    StillStreams(s, LoadTick(s, id), id);
  }

  lemma CloseShared(s: State, id: OpId)
    requires id in s.ops && s.ops[id].pc.Closing? && OpInv(s, id) && CloseFlags(s) && Streams(s)
    ensures var t := CloseTick(s, id, s.ops[id].pc.step, s.ops[id].pc.after);
            Still(s, t, id) && CloseFlags(t) && Streams(t)
  {
    CloseStill(s, id);
    CloseFlagsTick(s, id);
    CloseOthers(s, id);
    StillStreams(s, CloseTick(s, id, s.ops[id].pc.step, s.ops[id].pc.after), id);
  }

  lemma SlotShared(s: State, id: OpId)
    requires Ready(s, id, Tick) && CloseFlags(s) && Streams(s)
    ensures var t := SlotTick(s, id); Still(s, t, id) && CloseFlags(t) && Streams(t)
  {
  }

  lemma TickShared(s: State, id: OpId)
    requires Ready(s, id, Tick) && OpInv(s, id) && CloseFlags(s) && Streams(s)
    ensures Still(s, TickAt(s, id), id) && CloseFlags(TickAt(s, id)) && Streams(TickAt(s, id))
  {
    if s.ops[id].pc.Closing? {
      CloseShared(s, id);
    } else if s.ops[id].pc.FetchSlot? {
      SlotShared(s, id);
    } else {
      LoadShared(s, id);
      StoreShared(s, id);
      assert TickAt(s, id) == LoadTick(s, id) || TickAt(s, id) == StoreTick(s, id);
    }
  }

  lemma SelectShared(s: State, id: OpId, action: Action)
    requires Ready(s, id, action) && !action.Begin? && OpInv(s, id) && CloseFlags(s) && Streams(s)
    requires !action.Tick? && !action.TakeGate? && !action.IoWrite? && !action.IoRead?
    ensures var t := Act(s, id, action); Still(s, t, id) && CloseFlags(t) && Streams(t)
  {
    hide CloseFlags, Streams;
    var op := s.ops[id];
    match action
    case SeeClose =>
      FinishShared(s, id, Broken(op.written));
      FinishShared(s, id, Refused(Interrupted));
    case SeeReadShut => FinishShared(s, id, Refused(Interrupted));
    case GateTimeout => FinishShared(s, id, Refused(TimedOutWaiting));
    case IoDone => DoneShared(s, id);
    case IoFail => BrokeShared(s, id);
    case IoTimeout => BrokeShared(s, id);
    case _ => FinishShared(s, id, Dropped);
  }

  lemma FinishShared(s: State, id: OpId, outcome: Outcome)
    requires id in s.ops && CloseFlags(s) && Streams(s)
    ensures var t := Finish(s, id, outcome); Still(s, t, id) && CloseFlags(t) && Streams(t)
  {
    FinishStill(s, id, outcome);
  }

  lemma MoveShared(s: State, id: OpId, pc: Point)
    requires id in s.ops && CloseFlags(s) && Streams(s)
    ensures var t := Move(s, id, pc); Still(s, t, id) && CloseFlags(t) && Streams(t)
  {
    MoveStill(s, id, pc);
  }

  lemma DoneShared(s: State, id: OpId)
    requires Ready(s, id, IoDone) && OpInv(s, id) && CloseFlags(s) && Streams(s)
    ensures var t := Act(s, id, IoDone); Still(s, t, id) && CloseFlags(t) && Streams(t)
  {
    FinishStill(s, id, Success);
  }

  lemma BrokeShared(s: State, id: OpId)
    requires id in s.ops && CloseFlags(s) && Streams(s)
    ensures var t := IoBroke(s, id); Still(s, t, id) && CloseFlags(t) && Streams(t)
  {
    hide CloseFlags, Streams, Still;
    var op := s.ops[id];
    FinishShared(s, id, IoError);
    MoveShared(s, id, Closing(Swap, if op.call.Send? || op.call.SendTimeout? then Broken(op.written) else IoError));
  }

  lemma BeginShared(s: State, id: OpId, call: Call)
    requires CloseFlags(s) && Streams(s) && id !in s.ops
    ensures CloseFlags(Act(s, id, Begin(call))) && Streams(Act(s, id, Begin(call)))
  {
  }

  lemma GateShared(s: State, id: OpId)
    requires Ready(s, id, TakeGate) && CloseFlags(s) && Streams(s)
    ensures CloseFlags(Acquire(s, id)) && Streams(Acquire(s, id))
  {
  }

  lemma WriteShared(s: State, id: OpId, count: nat)
    requires Ready(s, id, IoWrite(count)) && CloseFlags(s) && Streams(s)
    ensures CloseFlags(Write(s, id, count)) && Streams(Write(s, id, count))
  {
  }

  lemma ReadShared(s: State, id: OpId, count: nat)
    requires Ready(s, id, IoRead(count)) && CloseFlags(s) && Streams(s)
    ensures CloseFlags(Read(s, id, count)) && Streams(Read(s, id, count))
  {
  }

  lemma {:induction false} ContributionsAgree(before: map<OpId, Op>, after: map<OpId, Op>, order: seq<OpId>)
    requires forall i :: 0 <= i < |order| ==> Part(after, order[i]) == Part(before, order[i])
    ensures Contributions(after, order) == Contributions(before, order)
  {
    if order != [] {
      ContributionsAgree(before, after, order[..|order| - 1]);
    }
  }

  lemma StillOrder(s: State, t: State, id: OpId)
    requires WriteOrder(s) && id in s.ops && OpInv(s, id) && Still(s, t, id)
    requires Torn(t.ops[id]) ==> Torn(s.ops[id]) || (InGate(s.ops[id]) && IsWriter(s.ops[id].call))
    ensures WriteOrder(t)
  {
    ContributionsAgree(s.ops, t.ops, s.order);
    forall i, j | 0 <= i < j < |t.order| && Torn(t.ops[t.order[i]]) ensures Late in t.ops[t.order[j]].marks {
      assert Torn(s.ops[s.order[i]]);
    }
  }

  /** Two states with the same write order, the same calls on it, and the same wire. */
  predicate SameOrder(s: State, t: State) {
    && t.order == s.order && t.wire == s.wire
    && forall id :: id in s.ops ==> id in t.ops && t.ops[id] == s.ops[id]
  }

  lemma SameOrderKept(s: State, t: State)
    requires WriteOrder(s) && SameOrder(s, t)
    ensures WriteOrder(t)
  {
    ContributionsAgree(s.ops, t.ops, s.order);
  }

  /** The order and wire after a data writer has taken the gate. */
  lemma OrderGrows(s: State, t: State, id: OpId)
    requires WriteOrder(s) && id in s.ops && id !in s.order && Part(t.ops, id) == []
    requires t.order == s.order + [id] && t.wire == s.wire && t.ops.Keys == s.ops.Keys
    requires forall other :: other in s.ops && other != id ==> t.ops[other] == s.ops[other]
    requires !Torn(t.ops[id])
    requires forall i :: 0 <= i < |s.order| && Torn(s.ops[s.order[i]]) ==> Late in t.ops[id].marks
    ensures WriteOrder(t)
  {
    hide Torn;
    assert t.order[..|t.order| - 1] == s.order && t.order[|s.order|] == id;
    ContributionsAgree(s.ops, t.ops, s.order);
    assert Contributions(t.ops, t.order) == Contributions(t.ops, s.order) + Part(t.ops, id);
  }

  /** The order and wire after the writer at the gate has put more bytes on the wire. */
  lemma OrderWrites(s: State, t: State, id: OpId, chunk: Bytes)
    requires WriteOrder(s) && s.order != [] && s.order[|s.order| - 1] == id
    requires t.order == s.order && t.wire == s.wire + chunk && t.ops.Keys == s.ops.Keys
    requires forall other :: other in s.ops && other != id ==> t.ops[other] == s.ops[other]
    requires Part(t.ops, id) == Part(s.ops, id) + chunk
    requires Late in s.ops[id].marks <==> Late in t.ops[id].marks
    ensures WriteOrder(t)
  {
    var init := s.order[..|s.order| - 1];
    ContributionsAgree(s.ops, t.ops, init);
    assert s.wire == Contributions(s.ops, init) + Part(s.ops, id);
    Associative(Contributions(s.ops, init), Part(s.ops, id), chunk);
    forall i, j | 0 <= i < j < |t.order| && Torn(t.ops[t.order[i]]) ensures Late in t.ops[t.order[j]].marks {
      assert s.order[i] != id;
    }
  }

  // Assembly.

  lemma TickOrder(s: State, id: OpId)
    requires WriteOrder(s) && Ready(s, id, Tick) && OpInv(s, id) && CloseFlags(s) && Streams(s)
    ensures WriteOrder(TickAt(s, id))
  {
    TickShared(s, id);
    TickOwn(s, id);
    StillOrder(s, TickAt(s, id), id);
  }

  lemma SelectOrder(s: State, id: OpId, action: Action)
    requires WriteOrder(s) && Ready(s, id, action) && !action.Begin? && OpInv(s, id) && CloseFlags(s) && Streams(s)
    requires !action.Tick? && !action.TakeGate? && !action.IoWrite? && !action.IoRead?
    ensures WriteOrder(Act(s, id, action))
  {
    SelectShared(s, id, action);
    SelectOwn(s, id, action);
    StillOrder(s, Act(s, id, action), id);
  }

  lemma WriterGateOrder(s: State, id: OpId)
    requires Inv(s) && Ready(s, id, TakeGate) && IsWriter(s.ops[id].call)
    ensures WriteOrder(Acquire(s, id))
  {
    var t := Acquire(s, id);
    assert OpInv(s, id);
    forall i | 0 <= i < |s.order| && Torn(s.ops[s.order[i]]) ensures Closed in s.flags {
      assert OpInv(s, s.order[i]);
    }
    OrderGrows(s, t, id);
  }

  lemma OtherGateOrder(s: State, id: OpId)
    requires WriteOrder(s) && Ready(s, id, TakeGate) && !IsWriter(s.ops[id].call) && OpInv(s, id)
    ensures WriteOrder(Acquire(s, id))
  {
    var pc := Acquire(s, id).ops[id].pc;
    MoveStill(s, id, pc);
    StillOrder(s, Move(s, id, pc), id);
    SameOrderKept(Move(s, id, pc), Acquire(s, id));
  }

  lemma WriteKeepsOrder(s: State, id: OpId, count: nat)
    requires WriteOrder(s) && Ready(s, id, IoWrite(count)) && OpInv(s, id)
    ensures WriteOrder(Write(s, id, count))
  {
    var op, data := s.ops[id], Payload(s.ops[id].call);
    if count == 0 {
      MoveStill(s, id, Closing(Swap, if op.call.WriteOnce? then IoError else Broken(op.written)));
      StillOrder(s, Write(s, id, count), id);
    } else {
      var chunk := data[op.written..op.written + count];
      assert data[..op.written + count] == data[..op.written] + chunk;
      OrderWrites(s, Write(s, id, count), id, chunk);
    }
  }

  lemma ReadKeepsOrder(s: State, id: OpId, count: nat)
    requires WriteOrder(s) && Ready(s, id, IoRead(count)) && OpInv(s, id)
    ensures WriteOrder(Read(s, id, count))
  {
    if count == 0 {
      MoveStill(s, id, StoreEof);
      StillOrder(s, Read(s, id, count), id);
    } else {
      var chunk := s.incoming[|s.delivered|..|s.delivered| + count];
      FinishStill(s, id, Chunk(chunk));
      StillOrder(s, Finish(s, id, Chunk(chunk)), id);
      SameOrderKept(Finish(s, id, Chunk(chunk)), Read(s, id, count));
    }
  }

  /** The shared fields are good and the acting call knows its new program point. */
  predicate Kept(t: State, id: OpId) {
    CloseFlags(t) && Streams(t) && WriteOrder(t) && id in t.ops && OpInv(t, id)
  }

  lemma BeginKept(s: State, id: OpId, call: Call)
    requires Inv(s) && Ready(s, id, Begin(call))
    ensures Kept(Act(s, id, Begin(call)), id)
  {
    BeginShared(s, id, call);
    BeginOwn(s, id, call);
    SameOrderKept(s, Act(s, id, Begin(call)));
  }

  lemma TickKept(s: State, id: OpId)
    requires Kept(s, id) && Ready(s, id, Tick)
    ensures Kept(TickAt(s, id), id)
  {
    TickShared(s, id);
    TickOwn(s, id);
    TickOrder(s, id);
  }

  lemma GateKeeps(s: State, id: OpId)
    requires Inv(s) && Ready(s, id, TakeGate)
    ensures Kept(Acquire(s, id), id)
  {
    assert OpInv(s, id);
    GateShared(s, id);
    GateOwn(s, id);
    if IsWriter(s.ops[id].call) {
      WriterGateOrder(s, id);
    } else {
      OtherGateOrder(s, id);
    }
  }

  lemma IoKept(s: State, id: OpId, action: Action)
    requires Kept(s, id) && Ready(s, id, action) && (action.IoWrite? || action.IoRead?)
    ensures Kept(Act(s, id, action), id)
  {
    match action
    case IoWrite(count) => WriteShared(s, id, count); WriteOwn(s, id, count); WriteKeepsOrder(s, id, count);
    case IoRead(count) => ReadShared(s, id, count); ReadOwn(s, id, count); ReadKeepsOrder(s, id, count);
  }

  lemma SelectKept(s: State, id: OpId, action: Action)
    requires Kept(s, id) && Ready(s, id, action) && !action.Begin?
    requires !action.Tick? && !action.TakeGate? && !action.IoWrite? && !action.IoRead?
    ensures Kept(Act(s, id, action), id)
  {
    SelectShared(s, id, action);
    SelectOwn(s, id, action);
    SelectOrder(s, id, action);
  }

  lemma ActKept(s: State, id: OpId, action: Action)
    requires Inv(s) && Ready(s, id, action)
    ensures Kept(Act(s, id, action), id)
  {
    if action.Begin? {
      BeginKept(s, id, action.call);
    } else if action.TakeGate? {
      GateKeeps(s, id);
    } else {
      assert OpInv(s, id);
      match action
      case Tick => TickKept(s, id);
      case IoWrite(_) => IoKept(s, id, action);
      case IoRead(_) => IoKept(s, id, action);
      case _ => SelectKept(s, id, action);
    }
  }

  lemma EnvironmentShared(s: State, e: Event)
    requires Inv(s) && Enabled(s, e) && !e.By?
    ensures var t := Apply(s, e); CloseFlags(t) && Streams(t) && WriteOrder(t)
  {
    SameOrderKept(s, Apply(s, e));
  }

  /** The invariant survives every event. */
  lemma StepInv(s: State, e: Event)
    requires Inv(s)
    ensures Inv(Step(s, e))
  {
    if Enabled(s, e) {
      var t := Apply(s, e);
      StepOthers(s, e);
      if e.By? {
        ActKept(s, e.id, e.action);
      } else {
        EnvironmentShared(s, e);
      }
      forall id | id in t.ops ensures OpInv(t, id) {
        if Some(id) != Actor(e) {
          Stable(s, t, Actor(e), id);
        }
      }
    }
  }

  /** The invariant holds after every run. */
  lemma {:induction false} RunInv(es: seq<Event>)
    ensures Inv(Run(es))
  {
    if es != [] {
      RunInv(es[..|es| - 1]);
      StepInv(Run(es[..|es| - 1]), es[|es| - 1]);
    }
  }
}
