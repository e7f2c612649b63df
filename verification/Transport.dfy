/**
 The transport core as a step machine.

 One state holds a connection's shared fields (flags, tokens, stream slot, gates), the program
 point of every call that was ever started on it, and a ghost account of the bytes that moved.
 One event is one atomic action: a load, a store, a swap, a lock acquisition, one branch of a
 `select!`, or one result of the operating system. A call is interrupted only between events, and
 an event that is not enabled changes nothing, so every list of events is a run.
 */
module Transport {
  import opened ByteStrings
  import opened Wrappers

  type OpId = nat

  datatype Call =
    | Receive(cap: nat)
    | WriteOnce(data: Bytes)
    | Send(data: Bytes)
    | SendTimeout(data: Bytes)
    | Flush
    | ShutdownRead
    | ShutdownWrite
    | Close
    | Pause
    | Resume

  datatype Refusal = IsClosed | IsPaused | DirectionShut | Interrupted | TimedOutWaiting

  /** What a call returned. `Broken` carries the byte count that the error message reports. */
  datatype Outcome =
    | Success
    | Wrote(count: nat)
    | Chunk(data: Bytes)
    | EndOfStream
    | Refused(why: Refusal)
    | Broken(reported: nat)
    | IoError
    | Dropped

  /** The result of the swap in a full close: only the first caller wins. */
  datatype Race = Won | Lost

  /** The atomic actions of a full close. */
  datatype CloseStep =
    | Swap
    | ClearPause(race: Race)
    | SetReadShut(race: Race)
    | SetWriteShut(race: Race)
    | CancelClose
    | CancelRead
    | TakeSlot

  /** Every availability check is made once on entry and once more under the gate. */
  datatype Pass = First | Again

  /** The next atomic action of a call. */
  datatype Point =
    | LoadEof(pass: Pass)
    | LoadClosed(pass: Pass)
    | LoadPaused(pass: Pass)
    | LoadShut(pass: Pass)
    | AwaitGate
    | FetchClosed
    | FetchSlot
    | AwaitIo
    | StoreEof
    | Closing(step: CloseStep, after: Outcome)
    | StoreReadShut
    | CancelReadToken
    | StoreWriteShut
    | StorePause
    | StoreResume
    | Finished(outcome: Outcome)

  datatype Mark = Late | HoldsStream

  /** One call: its program point, the bytes it put on the wire, and two marks: it took the write
      gate after the connection was closed, and it holds a reference to the stream. */
  datatype Op = Op(call: Call, pc: Point, written: nat, marks: set<Mark>)

  /** The atomic booleans and tokens, the emptied stream slot, and the two shut-down wires. */
  datatype Flag =
    | Closed
    | Paused
    | ReadShut
    | WriteShut
    | PeerEof
    | CloseToken
    | ReadToken
    | SlotEmpty
    | WireShut
    | IncomingShut

  /**
   The last five fields are a ghost account: who won the close, the order in which data writers took
   the write gate, all bytes the transport accepted, all bytes the peer's transport accepted, and the
   part of those that receives have returned.
   */
  datatype State = State(
    flags: set<Flag>,
    readGate: Option<OpId>,
    writeGate: Option<OpId>,
    ops: map<OpId, Op>,
    winner: Option<OpId>,
    order: seq<OpId>,
    wire: Bytes,
    incoming: Bytes,
    delivered: Bytes)

  const Init := State({}, None, None, map[], None, [], [], [], [])

  /** What one call may do next. */
  datatype Action =
    | Begin(call: Call)
    | Tick                  // the next load, store, swap or slot access
    | TakeGate              // the gate branch of a select, or a plain gate wait
    | SeeClose              // the close-token branch of a select
    | SeeReadShut           // the read-shutdown-token branch of a select
    | GateTimeout           // the deadline passed while waiting for the gate
    | IoWrite(count: nat)   // the write returned Ok(count)
    | IoRead(count: nat)    // the read returned Ok(count)
    | IoDone                // flush or shutdown returned Ok
    | IoFail                // the I/O call returned an error
    | IoTimeout             // the deadline passed inside the write loop
    | Drop                  // the future was dropped at an await point

  datatype Event =
    | By(id: OpId, action: Action)
    | Vanish                      // the last reference to the stream is gone
    | PeerWrites(bytes: Bytes)
    | PeerShuts

  // ------------------------------------------------------------------ classification of calls

  predicate IsWriter(call: Call) {
    call.WriteOnce? || call.Send? || call.SendTimeout?
  }

  function Payload(call: Call): Bytes {
    match call
    case WriteOnce(data) => data
    case Send(data) => data
    case SendTimeout(data) => data
    case _ => []
  }

  /** Calls that run `ensure_*_available` and may be refused. */
  predicate IsIo(call: Call) {
    IsWriter(call) || call.Receive? || call.Flush?
  }

  predicate UsesReadGate(call: Call) {
    call.Receive?
  }

  function Entry(call: Call): Point {
    match call
    case Receive(cap) => if cap == 0 then Finished(Chunk([])) else LoadEof(First)
    case WriteOnce(data) => if data == [] then Finished(Wrote(0)) else LoadClosed(First)
    case Send(data) => if data == [] then Finished(Success) else LoadClosed(First)
    case SendTimeout(data) => if data == [] then Finished(Success) else LoadClosed(First)
    case Close => Closing(Swap, Success)
    case _ => LoadClosed(First)
  }

  // ------------------------------------------------------------------ state updates

  function Update(s: State, id: OpId, op: Op): State {
    s.(ops := s.ops[id := op])
  }

  function Raise(s: State, flag: Flag): State {
    s.(flags := s.flags + {flag})
  }

  function Move(s: State, id: OpId, pc: Point): State
    requires id in s.ops
  {
    Update(s, id, s.ops[id].(pc := pc))
  }

  function Release(gate: Option<OpId>, id: OpId): Option<OpId> {
    if gate == Some(id) then None else gate
  }

  /** Return from the call: guards and the stream reference go out of scope. */
  function Finish(s: State, id: OpId, outcome: Outcome): State
    requires id in s.ops
  {
    var op := s.ops[id];
    s.(ops := s.ops[id := Op(op.call, Finished(outcome), op.written, op.marks - {HoldsStream})],
       readGate := Release(s.readGate, id),
       writeGate := Release(s.writeGate, id))
  }

  /** A check found the call impossible: I/O calls fail, the others are no-ops. */
  function Refuse(s: State, id: OpId, why: Refusal): State
    requires id in s.ops
  {
    Finish(s, id, if IsIo(s.ops[id].call) then Refused(why) else Success)
  }

  function DirectionFlag(call: Call): Flag {
    if call.Receive? || call.ShutdownRead? then ReadShut else WriteShut
  }

  function AfterClosedCheck(call: Call, pass: Pass): Point {
    match call
    case ShutdownRead => LoadShut(pass)
    case ShutdownWrite => LoadShut(pass)
    case Pause => StorePause
    case Resume => StoreResume
    case _ => LoadPaused(pass)
  }

  function AfterShutCheck(call: Call, pass: Pass): Point {
    if call.ShutdownRead? then StoreReadShut
    else if pass == First then AwaitGate
    else if call.ShutdownWrite? then StoreWriteShut
    else FetchClosed
  }

  function SwapClosed(s: State, id: OpId): State {
    if Closed in s.flags then s else s.(flags := s.flags + {Closed}, winner := Some(id))
  }

  function ClearPaused(s: State): State {
    s.(flags := s.flags - {Paused})
  }

  /** `state.close()` followed, for the winner, by the two cancellations and taking the slot. */
  function CloseTick(s: State, id: OpId, step: CloseStep, after: Outcome): State
    requires id in s.ops
  {
    match step
    case Swap =>
      SwapClosed(Move(s, id, Closing(ClearPause(if Closed in s.flags then Lost else Won), after)), id)
    case ClearPause(race) => ClearPaused(Move(s, id, Closing(SetReadShut(race), after)))
    case SetReadShut(race) => Raise(Move(s, id, Closing(SetWriteShut(race), after)), ReadShut)
    case SetWriteShut(race) =>
      Raise(if race == Won then Move(s, id, Closing(CancelClose, after)) else Finish(s, id, after), WriteShut)
    case CancelClose => Raise(Move(s, id, Closing(CancelRead, after)), CloseToken)
    case CancelRead => Raise(Move(s, id, Closing(TakeSlot, after)), ReadToken)
    case TakeSlot =>
      Raise(if s.ops[id].call.Close? && SlotEmpty !in s.flags
            then Update(s, id, s.ops[id].(pc := AwaitGate, marks := s.ops[id].marks + {HoldsStream}))
            else Finish(s, id, after),
            SlotEmpty)
  }

  /** One load, and the branch it decides. */
  function LoadTick(s: State, id: OpId): State
    requires id in s.ops
  {
    var call := s.ops[id].call;
    match s.ops[id].pc
    case LoadEof(pass) =>
      if PeerEof in s.flags then Finish(s, id, EndOfStream) else Move(s, id, LoadClosed(pass))
    case LoadClosed(pass) =>
      if Closed in s.flags then Refuse(s, id, IsClosed) else Move(s, id, AfterClosedCheck(call, pass))
    case LoadPaused(pass) =>
      if Paused in s.flags then Refuse(s, id, IsPaused) else Move(s, id, LoadShut(pass))
    case LoadShut(pass) =>
      if DirectionFlag(call) in s.flags then Refuse(s, id, DirectionShut)
      else Move(s, id, AfterShutCheck(call, pass))
    case FetchClosed =>
      if Closed in s.flags then Finish(s, id, Refused(IsClosed)) else Move(s, id, FetchSlot)
    case _ => s
  }

  /** One store or token cancellation outside the close protocol. */
  function StoreTick(s: State, id: OpId): State
    requires id in s.ops
  {
    match s.ops[id].pc
    case StoreEof => Raise(Finish(s, id, EndOfStream), PeerEof)
    case StoreReadShut => Raise(Move(s, id, CancelReadToken), ReadShut)
    case CancelReadToken => Raise(Finish(s, id, Success), ReadToken)
    case StoreWriteShut => Raise(Move(s, id, FetchClosed), WriteShut)
    case StorePause => Raise(Finish(s, id, Success), Paused)
    case StoreResume => ClearPaused(Finish(s, id, Success))
    case _ => s
  }

  /** Clone the stream reference out of the slot. */
  function SlotTick(s: State, id: OpId): State
    requires id in s.ops
  {
    if SlotEmpty in s.flags then Finish(s, id, Refused(IsClosed))
    else Update(s, id, s.ops[id].(pc := AwaitIo, marks := s.ops[id].marks + {HoldsStream}))
  }

  function TickAt(s: State, id: OpId): State
    requires id in s.ops
  {
    match s.ops[id].pc
    case Closing(step, after) => CloseTick(s, id, step, after)
    case FetchSlot => SlotTick(s, id)
    case StoreEof => StoreTick(s, id)
    case StoreReadShut => StoreTick(s, id)
    case CancelReadToken => StoreTick(s, id)
    case StoreWriteShut => StoreTick(s, id)
    case StorePause => StoreTick(s, id)
    case StoreResume => StoreTick(s, id)
    case _ => LoadTick(s, id)
  }

  /** The gate was granted. Data writers are entered in the write order here. */
  function Acquire(s: State, id: OpId): State
    requires id in s.ops
  {
    var op := s.ops[id];
    if op.call.Receive? then
      s.(ops := s.ops[id := op.(pc := LoadEof(Again))], readGate := Some(id))
    else if op.call.Close? then
      s.(ops := s.ops[id := op.(pc := AwaitIo)], writeGate := Some(id))
    else if IsWriter(op.call) then
      s.(ops := s.ops[id := op.(pc := LoadClosed(Again),
                                marks := if Closed in s.flags then op.marks + {Late} else op.marks)],
         writeGate := Some(id),
         order := s.order + [id])
    else
      s.(ops := s.ops[id := op.(pc := LoadClosed(Again))], writeGate := Some(id))
  }

  /** The transport accepted the next `count` bytes of the buffer. */
  function Accept(s: State, id: OpId, count: nat): State
    requires id in s.ops && s.ops[id].written + count <= |Payload(s.ops[id].call)|
  {
    var op := s.ops[id];
    s.(ops := s.ops[id := op.(written := op.written + count)],
       wire := s.wire + Payload(op.call)[op.written..op.written + count])
  }

  function Write(s: State, id: OpId, count: nat): State
    requires id in s.ops && s.ops[id].written + count <= |Payload(s.ops[id].call)|
  {
    var op := s.ops[id];
    if count == 0 then
      Move(s, id, Closing(Swap, if op.call.WriteOnce? then IoError else Broken(op.written)))
    else if op.call.WriteOnce? then
      Finish(Accept(s, id, count), id, Wrote(count))
    else if op.written + count == |Payload(op.call)| then
      Finish(Accept(s, id, count), id, Success)
    else
      Accept(s, id, count)
  }

  /** Hand out the next `count` incoming bytes. */
  function Consume(s: State, count: nat): State
    requires |s.delivered| + count <= |s.incoming|
  {
    s.(delivered := s.delivered + s.incoming[|s.delivered|..|s.delivered| + count])
  }

  function Read(s: State, id: OpId, count: nat): State
    requires id in s.ops && |s.delivered| + count <= |s.incoming|
  {
    if count == 0 then Move(s, id, StoreEof)
    else Finish(Consume(s, count), id, Chunk(s.incoming[|s.delivered|..|s.delivered| + count]))
  }

  /** Interrupted by the close token; inside the write loop the error reports the progress. */
  function Interrupt(s: State, id: OpId): State
    requires id in s.ops
  {
    var op := s.ops[id];
    Finish(s, id, if op.pc.AwaitIo? && (op.call.Send? || op.call.SendTimeout?)
                  then Broken(op.written) else Refused(Interrupted))
  }

  function IoBroke(s: State, id: OpId): State
    requires id in s.ops
  {
    var op := s.ops[id];
    if op.call.Close? then Finish(s, id, IoError)
    else Move(s, id, Closing(Swap, if op.call.Send? || op.call.SendTimeout? then Broken(op.written) else IoError))
  }

  // ------------------------------------------------------------------ the step function

  predicate At(s: State, id: OpId, pc: Point) {
    id in s.ops && s.ops[id].pc == pc
  }

  predicate GateFree(s: State, call: Call) {
    if UsesReadGate(call) then s.readGate.None? else s.writeGate.None?
  }

  predicate Ready(s: State, id: OpId, action: Action) {
    match action
    case Begin(_) => id !in s.ops
    case Tick =>
      id in s.ops && !s.ops[id].pc.AwaitGate? && !s.ops[id].pc.AwaitIo? && !s.ops[id].pc.Finished?
    case TakeGate => At(s, id, AwaitGate) && GateFree(s, s.ops[id].call)
    case SeeClose =>
      CloseToken in s.flags && (At(s, id, AwaitGate) || At(s, id, AwaitIo)) && IsIo(s.ops[id].call)
    case SeeReadShut =>
      ReadToken in s.flags && (At(s, id, AwaitGate) || At(s, id, AwaitIo)) && s.ops[id].call.Receive?
    case GateTimeout => At(s, id, AwaitGate) && s.ops[id].call.SendTimeout?
    case IoWrite(count) =>
      At(s, id, AwaitIo) && IsWriter(s.ops[id].call) &&
      s.ops[id].written + count <= |Payload(s.ops[id].call)|
    case IoRead(count) =>
      At(s, id, AwaitIo) && s.ops[id].call.Receive? && count <= s.ops[id].call.cap &&
      |s.delivered| + count <= |s.incoming| &&
      (count == 0 ==> IncomingShut in s.flags && |s.delivered| == |s.incoming|)
    case IoDone =>
      At(s, id, AwaitIo) && (s.ops[id].call.Flush? || s.ops[id].call.ShutdownWrite? || s.ops[id].call.Close?)
    case IoFail => At(s, id, AwaitIo)
    case IoTimeout => At(s, id, AwaitIo) && s.ops[id].call.SendTimeout?
    case Drop => At(s, id, AwaitGate) || At(s, id, AwaitIo)
  }

  predicate Enabled(s: State, e: Event) {
    match e
    case By(id, action) => Ready(s, id, action)
    case Vanish => SlotEmpty in s.flags && forall id :: id in s.ops ==> HoldsStream !in s.ops[id].marks
    case PeerWrites(_) => IncomingShut !in s.flags
    case PeerShuts => true
  }

  function Act(s: State, id: OpId, action: Action): State
    requires Ready(s, id, action)
  {
    match action
    case Begin(call) => Update(s, id, Op(call, Entry(call), 0, {}))
    case Tick => TickAt(s, id)
    case TakeGate => Acquire(s, id)
    case SeeClose => Interrupt(s, id)
    case SeeReadShut => Finish(s, id, Refused(Interrupted))
    case GateTimeout => Finish(s, id, Refused(TimedOutWaiting))
    case IoWrite(count) => Write(s, id, count)
    case IoRead(count) => Read(s, id, count)
    case IoDone =>
      if s.ops[id].call.Flush? then Finish(s, id, Success) else Raise(Finish(s, id, Success), WireShut)
    case IoFail => IoBroke(s, id)
    case IoTimeout => IoBroke(s, id)
    case Drop => Finish(s, id, Dropped)
  }

  function Apply(s: State, e: Event): State
    requires Enabled(s, e)
  {
    match e
    case By(id, action) => Act(s, id, action)
    case Vanish => Raise(s, WireShut)
    case PeerWrites(bytes) => Extend(s, bytes)
    case PeerShuts => Raise(s, IncomingShut)
  }

  function Extend(s: State, bytes: Bytes): State {
    s.(incoming := s.incoming + bytes)
  }

  function Step(s: State, e: Event): State {
    if Enabled(s, e) then Apply(s, e) else s
  }

  function RunFrom(s: State, es: seq<Event>): State {
    if es == [] then s else Step(RunFrom(s, es[..|es| - 1]), es[|es| - 1])
  }

  /** The state after a run: every list of events is one. */
  function Run(es: seq<Event>): State {
    RunFrom(Init, es)
  }
}
