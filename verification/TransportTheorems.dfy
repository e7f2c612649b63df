/**
 What the transport core promises, over all runs. A run is any list of events, so every
 interleaving, partial write, read chunking, pause, half-close, close and I/O error is covered.
 */
module TransportTheorems {
  import opened ByteStrings
  import opened Wrappers
  import opened Transport
  import opened TransportSafety

  // ------------------------------------------------------------------ runs continue

  lemma {:induction false} RunAppend(es: seq<Event>, more: seq<Event>)
    ensures Run(es + more) == RunFrom(Run(es), more)
  {
    if more == [] {
      assert es + more == es;
    } else {
      var last := |more| - 1;
      assert (es + more)[..|es + more| - 1] == es + more[..last];
      RunAppend(es, more[..last]);
    }
  }

  lemma {:induction false} RunFromInv(s: State, more: seq<Event>)
    requires Inv(s)
    ensures Inv(RunFrom(s, more))
  {
    if more != [] {
      RunFromInv(s, more[..|more| - 1]);
      StepInv(RunFrom(s, more[..|more| - 1]), more[|more| - 1]);
    }
  }

  /** No flag but the pause flag ever reverts, the winner of the close is chosen once, and the wire
      and both streams only grow. */
  lemma {:induction false} MonotoneOverRuns(es: seq<Event>, more: seq<Event>)
    ensures Monotone(Run(es), Run(es + more))
  {
    RunAppend(es, more);
    RunInv(es);
    MonotoneFrom(Run(es), more);
  }

  lemma {:induction false} MonotoneFrom(s: State, more: seq<Event>)
    requires Inv(s)
    ensures Monotone(s, RunFrom(s, more))
  {
    if more != [] {
      var t := RunFrom(s, more[..|more| - 1]);
      MonotoneFrom(s, more[..|more| - 1]);
      RunFromInv(s, more[..|more| - 1]);
      if Enabled(t, more[|more| - 1]) {
        StepOthers(t, more[|more| - 1]);
      }
    }
  }

  // ------------------------------------------------------------------ the write side

  /** What the caller of a finished data write knows about the bytes of that call on the wire. */
  predicate ContributionMatches(s: State, id: OpId)
    requires id in s.ops && s.ops[id].pc.Finished?
  {
    var call, part := s.ops[id].call, Part(s.ops, id);
    match s.ops[id].pc.outcome
    case Success => (call.Send? || call.SendTimeout?) ==> part == Payload(call)
    case Wrote(count) => count <= |Payload(call)| && part == Payload(call)[..count]
    case Refused(_) => part == []
    case IoError => part == [] && Closed in s.flags
    case Broken(reported) =>
      reported < |Payload(call)| && part == Payload(call)[..reported] && Closed in s.flags
    case Dropped => part <= Payload(call)
    case _ => part == []
  }

  /**
   Gate discipline. The wire is the concatenation, in the order in which the write gate was taken, of
   one contribution per call; only the last call in that order can still be running; and a call that
   failed inside its buffer is followed by silence.
   */
  lemma GateDiscipline(es: seq<Event>)
    ensures var s := Run(es);
      && s.wire == Contributions(s.ops, s.order)
      && (forall i, j :: 0 <= i < j < |s.order| ==> s.order[i] != s.order[j])
      && (forall id :: id in s.ops && Part(s.ops, id) != [] ==> id in s.order)
      && (forall i :: 0 <= i < |s.order| - 1 ==> s.order[i] in s.ops && s.ops[s.order[i]].pc.Finished?)
      && (forall id :: id in s.ops && s.ops[id].pc.Finished? ==> ContributionMatches(s, id))
      && (forall i :: 0 <= i < |s.order| && s.order[i] in s.ops && Torn(s.ops[s.order[i]]) ==>
            s.wire == Contributions(s.ops, s.order[..i + 1]))
  {
    RunInv(es);
    var s := Run(es);
    forall id | id in s.ops ensures (Part(s.ops, id) != [] ==> id in s.order)
      && (s.ops[id].pc.Finished? ==> ContributionMatches(s, id))
    {
      assert OpInv(s, id);
    }
    forall i | 0 <= i < |s.order| - 1 ensures s.ops[s.order[i]].pc.Finished? {
      assert OpInv(s, s.order[i]);
    }
    forall i | 0 <= i < |s.order| && Torn(s.ops[s.order[i]])
      ensures s.wire == Contributions(s.ops, s.order[..i + 1])
    {
      TornIsLast(s, i);
    }
  }

  lemma TornIsLast(s: State, i: nat)
    requires Inv(s) && i < |s.order| && Torn(s.ops[s.order[i]])
    ensures s.wire == Contributions(s.ops, s.order[..i + 1])
  {
    forall j | i < j < |s.order| ensures Part(s.ops, s.order[j]) == [] {
      assert OpInv(s, s.order[j]);
    }
    SilentTail(s.ops, s.order, i + 1);
  }

  lemma {:induction false} SilentTail(ops: map<OpId, Op>, order: seq<OpId>, from: nat)
    requires from <= |order|
    requires forall j :: from <= j < |order| ==> Part(ops, order[j]) == []
    ensures Contributions(ops, order) == Contributions(ops, order[..from])
  {
    if from == |order| {
      assert order[..from] == order;
    } else {
      SilentTail(ops, order[..|order| - 1], from);
      assert order[..|order| - 1][..from] == order[..from];
    }
  }

  /**
   Safe retry. When `send` or `send_timeout` has returned an error, either no byte of the call is on
   the wire, or the connection is closed and the reported count is exactly what is on the wire; so an
   open connection after an error means that nothing of this call was written.
   */
  lemma SafeRetry(es: seq<Event>, id: OpId)
    requires id in Run(es).ops && (Run(es).ops[id].call.Send? || Run(es).ops[id].call.SendTimeout?)
    requires Run(es).ops[id].pc.Finished? && !Run(es).ops[id].pc.outcome.Success?
    requires !Run(es).ops[id].pc.outcome.Dropped?
    ensures var s := Run(es);
      && (Closed !in s.flags ==> Part(s.ops, id) == [])
      && (Part(s.ops, id) != [] ==> s.ops[id].pc.outcome == Broken(|Part(s.ops, id)|))
      && (s.ops[id].pc.outcome.Broken? ==> Closed in s.flags && |Part(s.ops, id)| == s.ops[id].pc.outcome.reported)
  {
    RunInv(es);
    assert OpInv(Run(es), id);
  }

  /** Without dropped futures a partial contribution of a full-buffer send is the end of the wire: behind those
      of the calls that took the gate before. Its call still holds the gate, or the connection is closed. */
  lemma PartialMeansLast(es: seq<Event>, id: OpId)
    requires forall e :: e in es && e.By? ==> !e.action.Drop?
    requires id in Run(es).ops && (Run(es).ops[id].call.Send? || Run(es).ops[id].call.SendTimeout?)
    requires 0 < Run(es).ops[id].written < |Payload(Run(es).ops[id].call)|
    ensures var s := Run(es);
      && id in s.order
      && (if s.ops[id].pc.Finished? then Closed in s.flags else s.writeGate == Some(id))
      && exists i :: 0 <= i < |s.order| && s.order[i] == id
           && s.wire == Contributions(s.ops, s.order[..i]) + Part(s.ops, id)
  {
    RunInv(es);
    NeverDropped(es, id);
    PartialEnds(Run(es), id);
  }

  lemma PartialEnds(s: State, id: OpId)
    requires Inv(s) && id in s.ops && (s.ops[id].call.Send? || s.ops[id].call.SendTimeout?)
    requires 0 < s.ops[id].written < |Payload(s.ops[id].call)| && NotDropped(s.ops[id])
    ensures id in s.order && if s.ops[id].pc.Finished? then Closed in s.flags else s.writeGate == Some(id)
    ensures exists i :: 0 <= i < |s.order| && s.order[i] == id
              && s.wire == Contributions(s.ops, s.order[..i]) + Part(s.ops, id)
  {
    assert OpInv(s, id);
    var i :| 0 <= i < |s.order| && s.order[i] == id;
    if s.ops[id].pc.Finished? {
      TornIsLast(s, i);
    } else {
      assert s.order[..i + 1] == s.order;
    }
    assert s.order[..i + 1][..i] == s.order[..i];
    assert Contributions(s.ops, s.order[..i]) + Part(s.ops, id) == s.wire;
  }

  predicate NotDropped(op: Op) {
    && op.pc != Finished(Dropped)
    && (op.pc.Closing? ==> !op.pc.after.Dropped?)
  }

  lemma {:induction false} NeverDropped(es: seq<Event>, id: OpId)
    requires forall e :: e in es && e.By? ==> !e.action.Drop?
    requires id in Run(es).ops
    ensures NotDropped(Run(es).ops[id])
  {
    if es != [] {
      var init, e := es[..|es| - 1], es[|es| - 1];
      var s := Run(init);
      if id in s.ops {
        NeverDropped(init, id);
      }
      RunInv(init);
      if Enabled(s, e) {
        StepOthers(s, e);
        if e.By? && e.id == id {
          ActNotDropped(s, id, e.action);
        }
      }
    }
  }

  lemma ActNotDropped(s: State, id: OpId, action: Action)
    requires Ready(s, id, action) && !action.Drop?
    requires id in s.ops ==> NotDropped(s.ops[id])
    ensures id in Act(s, id, action).ops && NotDropped(Act(s, id, action).ops[id])
  {
    if action.Tick? {
      TickNotDropped(s, id);
    }
  }

  lemma TickNotDropped(s: State, id: OpId)
    requires Ready(s, id, Tick) && NotDropped(s.ops[id])
    ensures id in TickAt(s, id).ops && NotDropped(TickAt(s, id).ops[id])
  {
    if s.ops[id].pc.Closing? {
      match s.ops[id].pc.step
      case SetWriteShut(_) =>
      case TakeSlot =>
      case _ =>
    } else {
      assert TickAt(s, id) == LoadTick(s, id) || TickAt(s, id) == StoreTick(s, id) || TickAt(s, id) == SlotTick(s, id);
    }
  }

  /**
   Silence after closure, a bound. Once the connection is closed, the wire can grow only by bytes of the data
   writer that held the write gate at that moment, and only by bytes of its own buffer. When such a writer can
   still write, and that it does in some run, is in `WireGrowth`.
   */
  lemma {:induction false} ClosedWire(es: seq<Event>, more: seq<Event>)
    requires Closed in Run(es).flags
    ensures Run(es).wire <= Run(es + more).wire
    ensures Run(es + more).wire != Run(es).wire ==>
      exists id :: HolderAdded(Run(es), Run(es + more), id)
    ensures forall id :: id in Run(es + more).ops && id !in Run(es).order ==> Part(Run(es + more).ops, id) == []
  {
    RunInv(es);
    RunAppend(es, more);
    ClosedWireFrom(Run(es), more);
    var t := Run(es + more);
    RunInv(es + more);
    forall id | id in t.ops && id !in Run(es).order ensures Part(t.ops, id) == [] {
      assert OpInv(t, id);
    }
  }

  predicate WriterAtGate(s: State, id: OpId) {
    s.writeGate == Some(id) && id in s.ops && IsWriter(s.ops[id].call)
  }

  /** The wire of `t` is that of `s` plus what the writer at the gate of `s` has added. */
  predicate HolderAdded(s: State, t: State, id: OpId) {
    && WriterAtGate(s, id)
    && id in t.ops && t.ops[id].call == s.ops[id].call
    && s.ops[id].written <= t.ops[id].written <= |Payload(s.ops[id].call)|
    && t.wire == s.wire + Payload(s.ops[id].call)[s.ops[id].written..t.ops[id].written]
  }

  /** What has happened since a closed state `s`. */
  ghost predicate SinceClosed(s: State, t: State) {
    && Closed in t.flags
    && s.order <= t.order
    && (forall i :: |s.order| <= i < |t.order| ==> t.order[i] in t.ops && Late in t.ops[t.order[i]].marks)
    && (forall id :: id in s.ops ==> id in t.ops)
    && (forall id :: id in s.ops && s.ops[id].pc.Finished? ==> t.ops[id].pc.Finished?)
    && (forall id :: WriterAtGate(s, id) ==> HolderAdded(s, t, id))
    && ((forall id :: !WriterAtGate(s, id)) ==> t.wire == s.wire)
  }

  lemma {:induction false} ClosedWireFrom(s: State, more: seq<Event>)
    requires Inv(s) && Closed in s.flags
    ensures SinceClosed(s, RunFrom(s, more))
  {
    if more == [] {
      if s.writeGate.Some? {
        assert OpInv(s, s.writeGate.value);
      }
    } else {
      var t, e := RunFrom(s, more[..|more| - 1]), more[|more| - 1];
      ClosedWireFrom(s, more[..|more| - 1]);
      RunFromInv(s, more[..|more| - 1]);
      if Enabled(t, e) {
        ClosedStep(s, t, e);
      }
    }
  }

  lemma ClosedStep(s: State, t: State, e: Event)
    requires WriteOrder(s) && (forall other :: other in s.ops ==> OpInv(s, other)) && SinceClosed(s, t)
    requires Inv(t) && Enabled(t, e)
    ensures SinceClosed(s, Apply(t, e))
  {
    if e.By? && e.action.IoWrite? && e.action.count > 0 {
      assert OpInv(t, e.id);
      ClosedWrite(s, t, e.id, e.action.count);
    } else if e.By? && e.action.TakeGate? {
      ClosedGate(s, t, e.id);
    } else {
      StepFreezes(t, e);
      FrozenSince(s, t, Apply(t, e));
    }
  }

  lemma FrozenSince(s: State, t: State, u: State)
    requires SinceClosed(s, t) && Frozen(t, u)
    ensures SinceClosed(s, u)
  {
    forall id | WriterAtGate(s, id) ensures HolderAdded(s, u, id) {
      assert HolderAdded(s, t, id);
    }
  }

  /** Wire, write order, and the progress of every call are the same. */
  predicate Frozen(t: State, u: State) {
    && t.flags - {Paused} <= u.flags
    && u.wire == t.wire && u.order == t.order
    && forall id :: id in t.ops ==>
         && id in u.ops && u.ops[id].call == t.ops[id].call && u.ops[id].written == t.ops[id].written
         && (Late in t.ops[id].marks <==> Late in u.ops[id].marks)
         && (t.ops[id].pc.Finished? ==> u.ops[id].pc.Finished?)
  }

  /** Every event but a write and a gate grant freezes the write side. */
  lemma StepFreezes(t: State, e: Event)
    requires Inv(t) && Enabled(t, e)
    requires e.By? ==> !e.action.TakeGate? && !(e.action.IoWrite? && e.action.count > 0)
    ensures Frozen(t, Apply(t, e))
  {
    StepOthers(t, e);
    if e.By? && !e.action.Begin? {
      assert OpInv(t, e.id);
      ActFreezes(t, e.id, e.action);
    }
  }

  lemma ActFreezes(t: State, id: OpId, action: Action)
    requires Kept(t, id) && Ready(t, id, action) && !action.Begin? && !action.TakeGate?
    requires !(action.IoWrite? && action.count > 0)
    ensures var u := Act(t, id, action);
      && u.wire == t.wire && u.order == t.order
      && id in u.ops && u.ops[id].call == t.ops[id].call && u.ops[id].written == t.ops[id].written
      && (Late in t.ops[id].marks <==> Late in u.ops[id].marks)
  {
    match action
    case Tick => TickShared(t, id);
    case IoWrite(_) =>
    case IoRead(_) =>
    case _ => SelectShared(t, id, action);
  }

  lemma ClosedGate(s: State, t: State, id: OpId)
    requires Ready(t, id, TakeGate) && SinceClosed(s, t)
    ensures SinceClosed(s, Acquire(t, id))
  {
  }

  /** The whole effect of a successful write. */
  lemma WriteEffect(t: State, id: OpId, count: nat)
    requires Ready(t, id, IoWrite(count)) && count > 0
    ensures var u, data, from := Write(t, id, count), Payload(t.ops[id].call), t.ops[id].written;
      && u.wire == t.wire + data[from..from + count] && u.order == t.order && u.flags == t.flags
      && u.ops.Keys == t.ops.Keys
      && u.ops[id].call == t.ops[id].call && u.ops[id].written == from + count
      && (forall other :: other in t.ops && other != id ==> u.ops[other] == t.ops[other])
      && (Late in u.ops[id].marks <==> Late in t.ops[id].marks)
  {
  }

  lemma ClosedWrite(s: State, t: State, id: OpId, count: nat)
    requires WriteOrder(s) && (forall other :: other in s.ops ==> OpInv(s, other)) && SinceClosed(s, t)
    requires Ready(t, id, IoWrite(count)) && count > 0 && OpInv(t, id)
    ensures SinceClosed(s, Write(t, id, count))
  {
    WriterIsHolder(s, t, id);
    WriteEffect(t, id, count);
    HolderAdds(s, t, Write(t, id, count), id, count);
  }

  lemma HolderAdds(s: State, t: State, u: State, id: OpId, count: nat)
    requires SinceClosed(s, t) && WriterAtGate(s, id) && id in t.ops && t.ops[id].pc.AwaitIo?
    requires t.ops[id].written + count <= |Payload(t.ops[id].call)|
    requires u.wire == t.wire + Payload(t.ops[id].call)[t.ops[id].written..t.ops[id].written + count]
    requires u.order == t.order && u.flags == t.flags && u.ops.Keys == t.ops.Keys
    requires u.ops[id].call == t.ops[id].call && u.ops[id].written == t.ops[id].written + count
    requires forall other :: other in t.ops && other != id ==> u.ops[other] == t.ops[other]
    requires Late in u.ops[id].marks <==> Late in t.ops[id].marks
    ensures SinceClosed(s, u)
  {
    assert HolderAdded(s, t, id);
    var data, from := Payload(t.ops[id].call), t.ops[id].written;
    assert data[s.ops[id].written..from] + data[from..from + count] == data[s.ops[id].written..from + count];
    assert HolderAdded(s, u, id);
  }

  lemma WriterIsHolder(s: State, t: State, id: OpId)
    requires WriteOrder(s) && (forall other :: other in s.ops ==> OpInv(s, other)) && SinceClosed(s, t)
    requires id in t.ops && t.ops[id].pc.AwaitIo? && IsWriter(t.ops[id].call) && OpInv(t, id)
    ensures WriterAtGate(s, id)
  {
    var last := |t.order| - 1;
    assert t.order[last] == id && Late !in t.ops[id].marks;
    assert last < |s.order| && s.order[last] == id;
    assert OpInv(s, id);
  }

  /** What a core step leaves alone in a call. */
  predicate CallKept(before: Op, after: Op) {
    && after.call == before.call && before.written <= after.written
    && (before.pc.Finished? ==> after == before)
    && (NotDropped(before) ==> NotDropped(after))
  }

  lemma ActKeepsCall(core: State, op: OpId, action: Action)
    requires Kept(core, op) && Ready(core, op, action) && !action.Begin? && !action.Drop?
    ensures op in Act(core, op, action).ops && CallKept(core.ops[op], Act(core, op, action).ops[op])
  {
    if NotDropped(core.ops[op]) {
      ActNotDropped(core, op, action);
    }
    if action.IoWrite? && action.count > 0 {
      WriteEffect(core, op, action.count);
    } else if !action.TakeGate? {
      ActFreezes(core, op, action);
    }
  }

  lemma CoreKeepsCalls(core: State, e: Event)
    requires Inv(core) && Enabled(core, e)
    ensures var next := Apply(core, e);
      && (forall op :: op in core.ops && !(e.By? && e.id == op && e.action.Drop?) ==>
            op in next.ops && CallKept(core.ops[op], next.ops[op]))
      && (forall op :: op in next.ops && op !in core.ops ==>
            e.By? && e.id == op && e.action.Begin? && next.ops[op].call == e.action.call)
  {
    StepOthers(core, e);
    if e.By? && e.id in core.ops && !e.action.Drop? {
      assert OpInv(core, e.id);
      ActKeepsCall(core, e.id, e.action);
    }
  }

  lemma CoreCallsSame(core: State, e: Event)
    requires Inv(core) && Enabled(core, e)
    ensures forall op :: op in core.ops ==> op in Apply(core, e).ops && Apply(core, e).ops[op].call == core.ops[op].call
  {
    StepOthers(core, e);
    if e.By? && e.action.Drop? {
    } else {
      CoreKeepsCalls(core, e);
    }
  }

  // ------------------------------------------------------------------ the close protocol

  /**
   At the granularity of single atomic operations: a connection is closed exactly when one caller
   has won the swap; an empty slot or a cancelled close token implies closed; a cancelled read token
   implies read shutdown; and once the winner is past the synchronous part of `close`, the slot is
   empty and both tokens are cancelled.
   */
  lemma CloseProtocol(es: seq<Event>)
    ensures var s := Run(es);
      && (Closed in s.flags <==> s.winner.Some?)
      && (SlotEmpty in s.flags || CloseToken in s.flags ==> Closed in s.flags && WriteShut in s.flags)
      && (ReadToken in s.flags ==> ReadShut in s.flags)
      && (s.winner.Some? && s.winner.value in s.ops && !s.ops[s.winner.value].pc.Closing? ==>
            SlotEmpty in s.flags && CloseToken in s.flags && ReadToken in s.flags)
      && (forall id :: id in s.ops && s.ops[id].pc.Closing? && RaceOf(s.ops[id].pc.step) == Some(Won) ==>
            s.winner == Some(id))
  {
    RunInv(es);
    var s := Run(es);
    forall id | id in s.ops && s.ops[id].pc.Closing? && RaceOf(s.ops[id].pc.step) == Some(Won)
      ensures s.winner == Some(id)
    {
      assert OpInv(s, id);
    }
    if s.winner.Some? && s.winner.value in s.ops {
      assert OpInv(s, s.winner.value);
    }
  }

  /** The result of the swap as the closing call remembers it. */
  function RaceOf(step: CloseStep): Option<Race> {
    match step
    case Swap => None
    case ClearPause(race) => Some(race)
    case SetReadShut(race) => Some(race)
    case SetWriteShut(race) => Some(race)
    case _ => Some(Won)
  }

  /** A shut-down wire never grows again: what the peer sees before end of stream is everything. */
  lemma {:induction false} SealedWire(es: seq<Event>, more: seq<Event>)
    requires WireShut in Run(es).flags
    ensures Run(es + more).wire == Run(es).wire
  {
    if more == [] {
      assert es + more == es;
    } else {
      var init, e := more[..|more| - 1], more[|more| - 1];
      SealedWire(es, init);
      MonotoneOverRuns(es, init);
      assert WireShut in Run(es + init).flags;
      assert (es + more)[..|es + more| - 1] == es + init;
      RunInv(es + init);
      hide Inv, Step, Monotone;
      SealedStep(Run(es + init), e);
    }
  }

  lemma SealedStep(s: State, e: Event)
    requires Inv(s) && WireShut in s.flags
    ensures Step(s, e).wire == s.wire && WireShut in Step(s, e).flags
  {
    if Enabled(s, e) {
      NoWriteOnShutWire(s, e);
      StepOthers(s, e);
      if !(e.By? && e.action.TakeGate?) {
        StepFreezes(s, e);
      }
    }
  }

  lemma NoWriteOnShutWire(s: State, e: Event)
    requires Inv(s) && WireShut in s.flags && Enabled(s, e)
    ensures !(e.By? && e.action.IoWrite?)
  {
    if e.By? && e.id in s.ops {
      assert OpInv(s, e.id);
    }
  }

  /** The points between the last availability check of a data writer and its writes. */
  predicate MayWrite(op: Op) {
    IsWriter(op.call) && (op.pc == FetchClosed || op.pc == FetchSlot || op.pc == AwaitIo)
  }

  /** The send direction is shut and no data writer has passed its checks. */
  predicate Barred(s: State) {
    WriteShut in s.flags && forall id :: id in s.ops ==> !MayWrite(s.ops[id])
  }

  /**
   `shutdown_write` is a barrier. It marks the direction under the write gate: at that moment every data
   write that had taken the gate before has returned, and from then on no byte is ever added to the wire.
   */
  lemma ShutdownIsBarrier(es: seq<Event>, id: OpId, more: seq<Event>)
    requires At(Run(es), id, StoreWriteShut)
    ensures forall i :: 0 <= i < |Run(es).order| ==>
      Run(es).order[i] in Run(es).ops && Run(es).ops[Run(es).order[i]].pc.Finished?
    ensures Run(es + [By(id, Tick)] + more).wire == Run(es).wire
  {
    RunInv(es);
    BarrierStands(Run(es), id);
    assert (es + [By(id, Tick)])[..|es|] == es;
    RunInv(es + [By(id, Tick)]);
    RunAppend(es + [By(id, Tick)], more);
    BarredFrom(Run(es + [By(id, Tick)]), more);
  }

  lemma BarrierStands(s: State, id: OpId)
    requires Inv(s) && At(s, id, StoreWriteShut)
    ensures forall i :: 0 <= i < |s.order| ==> s.order[i] in s.ops && s.ops[s.order[i]].pc.Finished?
    ensures Barred(Step(s, By(id, Tick))) && Step(s, By(id, Tick)).wire == s.wire
  {
    assert OpInv(s, id);
    forall i | 0 <= i < |s.order| ensures s.order[i] in s.ops && s.ops[s.order[i]].pc.Finished? {
      assert OpInv(s, s.order[i]);
    }
    forall other | other in s.ops ensures !MayWrite(s.ops[other]) {
      assert OpInv(s, other);
    }
  }

  lemma {:induction false} BarredFrom(s: State, more: seq<Event>)
    requires Inv(s) && Barred(s)
    ensures Inv(RunFrom(s, more)) && Barred(RunFrom(s, more)) && RunFrom(s, more).wire == s.wire
  {
    hide Inv, Barred, Step;
    if more != [] {
      BarredFrom(s, more[..|more| - 1]);
      StepInv(RunFrom(s, more[..|more| - 1]), more[|more| - 1]);
      BarredStep(RunFrom(s, more[..|more| - 1]), more[|more| - 1]);
    }
  }

  lemma BarredStep(s: State, e: Event)
    requires Inv(s) && Barred(s)
    ensures Barred(Step(s, e)) && Step(s, e).wire == s.wire
  {
    hide Act;
    if Enabled(s, e) {
      StepOthers(s, e);
      if e.By? {
        if e.id in s.ops {
          assert OpInv(s, e.id);
        }
        BarredAct(s, e.id, e.action);
      }
    }
  }

  lemma BarredAct(s: State, id: OpId, action: Action)
    requires Ready(s, id, action) && WriteShut in s.flags && (id in s.ops ==> !MayWrite(s.ops[id]) && OpInv(s, id))
    ensures var t := Act(s, id, action); id in t.ops && !MayWrite(t.ops[id]) && t.wire == s.wire
  {
    match action
    case Tick => BarredTick(s, id);
    case _ =>
  }

  lemma BarredTick(s: State, id: OpId)
    requires Ready(s, id, Tick) && WriteShut in s.flags && !MayWrite(s.ops[id]) && Shape(s.ops[id])
    ensures var t := TickAt(s, id); id in t.ops && !MayWrite(t.ops[id]) && t.wire == s.wire
  {
    if s.ops[id].pc.Closing? {
      match s.ops[id].pc.step
      case SetWriteShut(_) =>
      case TakeSlot =>
      case _ =>
    } else {
      assert TickAt(s, id) == LoadTick(s, id) || TickAt(s, id) == StoreTick(s, id) || TickAt(s, id) == SlotTick(s, id);
    }
  }

  // ------------------------------------------------------------------ the read side

  /** Chunks come off the incoming stream in order and without gaps; end of stream is reported only
      when everything the peer's transport accepted has been delivered and no more can come. */
  lemma OrderedReads(es: seq<Event>)
    ensures var s := Run(es);
      && s.delivered <= s.incoming
      && (PeerEof in s.flags ==> IncomingShut in s.flags && s.delivered == s.incoming)
      && (forall id :: id in s.ops && s.ops[id].pc == Finished(EndOfStream) ==>
            PeerEof in s.flags && s.delivered == s.incoming)
  {
    RunInv(es);
    var s := Run(es);
    forall id | id in s.ops && s.ops[id].pc == Finished(EndOfStream) ensures PeerEof in s.flags {
      assert OpInv(s, id);
    }
  }

  /** A read that returns data returns exactly the next bytes, at least one, at most the buffer. */
  lemma ReadReturnsNext(es: seq<Event>, id: OpId, count: nat)
    requires Ready(Run(es), id, IoRead(count)) && count > 0
    ensures var s, t := Run(es), Run(es + [By(id, IoRead(count))]);
      && id in t.ops && t.ops[id].pc.Finished? && t.ops[id].pc.outcome.Chunk?
      && t.delivered == s.delivered + t.ops[id].pc.outcome.data
      && 0 < |t.ops[id].pc.outcome.data| <= s.ops[id].call.cap
      && t.delivered <= t.incoming && t.flags == s.flags
  {
    var e := By(id, IoRead(count));
    assert (es + [e])[..|es|] == es;
    RunInv(es);
  }

  predicate Reads(e: Event) {
    e.By? && e.action.IoRead? && e.action.count > 0
  }

  predicate ReturnedChunk(op: Op) {
    op.pc.Finished? && op.pc.outcome.Chunk?
  }

  /** Only a read result moves the incoming stream and returns a chunk. */
  lemma QuietReads(s: State, e: Event)
    requires Inv(s) && Enabled(s, e) && !Reads(e)
    ensures Apply(s, e).delivered == s.delivered
    ensures forall id :: id in s.ops && !s.ops[id].pc.Finished? ==>
      id in Apply(s, e).ops && !ReturnedChunk(Apply(s, e).ops[id])
  {
    StepOthers(s, e);
    if e.By? && !e.action.Begin? {
      assert OpInv(s, e.id);
      ActQuietReads(s, e.id, e.action);
    }
  }

  lemma ActQuietReads(s: State, id: OpId, action: Action)
    requires Kept(s, id) && Ready(s, id, action) && !action.Begin? && !(action.IoRead? && action.count > 0)
    ensures Act(s, id, action).delivered == s.delivered
    ensures id in Act(s, id, action).ops && !ReturnedChunk(Act(s, id, action).ops[id])
  {
    match action
    case Tick => TickShared(s, id); TickQuiet(s, id);
    case TakeGate =>
    case IoWrite(_) =>
    case IoRead(_) =>
    case _ => SelectShared(s, id, action);
  }

  lemma TickQuiet(s: State, id: OpId)
    requires Ready(s, id, Tick) && OpInv(s, id)
    ensures id in TickAt(s, id).ops && !ReturnedChunk(TickAt(s, id).ops[id])
  {
    if s.ops[id].pc.Closing? {
      match s.ops[id].pc.step
      case SetWriteShut(_) =>
      case TakeSlot =>
      case _ =>
    } else {
      assert TickAt(s, id) == LoadTick(s, id) || TickAt(s, id) == StoreTick(s, id) || TickAt(s, id) == SlotTick(s, id);
    }
  }

  /** The whole effect of a read that returns data. */
  lemma ReadEffect(s: State, id: OpId, count: nat)
    requires Ready(s, id, IoRead(count)) && count > 0
    ensures var t, chunk := Read(s, id, count), s.incoming[|s.delivered|..|s.delivered| + count];
      && |chunk| == count && t.delivered == s.delivered + chunk && t.incoming == s.incoming
      && t.ops.Keys == s.ops.Keys && t.ops[id].call == s.ops[id].call
      && t.ops[id].pc == Finished(Chunk(chunk))
      && forall other :: other in s.ops && other != id ==> t.ops[other] == s.ops[other]
  {
  }

  /** A call that has returned data. */
  predicate HasData(ops: map<OpId, Op>, id: OpId) {
    id in ops && ReturnedChunk(ops[id]) && ops[id].pc.outcome.data != []
  }

  /** The calls that have returned data, in the order in which they did. */
  function ReadIds(es: seq<Event>): seq<OpId> {
    if es == [] then []
    else
      var init, e := es[..|es| - 1], es[|es| - 1];
      ReadIds(init)
      + (if e.By? && HasData(Run(es).ops, e.id) && !HasData(Run(init).ops, e.id) then [e.id] else [])
  }

  /** What these calls have returned, one after the other. */
  function ReturnedBytes(ops: map<OpId, Op>, ids: seq<OpId>): Bytes {
    if ids == [] then []
    else ReturnedBytes(ops, ids[..|ids| - 1]) + DataOf(ops, ids[|ids| - 1])
  }

  function DataOf(ops: map<OpId, Op>, id: OpId): Bytes {
    if HasData(ops, id) then ops[id].pc.outcome.data else []
  }

  /**
   No gap, no overlap and no reordering between receives: the chunks that calls have returned, one after the
   other in the order of their reads and each call once, are the beginning of the incoming stream that has
   been consumed, whatever happened to the calls in between.
   */
  lemma {:induction false} ChunksConcatenate(es: seq<Event>)
    ensures var s, ids := Run(es), ReadIds(es);
      && (forall id :: id in ids <==> HasData(s.ops, id))
      && (forall i, j :: 0 <= i < j < |ids| ==> ids[i] != ids[j])
      && ReturnedBytes(s.ops, ids) == s.delivered
      && s.delivered <= s.incoming
  {
    hide Step, Inv, HasData, ReturnedBytes;
    RunInv(es);
    if es == [] {
      NothingRead();
    } else {
      var init, e := es[..|es| - 1], es[|es| - 1];
      ChunksConcatenate(init);
      RunInv(init);
      DataStep(Run(init), e);
      ChunksGrow(Run(init), Run(es), ReadIds(init), e);
    }
    assert Run(es).delivered <= Run(es).incoming by { OrderedReads(es); }
  }

  lemma NothingRead()
    ensures Init.delivered == [] && (forall id :: !HasData(Init.ops, id)) && ReturnedBytes(Init.ops, []) == []
  {
  }

  lemma ChunksGrow(s: State, t: State, ids: seq<OpId>, e: Event)
    requires forall id :: id in ids <==> HasData(s.ops, id)
    requires ReturnedBytes(s.ops, ids) == s.delivered
    requires DataKept(s, t, e)
    ensures var more := if e.By? && HasData(t.ops, e.id) && !HasData(s.ops, e.id) then [e.id] else [];
      && (forall id :: id in ids + more <==> HasData(t.ops, id))
      && ReturnedBytes(t.ops, ids + more) == t.delivered
  {
    hide HasData, DataOf;
    forall i | 0 <= i < |ids| ensures DataOf(t.ops, ids[i]) == DataOf(s.ops, ids[i]) {
      assert ids[i] in ids;
    }
    SameChunks(s.ops, t.ops, ids);
    if e.By? && HasData(t.ops, e.id) && !HasData(s.ops, e.id) {
      assert (ids + [e.id])[..|ids|] == ids;
    } else {
      assert ids + [] == ids;
    }
  }

  /** What a call has returned stays; data is returned by the call that acts, and is what it took off the stream. */
  ghost predicate DataKept(s: State, t: State, e: Event) {
    && (forall id :: HasData(s.ops, id) ==> HasData(t.ops, id) && DataOf(t.ops, id) == DataOf(s.ops, id))
    && (forall id :: HasData(t.ops, id) ==> HasData(s.ops, id) || (e.By? && id == e.id))
    && t.delivered == s.delivered + (if e.By? && HasData(t.ops, e.id) && !HasData(s.ops, e.id)
                                     then DataOf(t.ops, e.id) else [])
  }

  lemma DataStep(s: State, e: Event)
    requires Inv(s)
    ensures DataKept(s, Step(s, e), e)
  {
    hide Inv, Act;
    if Enabled(s, e) {
      if Reads(e) {
        ActReads(s, e.id, e.action.count);
      } else {
        QuietData(s, e);
      }
    }
  }

  lemma ActReads(s: State, id: OpId, count: nat)
    requires Ready(s, id, IoRead(count)) && count > 0
    ensures var t := Act(s, id, IoRead(count));
      && (forall other :: other != id ==> (other in s.ops <==> other in t.ops))
      && (forall other :: other != id && other in s.ops ==> t.ops[other] == s.ops[other])
      && HasData(t.ops, id) && !HasData(s.ops, id) && t.delivered == s.delivered + t.ops[id].pc.outcome.data
  {
    ReadEffect(s, id, count);
  }

  lemma QuietData(s: State, e: Event)
    requires Inv(s) && Enabled(s, e) && !Reads(e)
    ensures var t := Apply(s, e);
      && (forall id :: HasData(s.ops, id) ==> HasData(t.ops, id) && t.ops[id] == s.ops[id])
      && (forall id :: HasData(t.ops, id) ==> HasData(s.ops, id))
      && t.delivered == s.delivered
  {
    hide Inv, Act;
    QuietReads(s, e);
    StepOthers(s, e);
    if e.By? && e.action.Begin? {
      BeginsEmpty(s, e);
    }
  }

  /** A call that starts has returned no data. */
  lemma BeginsEmpty(s: State, e: Event)
    requires Enabled(s, e) && e.By? && e.action.Begin?
    ensures !HasData(Apply(s, e).ops, e.id)
  {
  }

  lemma {:induction false} SameChunks(before: map<OpId, Op>, after: map<OpId, Op>, ids: seq<OpId>)
    requires forall i :: 0 <= i < |ids| ==> DataOf(after, ids[i]) == DataOf(before, ids[i])
    ensures ReturnedBytes(after, ids) == ReturnedBytes(before, ids)
  {
    if ids != [] {
      SameChunks(before, after, ids[..|ids| - 1]);
    }
  }

  /** End of stream is sticky: once observed, every later non-empty receive returns it, whatever
      happens in between, and also after the connection has been closed locally. */
  lemma EndOfStreamIsSticky(es: seq<Event>, id: OpId, cap: nat, more: seq<Event>)
    requires PeerEof in Run(es).flags && id !in Run(es).ops && cap > 0
    ensures var t := Run(es + [By(id, Begin(Receive(cap)))] + more);
      id in t.ops && (t.ops[id].pc == LoadEof(First) || t.ops[id].pc == Finished(EndOfStream))
  {
    hide Inv, Step;
    var begin := By(id, Begin(Receive(cap)));
    RunInv(es);
    StepInv(Run(es), begin);
    ReceiveBegins(Run(es), id, cap);
    assert (es + [begin])[..|es|] == es;
    RunAppend(es + [begin], more);
    StickyFrom(Step(Run(es), begin), id, more);
  }

  lemma ReceiveBegins(s: State, id: OpId, cap: nat)
    requires id !in s.ops && cap > 0 && PeerEof in s.flags
    ensures Reporting(Step(s, By(id, Begin(Receive(cap)))), id)
  {
  }

  /** End of stream has been observed, and this receive is about to report it or has. */
  predicate Reporting(s: State, id: OpId) {
    && PeerEof in s.flags && id in s.ops
    && (s.ops[id].pc == LoadEof(First) || s.ops[id].pc == Finished(EndOfStream))
  }

  lemma {:induction false} StickyFrom(s: State, id: OpId, more: seq<Event>)
    requires Inv(s) && Reporting(s, id)
    ensures Inv(RunFrom(s, more)) && Reporting(RunFrom(s, more), id)
  {
    hide Inv, Step, Reporting;
    if more != [] {
      StickyFrom(s, id, more[..|more| - 1]);
      StepInv(RunFrom(s, more[..|more| - 1]), more[|more| - 1]);
      StickyStep(RunFrom(s, more[..|more| - 1]), id, more[|more| - 1]);
    }
  }

  /** The next thing that a receive does after end of stream has been observed is to report it. */
  lemma StickyStep(s: State, id: OpId, e: Event)
    requires Inv(s) && Reporting(s, id)
    ensures Reporting(Step(s, e), id)
  {
    if Enabled(s, e) && !(e.By? && e.id == id) {
      StepOthers(s, e);
    }
  }

  /**
   End of stream by itself leaves the send direction usable: no action of a call other than `receive`
   depends on whether end of stream has been observed.
   */
  lemma SendingIgnoresEof(es: seq<Event>, id: OpId, action: Action)
    requires id in Run(es).ops && !Run(es).ops[id].call.Receive?
    ensures Step(Raise(Run(es), PeerEof), By(id, action)) == Raise(Step(Run(es), By(id, action)), PeerEof)
  {
    hide Act, TickAt, Inv, Shape, OpInv;
    var s := Run(es);
    ShapeOfRun(es, id);
    ReadyIgnoresEof(s, id, action);
    if Ready(s, id, action) {
      ActIgnoresEof(s, id, action);
    }
  }

  lemma ShapeOfRun(es: seq<Event>, id: OpId)
    requires id in Run(es).ops
    ensures Shape(Run(es).ops[id])
  {
    RunInv(es);
    assert OpInv(Run(es), id);
  }

  lemma ReadyIgnoresEof(s: State, id: OpId, action: Action)
    ensures Ready(Raise(s, PeerEof), id, action) == Ready(s, id, action)
  {
  }

  lemma ActIgnoresEof(s: State, id: OpId, action: Action)
    requires Ready(s, id, action) && id in s.ops && Shape(s.ops[id]) && !s.ops[id].call.Receive?
    ensures Act(Raise(s, PeerEof), id, action) == Raise(Act(s, id, action), PeerEof)
  {
    hide TickAt;
    TickIgnoresEof(s, id);
    assert s.flags + {PeerEof} + {WireShut} == s.flags + {WireShut} + {PeerEof};
  }

  lemma TickIgnoresEof(s: State, id: OpId)
    requires id in s.ops && Shape(s.ops[id]) && !s.ops[id].call.Receive?
    ensures TickAt(Raise(s, PeerEof), id) == Raise(TickAt(s, id), PeerEof)
  {
    hide CloseTick, LoadTick, StoreTick, SlotTick;
    if s.ops[id].pc.Closing? {
      CloseTickIgnoresEof(s, id, s.ops[id].pc.step, s.ops[id].pc.after);
    }
    LoadIgnoresEof(s, id);
    SlotIgnoresEof(s, id);
    StoreIgnoresEof(s, id);
  }

  lemma LoadIgnoresEof(s: State, id: OpId)
    requires id in s.ops && Shape(s.ops[id]) && !s.ops[id].call.Receive?
    ensures LoadTick(Raise(s, PeerEof), id) == Raise(LoadTick(s, id), PeerEof)
  {
    match s.ops[id].pc
    case LoadClosed(_) =>
    case LoadPaused(_) =>
    case LoadShut(_) =>
    case _ =>
  }

  lemma SlotIgnoresEof(s: State, id: OpId)
    requires id in s.ops
    ensures SlotTick(Raise(s, PeerEof), id) == Raise(SlotTick(s, id), PeerEof)
  {
  }

  lemma StoreIgnoresEof(s: State, id: OpId)
    requires id in s.ops && Shape(s.ops[id]) && !s.ops[id].call.Receive?
    ensures StoreTick(Raise(s, PeerEof), id) == Raise(StoreTick(s, id), PeerEof)
  {
    assert s.flags + {PeerEof} - {Paused} == s.flags - {Paused} + {PeerEof};
    assert forall flag :: s.flags + {PeerEof} + {flag} == s.flags + {flag} + {PeerEof};
    match s.ops[id].pc
    case StoreReadShut =>
    case CancelReadToken =>
    case StoreWriteShut =>
    case StorePause =>
    case StoreResume =>
    case _ =>
  }

  lemma CloseTickIgnoresEof(s: State, id: OpId, step: CloseStep, after: Outcome)
    requires id in s.ops
    ensures CloseTick(Raise(s, PeerEof), id, step, after) == Raise(CloseTick(s, id, step, after), PeerEof)
  {
    assert s.flags + {PeerEof} - {Paused} == s.flags - {Paused} + {PeerEof};
    assert forall flag :: s.flags + {PeerEof} + {flag} == s.flags + {flag} + {PeerEof};
    match step
    case Swap =>
    case SetWriteShut(_) =>
    case TakeSlot =>
    case _ =>
  }

  // ------------------------------------------------------------------ pause against close

  function TickList(id: OpId, count: nat): (ticks: seq<Event>)
    ensures |ticks| == count
  {
    if count == 0 then [] else TickList(id, count - 1) + [By(id, Tick)]
  }

  /** What one tick of a winning close does. */
  function NextCloseStep(step: CloseStep): Point {
    match step
    case Swap => Closing(ClearPause(Won), Success)
    case ClearPause(_) => Closing(SetReadShut(Won), Success)
    case SetReadShut(_) => Closing(SetWriteShut(Won), Success)
    case SetWriteShut(_) => Closing(CancelClose, Success)
    case CancelClose => Closing(CancelRead, Success)
    case CancelRead => Closing(TakeSlot, Success)
    case TakeSlot => AwaitGate
  }

  function FlagsAfter(step: CloseStep, flags: set<Flag>): set<Flag> {
    match step
    case Swap => flags + {Closed}
    case ClearPause(_) => flags - {Paused}
    case SetReadShut(_) => flags + {ReadShut}
    case SetWriteShut(_) => flags + {WriteShut}
    case CancelClose => flags + {CloseToken}
    case CancelRead => flags + {ReadToken}
    case TakeSlot => flags + {SlotEmpty}
  }

  /** `t` is `s` after the call `id` alone has moved to `pc` and the flags have become `flags`. */
  predicate Moved(s: State, t: State, id: OpId, pc: Point, flags: set<Flag>)
    requires id in s.ops
  {
    && t.ops.Keys == s.ops.Keys
    && t.ops[id].pc == pc && t.ops[id].call == s.ops[id].call
    && (forall other :: other in s.ops && other != id ==> t.ops[other] == s.ops[other])
    && t.flags == flags
  }

  lemma WinnerTick(s: State, id: OpId, step: CloseStep)
    requires At(s, id, Closing(step, Success)) && s.ops[id].call.Close?
    requires step.Swap? ==> Closed !in s.flags
    requires step.TakeSlot? ==> SlotEmpty !in s.flags
    requires RaceOf(step) != Some(Lost)
    ensures Moved(s, Step(s, By(id, Tick)), id, NextCloseStep(step), FlagsAfter(step, s.flags))
  {
    match step
    case Swap =>
    case ClearPause(race) => assert race == Won;
    case SetReadShut(race) => assert race == Won;
    case SetWriteShut(race) => assert race == Won;
    case TakeSlot =>
    case _ =>
  }

  /** Four ticks take the winner of a close from the swap through the three stores. */
  lemma CloseStores(s: State, id: OpId)
    requires At(s, id, Closing(Swap, Success)) && Closed !in s.flags && s.ops[id].call.Close?
    ensures Moved(s, RunFrom(s, TickList(id, 4)), id, Closing(CancelClose, Success),
                  s.flags + {Closed} - {Paused} + {ReadShut} + {WriteShut})
  {
    var tick := By(id, Tick);
    WinnerTick(s, id, Swap);
    WinnerTick(Step(s, tick), id, ClearPause(Won));
    WinnerTick(Step(Step(s, tick), tick), id, SetReadShut(Won));
    FourTicks(s, id);
    WinnerTick(RunFrom(s, TickList(id, 3)), id, SetWriteShut(Won));
  }

  lemma FourTicks(s: State, id: OpId)
    ensures var tick := By(id, Tick);
      && RunFrom(s, TickList(id, 3)) == Step(Step(Step(s, tick), tick), tick)
      && RunFrom(s, TickList(id, 4)) == Step(RunFrom(s, TickList(id, 3)), tick)
  {
    assert TickList(id, 1) == [By(id, Tick)] && TickList(id, 1)[..0] == [];
    assert RunFrom(s, TickList(id, 1)) == Step(s, By(id, Tick));
    assert TickList(id, 2)[..1] == TickList(id, 1);
    assert RunFrom(s, TickList(id, 2)) == Step(RunFrom(s, TickList(id, 1)), By(id, Tick));
    assert TickList(id, 3)[..2] == TickList(id, 2);
    assert RunFrom(s, TickList(id, 3)) == Step(RunFrom(s, TickList(id, 2)), By(id, Tick));
    assert TickList(id, 4)[..3] == TickList(id, 3);
  }

  /** Three more cancel both tokens and empty the slot. */
  lemma CloseCancels(s: State, id: OpId)
    requires At(s, id, Closing(CancelClose, Success)) && s.ops[id].call.Close? && SlotEmpty !in s.flags
    ensures Moved(s, RunFrom(s, TickList(id, 3)), id, AwaitGate, s.flags + {CloseToken} + {ReadToken} + {SlotEmpty})
  {
    var tick := By(id, Tick);
    WinnerTick(s, id, CancelClose);
    WinnerTick(Step(s, tick), id, CancelRead);
    WinnerTick(Step(Step(s, tick), tick), id, TakeSlot);
    FourTicks(s, id);
  }

  lemma PauseChecks(s: State, id: OpId)
    requires id !in s.ops && Closed !in s.flags
    ensures var t := Step(Step(s, By(id, Begin(Pause))), By(id, Tick));
      At(t, id, StorePause) && t.flags == s.flags && t.ops.Keys == s.ops.Keys + {id}
  {
    assert At(Step(s, By(id, Begin(Pause))), id, LoadClosed(First));
  }

  /** A pause has checked, a close has started. */
  lemma PauseThenClose() returns (es: seq<Event>)
    ensures var s := Run(es);
      At(s, 0, StorePause) && At(s, 1, Closing(Swap, Success)) && s.flags == {} && s.ops[1].call.Close?
  {
    var a, b, c := By(0, Begin(Pause)), By(0, Tick), By(1, Begin(Close));
    es := [a, b, c];
    PauseChecks(Init, 0);
    CloseBegins(Step(Step(Init, a), b), 1);
    ThreeSteps(Init, a, b, c);
  }

  lemma CloseBegins(s: State, id: OpId)
    requires id !in s.ops
    ensures var t := Step(s, By(id, Begin(Close)));
      At(t, id, Closing(Swap, Success)) && t.ops[id].call.Close? && t.flags == s.flags
      && forall other :: other in s.ops ==> other in t.ops && t.ops[other] == s.ops[other]
  {
  }

  lemma ThreeSteps(s: State, a: Event, b: Event, c: Event)
    ensures RunFrom(s, [a, b, c]) == Step(Step(Step(s, a), b), c)
  {
    hide Step;
    assert [a, b, c][..2] == [a, b] && [a, b][..1] == [a] && [a][..0] == [];
    assert RunFrom(s, [a]) == Step(RunFrom(s, []), a);
    assert RunFrom(s, [a, b]) == Step(RunFrom(s, [a]), b);
  }

  /** `pause` checks and then stores, so a connection can be closed and paused at once: the check of
      the one call passes, the other call closes completely, and then the store happens. */
  lemma ClosedAndPaused()
    ensures exists es :: {Closed, Paused, SlotEmpty} <= Run(es).flags
  {
    hide Inv, TickList, Step;
    var es := PauseThenClose();
    var more := TickList(1, 4) + TickList(1, 3);
    var s := Run(es);
    CloseStores(s, 1);
    CloseCancels(RunFrom(s, TickList(1, 4)), 1);
    RunAppend(es, TickList(1, 4));
    RunAppend(es + TickList(1, 4), TickList(1, 3));
    assert es + more == es + TickList(1, 4) + TickList(1, 3);
    assert (es + more + [By(0, Tick)])[..|es + more|] == es + more;
    PauseStores(Run(es + more), 0);
    assert {Closed, Paused, SlotEmpty} <= Run(es + more + [By(0, Tick)]).flags;
  }

  lemma PauseStores(s: State, id: OpId)
    requires At(s, id, StorePause)
    ensures Step(s, By(id, Tick)).flags == s.flags + {Paused}
  {
  }

  predicate PauseInFlight(s: State) {
    exists id :: id in s.ops && s.ops[id].pc.StorePause?
  }

  /** A closed connection is paused now or at some later moment exactly if it is still paused from before the
      close, or a `pause` that had already passed its check has yet to store. One that starts later is
      without effect. */
  lemma PausedAfterClose(es: seq<Event>)
    requires Closed in Run(es).flags
    ensures (exists more :: Paused in Run(es + more).flags)
            <==> Paused in Run(es).flags || PauseInFlight(Run(es))
  {
    if Paused in Run(es).flags {
      assert es + [] == es;
      assert Paused in Run(es + []).flags;
    } else if PauseInFlight(Run(es)) {
      var id :| id in Run(es).ops && Run(es).ops[id].pc.StorePause?;
      assert (es + [By(id, Tick)])[..|es|] == es;
      assert Paused in Run(es + [By(id, Tick)]).flags;
    } else {
      forall more ensures Paused !in Run(es + more).flags {
        StaysUnpaused(es, more);
      }
    }
  }

  predicate Unpausable(s: State) {
    Closed in s.flags && Paused !in s.flags && !PauseInFlight(s)
  }

  lemma {:induction false} StaysUnpaused(es: seq<Event>, more: seq<Event>)
    requires Unpausable(Run(es))
    ensures Unpausable(Run(es + more))
  {
    if more == [] {
      assert es + more == es;
    } else {
      var init, e := more[..|more| - 1], more[|more| - 1];
      StaysUnpaused(es, init);
      assert (es + more)[..|es + more| - 1] == es + init;
      RunInv(es + init);
      StepUnpaused(Run(es + init), e);
    }
  }

  lemma StepUnpaused(s: State, e: Event)
    requires Inv(s) && Unpausable(s)
    ensures Unpausable(Step(s, e))
  {
    hide Inv, Others, Act;
    if Enabled(s, e) {
      if e.By? {
        StepOthers(s, e);
        if e.action.Begin? {
          BeginUnpaused(s, e.id, e.action.call);
        } else {
          ActUnpaused(s, e.id, e.action);
        }
        OthersUnpaused(s, Apply(s, e), e.id);
      } else {
        EnvironmentUnpaused(s, e);
      }
    }
  }

  lemma EnvironmentUnpaused(s: State, e: Event)
    requires Enabled(s, e) && !e.By? && Unpausable(s)
    ensures Unpausable(Apply(s, e))
  {
  }

  lemma BeginUnpaused(s: State, id: OpId, call: Call)
    requires Paused !in s.flags && Ready(s, id, Begin(call))
    ensures Paused !in Act(s, id, Begin(call)).flags && !Act(s, id, Begin(call)).ops[id].pc.StorePause?
  {
  }

  lemma OthersUnpaused(s: State, t: State, id: OpId)
    requires Unpausable(s) && Others(s, t, Some(id))
    requires Paused !in t.flags && (id in t.ops ==> !t.ops[id].pc.StorePause?)
    ensures Unpausable(t)
  {
    forall other | other in t.ops ensures !t.ops[other].pc.StorePause? {
      if other != id {
        assert other in s.ops && !s.ops[other].pc.StorePause?;
      }
    }
  }

  lemma ActUnpaused(s: State, id: OpId, action: Action)
    requires Ready(s, id, action) && id in s.ops && Closed in s.flags && !s.ops[id].pc.StorePause?
    requires Paused !in s.flags && !action.Begin?
    ensures Paused !in Act(s, id, action).flags
    ensures id in Act(s, id, action).ops && !Act(s, id, action).ops[id].pc.StorePause?
  {
    if action.Tick? {
      if s.ops[id].pc.Closing? {
        CloseTickUnpaused(s, id);
      } else {
        assert TickAt(s, id) == LoadTick(s, id) || TickAt(s, id) == StoreTick(s, id) || TickAt(s, id) == SlotTick(s, id);
      }
    }
  }

  lemma CloseTickUnpaused(s: State, id: OpId)
    requires id in s.ops && s.ops[id].pc.Closing? && Paused !in s.flags
    ensures var t := CloseTick(s, id, s.ops[id].pc.step, s.ops[id].pc.after);
      Paused !in t.flags && id in t.ops && !t.ops[id].pc.StorePause?
  {
    match s.ops[id].pc.step
    case Swap =>
    case SetWriteShut(_) =>
    case TakeSlot =>
    case _ =>
  }
}
