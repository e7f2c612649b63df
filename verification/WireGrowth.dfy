/**
 When the wire can still grow. The transport's selects are not biased towards the close token, and only some
 of the points at which a data writer can be look at closure again, so the answer depends on where the calls
 are: `WireGrowsExactly` gives it for every reachable state, `ClosedWireExactly` for closed connections, and
 `WritesAfterClose` is a run in which it happens.
 */
module WireGrowth {
  import opened ByteStrings
  import opened Wrappers
  import opened Transport
  import opened TransportSafety
  import opened TransportTheorems

  // ------------------------------------------------------------------ the condition

  /** A data writer that no check separates from its next write. */
  predicate CanStillWrite(s: State, id: OpId) {
    && id in s.ops && IsWriter(s.ops[id].call)
    && (s.ops[id].pc == AwaitIo || (s.ops[id].pc == FetchSlot && SlotEmpty !in s.flags))
  }

  predicate AtLastCheck(s: State, id: OpId) {
    id in s.ops && IsWriter(s.ops[id].call) && s.ops[id].pc == FetchClosed
  }

  /** The write gate is in the hands of a call that closes the connection or shuts the direction before it
      lets go. */
  predicate GateDoomed(s: State) {
    && s.writeGate.Some? && s.writeGate.value in s.ops
    && (s.ops[s.writeGate.value].call.ShutdownWrite? || s.ops[s.writeGate.value].pc.Closing?)
  }

  /** The send direction is open to a new send. */
  predicate Sendable(s: State) {
    Closed !in s.flags && WriteShut !in s.flags && !GateDoomed(s)
  }

  ghost predicate WireCanGrow(s: State) {
    || (exists id :: CanStillWrite(s, id))
    || (Closed !in s.flags && exists id :: AtLastCheck(s, id))
    || Sendable(s)
  }

  // ------------------------------------------------------------------ a stuck wire stays as it is

  lemma StuckTick(s: State, id: OpId)
    requires Ready(s, id, Tick) && OpInv(s, id) && !CanStillWrite(s, id)
    requires Closed in s.flags || !AtLastCheck(s, id)
    requires Closed in s.flags || WriteShut in s.flags || GateDoomed(s)
    ensures var t := TickAt(s, id);
      t.wire == s.wire && !CanStillWrite(t, id) && (Closed in t.flags || !AtLastCheck(t, id))
  {
    if s.ops[id].pc.Closing? {
      match s.ops[id].pc.step
      case SetWriteShut(_) =>
      case TakeSlot =>
      case _ =>
    } else {
      assert TickAt(s, id) == LoadTick(s, id) || TickAt(s, id) == StoreTick(s, id) || TickAt(s, id) == SlotTick(s, id);
    }
  }

  lemma StuckAct(s: State, id: OpId, action: Action)
    requires Ready(s, id, action) && (id in s.ops ==> OpInv(s, id)) && !CanStillWrite(s, id)
    requires Closed in s.flags || !AtLastCheck(s, id)
    requires Closed in s.flags || WriteShut in s.flags || GateDoomed(s)
    ensures var t := Act(s, id, action);
      t.wire == s.wire && !CanStillWrite(t, id) && (Closed in t.flags || !AtLastCheck(t, id))
  {
    match action
    case Tick => StuckTick(s, id);
    case _ =>
  }

  /** The doomed holder goes on towards its store. */
  lemma DoomedTick(s: State, id: OpId)
    requires Ready(s, id, Tick) && OpInv(s, id) && CloseFlags(s) && s.writeGate == Some(id) && GateDoomed(s)
    requires Closed !in s.flags && WriteShut !in s.flags
    ensures var t := TickAt(s, id); Closed in t.flags || WriteShut in t.flags || GateDoomed(t)
  {
    if s.ops[id].pc.Closing? {
      match s.ops[id].pc.step
      case SetWriteShut(_) =>
      case TakeSlot =>
      case _ =>
    } else {
      assert s.ops[id].pc == LoadClosed(Again) || s.ops[id].pc == LoadShut(Again) || s.ops[id].pc == StoreWriteShut;
    }
  }

  lemma DoomedStep(s: State, e: Event)
    requires Inv(s) && Enabled(s, e) && GateDoomed(s) && Closed !in s.flags && WriteShut !in s.flags
    ensures var t := Apply(s, e); Closed in t.flags || WriteShut in t.flags || GateDoomed(t)
  {
    var g := s.writeGate.value;
    assert OpInv(s, g);
    if Actor(e) == Some(g) {
      assert e.action.Tick?;
      DoomedTick(s, g);
    } else {
      StepOthers(s, e);
    }
  }

  lemma StuckStep(s: State, e: Event)
    requires Inv(s) && !WireCanGrow(s)
    ensures !WireCanGrow(Step(s, e)) && Step(s, e).wire == s.wire
  {
    hide Act, OpInv;
    if Enabled(s, e) {
      var t := Step(s, e);
      StepOthers(s, e);
      if Closed !in s.flags && WriteShut !in s.flags {
        DoomedStep(s, e);
      }
      if e.By? {
        if e.id in s.ops {
          assert OpInv(s, e.id);
        }
        StuckAct(s, e.id, e.action);
      }
      forall id ensures !CanStillWrite(t, id) && (Closed in t.flags || !AtLastCheck(t, id)) {
        assert !CanStillWrite(s, id);
        assert Closed in s.flags || !AtLastCheck(s, id);
      }
    }
  }

  lemma {:induction false} StuckRun(s: State, more: seq<Event>)
    requires Inv(s) && !WireCanGrow(s)
    ensures Inv(RunFrom(s, more)) && !WireCanGrow(RunFrom(s, more)) && RunFrom(s, more).wire == s.wire
  {
    hide Inv, WireCanGrow, Step;
    if more != [] {
      StuckRun(s, more[..|more| - 1]);
      StepInv(RunFrom(s, more[..|more| - 1]), more[|more| - 1]);
      StuckStep(RunFrom(s, more[..|more| - 1]), more[|more| - 1]);
    }
  }

  // ------------------------------------------------------------------ runs in pieces

  lemma {:induction false} RunFromAppend(s: State, es: seq<Event>, more: seq<Event>)
    ensures RunFrom(s, es + more) == RunFrom(RunFrom(s, es), more)
  {
    hide Step;
    if more == [] {
      assert es + more == es;
    } else {
      assert (es + more)[..|es + more| - 1] == es + more[..|more| - 1];
      RunFromAppend(s, es, more[..|more| - 1]);
    }
  }

  lemma RunFromSnoc(s: State, es: seq<Event>, e: Event)
    ensures RunFrom(s, es + [e]) == Step(RunFrom(s, es), e)
  {
    assert (es + [e])[..|es|] == es;
  }

  lemma RunFromOne(s: State, e: Event)
    ensures RunFrom(s, [e]) == Step(s, e)
  {
    assert [e][..0] == [];
  }

  /** Actions that neither write nor start a data writer nor drop anything. */
  predicate Quietly(e: Event) {
    e.By? && (e.action.Tick? || e.action.TakeGate? || e.action.IoDone? || e.action == Begin(Resume))
  }

  predicate AllQuiet(es: seq<Event>) {
    forall i :: 0 <= i < |es| ==> Quietly(es[i])
  }

  // ------------------------------------------------------------------ a send on an open connection

  predicate OpenFlags(flags: set<Flag>) {
    Closed !in flags && Paused !in flags && WriteShut !in flags && SlotEmpty !in flags
  }

  /** An open connection on which one send is on its way. */
  predicate Clear(s: State, id: OpId, pc: Point) {
    && OpenFlags(s.flags) && id in s.ops && s.ops[id].pc == pc
    && s.ops[id].call.Send? && s.ops[id].written == 0
  }

  predicate IsCheck(pc: Point) {
    pc.LoadClosed? || pc.LoadPaused? || pc.LoadShut? || pc == FetchClosed || pc == FetchSlot
  }

  function NextPoint(pc: Point): Point {
    match pc
    case LoadClosed(pass) => LoadPaused(pass)
    case LoadPaused(pass) => LoadShut(pass)
    case LoadShut(pass) => if pass == First then AwaitGate else FetchClosed
    case FetchClosed => FetchSlot
    case _ => AwaitIo
  }

  predicate BeforeGate(pc: Point) {
    pc == LoadClosed(First) || pc == LoadPaused(First) || pc == LoadShut(First) || pc == AwaitGate
  }

  /** `t` is `s` after the call has been carried to `pc`. */
  predicate CarriedTo(s: State, t: State, id: OpId, pc: Point) {
    && Clear(t, id, pc) && id in s.ops
    && t.wire == s.wire && t.flags == s.flags && t.ops.Keys == s.ops.Keys && t.ops[id].call == s.ops[id].call
    && (forall other :: other in s.ops && other != id ==> t.ops[other] == s.ops[other])
    && (BeforeGate(pc) ==> t.writeGate == s.writeGate)
  }

  lemma CarryTick(s: State, t: State, id: OpId, pc: Point)
    requires CarriedTo(s, t, id, pc) && IsCheck(pc)
    ensures CarriedTo(s, Step(t, By(id, Tick)), id, NextPoint(pc))
  {
  }

  lemma CarryGate(s: State, t: State, id: OpId)
    requires CarriedTo(s, t, id, AwaitGate) && s.writeGate.None?
    ensures CarriedTo(s, Step(t, By(id, TakeGate)), id, LoadClosed(Again))
  {
  }

  /** The actions of a send from its first check to its first write attempt. */
  function ToGate(id: OpId): seq<Event> {
    var tick := By(id, Tick);
    [tick] + [tick] + [tick]
  }

  function ToIo(id: OpId): seq<Event> {
    var tick := By(id, Tick);
    ToGate(id) + [By(id, TakeGate)] + [tick] + [tick] + [tick] + [tick] + [tick]
  }

  lemma ToIoIsQuiet(id: OpId)
    ensures AllQuiet(ToIo(id))
  {
  }

  lemma ReachesGate(s: State, id: OpId)
    requires Clear(s, id, LoadClosed(First))
    ensures CarriedTo(s, RunFrom(s, ToGate(id)), id, AwaitGate)
  {
    hide Step;
    var tick := By(id, Tick);
    assert CarriedTo(s, s, id, LoadClosed(First));
    CarryTick(s, s, id, LoadClosed(First));
    RunFromOne(s, tick);
    CarryTick(s, RunFrom(s, [tick]), id, LoadPaused(First));
    RunFromSnoc(s, [tick], tick);
    CarryTick(s, RunFrom(s, [tick] + [tick]), id, LoadShut(First));
    RunFromSnoc(s, [tick] + [tick], tick);
  }

  lemma ReachesIo(s: State, id: OpId)
    requires Clear(s, id, LoadClosed(First)) && s.writeGate.None?
    ensures CarriedTo(s, RunFrom(s, ToIo(id)), id, AwaitIo)
  {
    hide Step, Clear, CarriedTo, ToGate, RunFrom;
    var tick := By(id, Tick);
    ReachesGate(s, id);
    CarryGate(s, RunFrom(s, ToGate(id)), id);
    var a := ToGate(id) + [By(id, TakeGate)];
    RunFromSnoc(s, ToGate(id), By(id, TakeGate));
    CarryTick(s, RunFrom(s, a), id, LoadClosed(Again));
    RunFromSnoc(s, a, tick);
    CarryTick(s, RunFrom(s, a + [tick]), id, LoadPaused(Again));
    RunFromSnoc(s, a + [tick], tick);
    CarryTick(s, RunFrom(s, a + [tick] + [tick]), id, LoadShut(Again));
    RunFromSnoc(s, a + [tick] + [tick], tick);
    CarryTick(s, RunFrom(s, a + [tick] + [tick] + [tick]), id, FetchClosed);
    RunFromSnoc(s, a + [tick] + [tick] + [tick], tick);
    CarryTick(s, RunFrom(s, a + [tick] + [tick] + [tick] + [tick]), id, FetchSlot);
    RunFromSnoc(s, a + [tick] + [tick] + [tick] + [tick], tick);
  }

  // ------------------------------------------------------------------ clearing the way for a send

  function Rank(pc: Point): nat {
    match pc
    case LoadClosed(_) => 5
    case LoadPaused(_) => 4
    case LoadShut(_) => 3
    case FetchClosed => 2
    case FetchSlot => 1
    case _ => 0
  }

  lemma InvAt(s: State, id: OpId)
    requires Inv(s) && id in s.ops
    ensures OpInv(s, id) && CloseFlags(s)
  {
  }

  /** `t` is `s` after the holder of the write gate alone has moved, without writing or storing. */
  predicate HolderMoved(s: State, t: State, id: OpId) {
    && t.flags == s.flags && t.wire == s.wire && id in s.ops && t.ops.Keys == s.ops.Keys
    && t.ops[id].call == s.ops[id].call
    && (forall other :: other in s.ops && other != id ==> t.ops[other] == s.ops[other])
  }

  lemma HolderTick(s: State, id: OpId)
    requires id in s.ops && OpInv(s, id) && CloseFlags(s) && s.writeGate == Some(id) && Sendable(s) && s.ops[id].pc != AwaitIo
    ensures var t := Step(s, By(id, Tick));
      && HolderMoved(s, t, id)
      && (t.writeGate.None? || (t.writeGate == Some(id) && Sendable(t) && Rank(t.ops[id].pc) < Rank(s.ops[id].pc)))
  {
    if s.ops[id].pc == FetchSlot {
    } else {
      assert TickAt(s, id) == LoadTick(s, id);
    }
  }

  /** The holder reaches its I/O, or is refused on the way and lets go. */
  lemma {:induction false} DriveHolder(s: State, id: OpId) returns (es: seq<Event>)
    requires Inv(s) && s.writeGate == Some(id) && id in s.ops && Sendable(s)
    ensures AllQuiet(es)
    ensures var t := RunFrom(s, es);
      Inv(t) && HolderMoved(s, t, id) && (t.writeGate.None? || (t.writeGate == Some(id) && At(t, id, AwaitIo)))
    decreases Rank(s.ops[id].pc)
  {
    hide Step, Inv;
    if s.ops[id].pc == AwaitIo {
      es := [];
    } else {
      var tick := By(id, Tick);
      InvAt(s, id);
      HolderTick(s, id);
      StepInv(s, tick);
      var next := Step(s, tick);
      RunFromOne(s, tick);
      if next.writeGate.None? {
        es := [tick];
      } else {
        var rest := DriveHolder(next, id);
        es := [tick] + rest;
        RunFromAppend(s, [tick], rest);
      }
    }
  }

  /** A call number that is not in use. */
  lemma {:induction false} FreshId<T>(used: map<nat, T>) returns (id: nat)
    ensures id !in used && forall other :: other in used ==> other < id
    decreases |used|
  {
    if used == map[] {
      id := 0;
    } else {
      var some :| some in used;
      var rest := used - {some};
      assert some !in rest && |rest| < |used|;
      var above := FreshId(rest);
      id := if above > some then above else some + 1;
      assert forall other :: other in used ==> other == some || other in rest;
    }
  }

  /** What the way to a send leaves: an open connection with a free gate and the same wire. */
  predicate Prepared(s: State, t: State) {
    && Inv(t) && OpenFlags(t.flags) && t.writeGate.None? && t.wire == s.wire
    && (forall id :: id in s.ops ==> id in t.ops && t.ops[id].call == s.ops[id].call)
    && (forall id :: id in t.ops && id !in s.ops ==> !IsWriter(t.ops[id].call))
  }

  lemma OpenSlot(s: State)
    requires Inv(s) && Closed !in s.flags
    ensures SlotEmpty !in s.flags
  {
  }

  lemma FlushDone(s: State, id: OpId)
    requires Inv(s) && s.writeGate == Some(id) && At(s, id, AwaitIo) && !IsWriter(s.ops[id].call) && Sendable(s)
    ensures var t := Step(s, By(id, IoDone)); t.writeGate.None? && HolderMoved(s, t, id)
  {
    assert OpInv(s, id);
    assert s.ops[id].call.Flush?;
  }

  lemma HolderIsCall(s: State)
    requires Inv(s)
    ensures s.writeGate.Some? ==> s.writeGate.value in s.ops
  {
  }

  /** Free the gate from a flush. */
  lemma FreeGate(s: State) returns (es: seq<Event>)
    requires Inv(s) && Sendable(s)
    requires s.writeGate.Some? && s.writeGate.value in s.ops ==> !IsWriter(s.ops[s.writeGate.value].call)
    ensures AllQuiet(es)
    ensures var t := RunFrom(s, es);
      && Inv(t) && t.writeGate.None? && t.flags == s.flags && t.wire == s.wire && t.ops.Keys == s.ops.Keys
      && (forall id :: id in s.ops ==> t.ops[id].call == s.ops[id].call)
  {
    hide Step, Inv;
    HolderIsCall(s);
    if s.writeGate.None? {
      es := [];
    } else {
      var g := s.writeGate.value;
      var drive := DriveHolder(s, g);
      var t := RunFrom(s, drive);
      if t.writeGate.None? {
        es := drive;
      } else {
        FlushDone(t, g);
        StepInv(t, By(g, IoDone));
        RunFromSnoc(s, drive, By(g, IoDone));
        es := drive + [By(g, IoDone)];
      }
    }
  }

  function Resuming(id: OpId): seq<Event> {
    [By(id, Begin(Resume))] + [By(id, Tick)] + [By(id, Tick)]
  }

  lemma ResumeSteps(s: State, id: OpId)
    requires Closed !in s.flags && id !in s.ops
    ensures var tick := By(id, Tick); var t := Step(Step(Step(s, By(id, Begin(Resume))), tick), tick);
      && t.flags == s.flags - {Paused} && t.writeGate == Release(s.writeGate, id) && t.wire == s.wire
      && t.ops.Keys == s.ops.Keys + {id} && t.ops[id].call == Resume
      && forall other :: other in s.ops ==> t.ops[other] == s.ops[other]
  {
  }

  lemma Resumes(s: State, id: OpId)
    requires Inv(s) && Closed !in s.flags && id !in s.ops
    ensures AllQuiet(Resuming(id))
    ensures var t := RunFrom(s, Resuming(id));
      && Inv(t) && t.flags == s.flags - {Paused} && t.writeGate == Release(s.writeGate, id) && t.wire == s.wire
      && t.ops.Keys == s.ops.Keys + {id} && t.ops[id].call == Resume
      && forall other :: other in s.ops ==> t.ops[other] == s.ops[other]
  {
    hide Step, Inv;
    var tick := By(id, Tick);
    ResumeSteps(s, id);
    RunFromOne(s, By(id, Begin(Resume)));
    RunFromSnoc(s, [By(id, Begin(Resume))], tick);
    RunFromSnoc(s, [By(id, Begin(Resume))] + [tick], tick);
    RunFromInv(s, Resuming(id));
  }

  /** Where a send can get through, the way can be cleared for it. */
  lemma Prepare(s: State) returns (es: seq<Event>)
    requires Inv(s) && Sendable(s)
    requires s.writeGate.Some? && s.writeGate.value in s.ops ==> !IsWriter(s.ops[s.writeGate.value].call)
    ensures AllQuiet(es) && Prepared(s, RunFrom(s, es))
  {
    hide Step, Inv;
    OpenSlot(s);
    es := FreeGate(s);
    var t := RunFrom(s, es);
    if Paused in s.flags {
      var id := FreshId(t.ops);
      Resumes(t, id);
      RunFromAppend(s, es, Resuming(id));
      es := es + Resuming(id);
    }
  }

  // ------------------------------------------------------------------ the wire grows

  lemma WriterWrites(s: State, id: OpId)
    requires Inv(s) && id in s.ops && IsWriter(s.ops[id].call) && s.ops[id].pc == AwaitIo
    ensures var t := Step(s, By(id, IoWrite(1)));
      && |t.wire| == |s.wire| + 1
      && t.wire == s.wire + Payload(s.ops[id].call)[s.ops[id].written..s.ops[id].written + 1]
  {
    assert OpInv(s, id);
  }

  ghost predicate Grows(s: State) {
    exists more :: RunFrom(s, more).wire != s.wire
  }

  lemma GrowsAfter(s: State, es: seq<Event>)
    requires Grows(RunFrom(s, es)) && RunFrom(s, es).wire == s.wire
    ensures Grows(s)
  {
    var more :| RunFrom(RunFrom(s, es), more).wire != RunFrom(s, es).wire;
    RunFromAppend(s, es, more);
    assert RunFrom(s, es + more).wire != s.wire;
  }

  lemma WriterGrows(s: State, id: OpId)
    requires Inv(s) && id in s.ops && IsWriter(s.ops[id].call) && s.ops[id].pc == AwaitIo
    ensures Grows(s)
  {
    WriterWrites(s, id);
    RunFromOne(s, By(id, IoWrite(1)));
    assert RunFrom(s, [By(id, IoWrite(1))]).wire != s.wire;
  }

  lemma FetchesStream(s: State, id: OpId)
    requires CanStillWrite(s, id) && s.ops[id].pc == FetchSlot
    ensures var t := Step(s, By(id, Tick)); CanStillWrite(t, id) && t.ops[id].pc == AwaitIo && t.wire == s.wire
  {
  }

  lemma LastCheckPasses(s: State, id: OpId)
    requires AtLastCheck(s, id) && Closed !in s.flags && SlotEmpty !in s.flags
    ensures var t := Step(s, By(id, Tick)); CanStillWrite(t, id) && t.ops[id].pc == FetchSlot && t.wire == s.wire
  {
  }

  lemma StillWriterGrows(s: State, id: OpId)
    requires Inv(s) && CanStillWrite(s, id)
    ensures Grows(s)
  {
    hide Inv, Step;
    if s.ops[id].pc == AwaitIo {
      WriterGrows(s, id);
    } else {
      FetchesStream(s, id);
      StepInv(s, By(id, Tick));
      WriterGrows(Step(s, By(id, Tick)), id);
      RunFromOne(s, By(id, Tick));
      GrowsAfter(s, [By(id, Tick)]);
    }
  }

  lemma LastCheckGrows(s: State, id: OpId)
    requires Inv(s) && AtLastCheck(s, id) && Closed !in s.flags
    ensures Grows(s)
  {
    hide Inv, Step;
    OpenSlot(s);
    LastCheckPasses(s, id);
    StepInv(s, By(id, Tick));
    StillWriterGrows(Step(s, By(id, Tick)), id);
    RunFromOne(s, By(id, Tick));
    GrowsAfter(s, [By(id, Tick)]);
  }

  lemma SendBegins(s: State, id: OpId)
    requires OpenFlags(s.flags) && id !in s.ops
    ensures var t := Step(s, By(id, Begin(Send([0]))));
      Clear(t, id, LoadClosed(First)) && t.writeGate == s.writeGate && t.wire == s.wire
  {
  }

  lemma NewSendGrows(s: State)
    requires Inv(s) && OpenFlags(s.flags) && s.writeGate.None?
    ensures Grows(s)
  {
    hide Inv, Step;
    var id := FreshId(s.ops);
    var begin := By(id, Begin(Send([0])));
    SendBegins(s, id);
    StepInv(s, begin);
    RunFromOne(s, begin);
    var t := Step(s, begin);
    ReachesIo(t, id);
    RunFromInv(t, ToIo(id));
    WriterGrows(RunFrom(t, ToIo(id)), id);
    GrowsAfter(t, ToIo(id));
    GrowsAfter(s, [begin]);
  }

  lemma SendableGrows(s: State)
    requires Inv(s) && Sendable(s)
    ensures Grows(s)
  {
    hide Inv, Step;
    if s.writeGate.Some? && s.writeGate.value in s.ops && IsWriter(s.ops[s.writeGate.value].call) {
      var g := s.writeGate.value;
      var es := DriveHolder(s, g);
      var t := RunFrom(s, es);
      if t.writeGate.Some? {
        WriterGrows(t, g);
      } else {
        SendableWhenFree(t);
      }
      GrowsAfter(s, es);
    } else {
      SendableWhenFree(s);
    }
  }

  lemma SendableWhenFree(s: State)
    requires Inv(s) && Sendable(s)
    requires s.writeGate.Some? && s.writeGate.value in s.ops ==> !IsWriter(s.ops[s.writeGate.value].call)
    ensures Grows(s)
  {
    hide Inv, Step;
    var es := Prepare(s);
    NewSendGrows(RunFrom(s, es));
    GrowsAfter(s, es);
  }

  /**
   From any reachable state the wire can still grow exactly if a data writer stands between its last check
   and a write with the stream still there to be had, or stands before that check on an open connection, or
   the send direction is open and the write gate is not held by a call that is about to close or shut it.
   */
  lemma WireGrowsExactly(es: seq<Event>)
    ensures (exists more :: Run(es + more).wire != Run(es).wire) <==> WireCanGrow(Run(es))
  {
    var s := Run(es);
    RunInv(es);
    if WireCanGrow(s) {
      if id :| CanStillWrite(s, id) {
        StillWriterGrows(s, id);
      } else if Closed !in s.flags && exists id :: AtLastCheck(s, id) {
        var id :| AtLastCheck(s, id);
        LastCheckGrows(s, id);
      } else {
        SendableGrows(s);
      }
      var more :| RunFrom(s, more).wire != s.wire;
      RunAppend(es, more);
    } else {
      forall more ensures Run(es + more).wire == s.wire {
        RunAppend(es, more);
        StuckRun(s, more);
      }
    }
  }

  /**
   Writes after closure, exactly. On a closed connection the wire can still grow if and only if some data
   writer awaits its write, or has passed the closure check of `stream()` while the slot still holds the
   stream. What it can add is bounded by `ClosedWire`: one writer, and only its own buffer.
   */
  lemma ClosedWireExactly(es: seq<Event>)
    requires Closed in Run(es).flags
    ensures (exists more :: Run(es + more).wire != Run(es).wire) <==> exists id :: CanStillWrite(Run(es), id)
  {
    WireGrowsExactly(es);
  }

  // ------------------------------------------------------------------ a write after closure

  lemma StartsSend()
    ensures Run([By(0, Begin(Send([0])))] + ToIo(0)) == RunFrom(Step(Init, By(0, Begin(Send([0])))), ToIo(0))
    ensures At(Run([By(0, Begin(Send([0])))] + ToIo(0)), 0, AwaitIo)
    ensures OpenFlags(Run([By(0, Begin(Send([0])))] + ToIo(0)).flags)
    ensures Run([By(0, Begin(Send([0])))] + ToIo(0)).ops.Keys == {0}
    ensures Run([By(0, Begin(Send([0])))] + ToIo(0)).ops[0].call == Send([0])
  {
    hide Step, ToIo;
    var begin := By(0, Begin(Send([0])));
    SendBegins(Init, 0);
    FirstSend();
    RunFromOne(Init, begin);
    ReachesIo(Step(Init, begin), 0);
    RunAppend([begin], ToIo(0));
  }

  lemma FirstSend()
    ensures Step(Init, By(0, Begin(Send([0])))).ops == map[0 := Op(Send([0]), LoadClosed(First), 0, {})]
    ensures Step(Init, By(0, Begin(Send([0])))).writeGate.None?
  {
  }

  lemma CloseStarts(s: State)
    requires s.ops.Keys == {0}
    ensures var t := Step(s, By(1, Begin(Close)));
      && At(t, 1, Closing(Swap, Success)) && t.ops[1].call.Close? && t.flags == s.flags
      && 0 in t.ops && t.ops[0] == s.ops[0]
  {
  }

  /** A full `close()` has cancelled both tokens and emptied the slot, and then a send that was waiting for
      its write puts a byte on the wire. */
  lemma WritesAfterClose() returns (es: seq<Event>)
    ensures {Closed, CloseToken, ReadToken, SlotEmpty} <= Run(es).flags
    ensures |Run(es + [By(0, IoWrite(1))]).wire| == |Run(es).wire| + 1
  {
    hide Step, Inv, ToIo, TickList;
    StartsSend();
    var start := [By(0, Begin(Send([0])))] + ToIo(0);
    CloseStarts(Run(start));
    var closing := start + [By(1, Begin(Close))];
    RunFromSnoc(Init, start, By(1, Begin(Close)));
    CloseStores(Run(closing), 1);
    RunAppend(closing, TickList(1, 4));
    var stored := closing + TickList(1, 4);
    CloseCancels(Run(stored), 1);
    RunAppend(stored, TickList(1, 3));
    es := stored + TickList(1, 3);
    RunInv(es);
    WriterWrites(Run(es), 0);
    RunFromSnoc(Init, es, By(0, IoWrite(1)));
  }
}
