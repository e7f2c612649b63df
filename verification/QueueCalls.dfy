/**
 Queue calls by what was asked: which results each kind of call can return, that a successful send is exactly
 an accepted item, and that waiting sends and receives come through once their way is free.
 */
module QueueCalls {
  import opened Wrappers
  import opened Tasks
  import opened Queues

  // ------------------------------------------------------------------ each kind of call has its results

  /** What call `id` was asked to do. */
  function RequestOf(es: seq<QueueEvent>, id: CallId): Option<Request> {
    if es == [] then None
    else
      var before, e := RequestOf(es[..|es| - 1], id), es[|es| - 1];
      if before.None? && e.Begin? && e.id == id then Some(e.request) else before
  }

  /** Where a call can be, and what it can have returned, by what it was asked to do. */
  predicate Fits(request: Request, stage: Stage) {
    match request
    case Send(item) =>
      || (stage.SendWaiting? && stage.item == item) || (stage.SendPolled? && stage.item == item)
      || stage == Returned(Sent) || stage == Returned(QueueClosed) || stage == Returned(Dropped)
    case TrySend(item) =>
      || stage == TryToken(item) || stage == TryClosed(item) || stage == TryAcquire(item)
      || stage == SendPolled(item, Reserved)
      || stage == Returned(Sent) || stage == Returned(QueueClosed) || stage == Returned(QueueFull)
    case Recv =>
      || stage == RecvQueued || stage == RecvToken || stage == RecvPolled || stage == RecvClosing || stage == RecvDraining
      || (stage.Returned? && (stage.outcome.Got? || stage.outcome == QueueClosed || stage.outcome == Dropped))
    case TryRecv =>
      || stage == TryLock || stage == TryRecvToken || stage == TryRecvClosing || stage == TryPop
      || (stage.Returned? && (stage.outcome.Got? || stage.outcome == QueueClosed || stage.outcome == QueueEmpty
                              || stage.outcome == QueueBusy))
    case Close => IsClose(stage) || stage == Returned(Done)
  }

  lemma TickFits(q: Queue, id: CallId, request: Request)
    requires id in q.calls && Fits(request, q.calls[id])
    ensures id in TickOf(q, id).calls && Fits(request, TickOf(q, id).calls[id])
  {
  }

  lemma StepFits(q: Queue, e: QueueEvent, id: CallId, request: Request)
    requires id in q.calls && Fits(request, q.calls[id])
    ensures id in QueueStep(q, e).calls && Fits(request, QueueStep(q, e).calls[id])
  {
    hide TickOf, Fits;
    OnlyMover(q, e);
    if e.id == id {
      if e.Tick? {
        TickFits(q, id, request);
      } else {
        RestFits(q, e, request);
      }
    }
  }

  lemma RestFits(q: Queue, e: QueueEvent, request: Request)
    requires !e.Tick? && e.id in q.calls && Fits(request, q.calls[e.id])
    ensures e.id in QueueStep(q, e).calls && Fits(request, QueueStep(q, e).calls[e.id])
  {
  }

  lemma BeginFits(q: Queue, id: CallId, request: Request)
    requires id !in q.calls
    ensures id in QueueStep(q, Begin(id, request)).calls
    ensures Fits(request, QueueStep(q, Begin(id, request)).calls[id])
  {
  }

  lemma NoNewCall(q: Queue, e: QueueEvent, id: CallId)
    requires id !in q.calls && !(e.Begin? && e.id == id)
    ensures id !in QueueStep(q, e).calls
  {
    hide TickOf, DropOf;
    OnlyMover(q, e);
  }

  /**
   Results by kind. A waiting `send` never reports a full queue and a waiting `recv` neither an empty nor a busy
   one: they return an item moved, a closed queue, or they are dropped. Each immediate call returns at once
   what it may return, and no call ever does what another was asked to do.
   */
  lemma {:induction false} ResultsFitRequests(capacity: Option<nat>, es: seq<QueueEvent>, id: CallId)
    ensures var q, asked := QueueRun(capacity, es), RequestOf(es, id);
      && (id in q.calls <==> asked.Some?)
      && (asked.Some? ==> Fits(asked.value, q.calls[id]))
  {
    hide QueueStep, Fits;
    if es != [] {
      var init, e := es[..|es| - 1], es[|es| - 1];
      var q := QueueRun(capacity, init);
      ResultsFitRequests(capacity, init, id);
      if id in q.calls {
        StepFits(q, e, id, RequestOf(init, id).value);
      } else if e.Begin? && e.id == id {
        BeginFits(q, id, e.request);
      } else {
        NoNewCall(q, e, id);
      }
    }
  }

  // ------------------------------------------------------------------ sent means accepted

  predicate HasSent(q: Queue, id: CallId) {
    id in q.calls && q.calls[id] == Returned(Sent)
  }

  /** The step pushes the item of call `id`. */
  predicate Pushes(q: Queue, e: QueueEvent) {
    e.Tick? && e.id in q.calls && q.calls[e.id].SendPolled? && q.calls[e.id].slot == Reserved
  }

  lemma PushStep(q: Queue, e: QueueEvent)
    requires Pushes(q, e)
    ensures var next := QueueStep(q, e);
      && next.accepted == q.accepted + [Entry(e.id, q.calls[e.id].item)] && !HasSent(q, e.id) && HasSent(next, e.id)
      && forall id :: id != e.id ==> (HasSent(next, id) <==> HasSent(q, id))
  {
  }

  lemma NoPushTick(q: Queue, id: CallId)
    requires id in q.calls && !Pushes(q, Tick(id))
    ensures TickOf(q, id).accepted == q.accepted && (HasSent(TickOf(q, id), id) <==> HasSent(q, id))
  {
  }

  lemma NoPushRest(q: Queue, e: QueueEvent)
    requires !e.Tick?
    ensures QueueStep(q, e).accepted == q.accepted && (HasSent(QueueStep(q, e), e.id) <==> HasSent(q, e.id))
  {
  }

  lemma NoPushStep(q: Queue, e: QueueEvent)
    requires !Pushes(q, e)
    ensures var next := QueueStep(q, e);
      next.accepted == q.accepted && forall id :: HasSent(next, id) <==> HasSent(q, id)
  {
    hide TickOf, DropOf, Pushes;
    OnlyMover(q, e);
    if e.Tick? {
      if e.id in q.calls {
        NoPushTick(q, e.id);
      }
    } else {
      NoPushRest(q, e);
    }
  }

  predicate Carries(request: Option<Request>, item: Item) {
    request == Some(Request.Send(item)) || request == Some(Request.TrySend(item))
  }

  /** The accepted entries are those of the successful calls, one for each and with its own item. */
  ghost predicate Accounts(q: Queue, es: seq<QueueEvent>) {
    && (forall i, j :: 0 <= i < j < |q.accepted| ==> q.accepted[i].id != q.accepted[j].id)
    && (forall id :: HasSent(q, id) <==> exists i :: 0 <= i < |q.accepted| && q.accepted[i].id == id)
    && (forall i :: 0 <= i < |q.accepted| ==> Carries(RequestOf(es, q.accepted[i].id), q.accepted[i].item))
  }

  lemma PushAccounts(q: Queue, next: Queue, es: seq<QueueEvent>, entry: Entry)
    requires Accounts(q, es) && next.accepted == q.accepted + [entry] && !HasSent(q, entry.id) && HasSent(next, entry.id)
    requires forall id :: id != entry.id ==> (HasSent(next, id) <==> HasSent(q, id))
    requires Carries(RequestOf(es, entry.id), entry.item)
    ensures Accounts(next, es)
  {
    hide HasSent, Carries, RequestOf;
    forall id ensures HasSent(next, id) <==> exists i :: 0 <= i < |next.accepted| && next.accepted[i].id == id {
      if id == entry.id {
        assert next.accepted[|q.accepted|].id == id;
      } else if HasSent(q, id) {
        var i :| 0 <= i < |q.accepted| && q.accepted[i].id == id;
        assert next.accepted[i].id == id;
      }
    }
  }

  lemma RequestStays(es: seq<QueueEvent>, e: QueueEvent, id: CallId)
    ensures RequestOf(es, id).Some? ==> RequestOf(es + [e], id) == RequestOf(es, id)
  {
    assert (es + [e])[..|es|] == es;
  }

  lemma AccountsLater(q: Queue, es: seq<QueueEvent>, e: QueueEvent)
    requires Accounts(q, es)
    ensures Accounts(q, es + [e])
  {
    forall i | 0 <= i < |q.accepted| ensures Carries(RequestOf(es + [e], q.accepted[i].id), q.accepted[i].item) {
      RequestStays(es, e, q.accepted[i].id);
    }
  }

  /**
   Sent exactly once. A send has returned success if and only if its item has been accepted, under its own
   number, once, and with the item it was given; so with conservation each sent item is delivered or buffered,
   and nothing else ever is.
   */
  lemma {:induction false} SentIsAccepted(capacity: Option<nat>, es: seq<QueueEvent>)
    ensures Accounts(QueueRun(capacity, es), es)
  {
    hide QueueStep, Pushes, HasSent, Accounts, Fits;
    if es == [] {
      NothingSent(capacity);
    } else {
      var init, e := es[..|es| - 1], es[|es| - 1];
      var q := QueueRun(capacity, init);
      SentIsAccepted(capacity, init);
      AccountsLater(q, init, e);
      assert init + [e] == es;
      if Pushes(q, e) {
        PushStep(q, e);
        PusherCarries(capacity, init, e);
        RequestStays(init, e, e.id);
        PushAccounts(q, QueueStep(q, e), es, Entry(e.id, q.calls[e.id].item));
      } else {
        NoPushStep(q, e);
        SameAccounts(q, QueueStep(q, e), es);
      }
    }
  }

  lemma NothingSent(capacity: Option<nat>)
    ensures Accounts(QueueRun(capacity, []), [])
  {
  }

  lemma SameAccounts(q: Queue, next: Queue, es: seq<QueueEvent>)
    requires Accounts(q, es) && next.accepted == q.accepted && forall id :: HasSent(next, id) <==> HasSent(q, id)
    ensures Accounts(next, es)
  {
    hide HasSent, Carries, RequestOf;
  }

  lemma PusherCarries(capacity: Option<nat>, es: seq<QueueEvent>, e: QueueEvent)
    requires Pushes(QueueRun(capacity, es), e)
    ensures e.id in QueueRun(capacity, es).calls && QueueRun(capacity, es).calls[e.id].SendPolled?
    ensures Carries(RequestOf(es, e.id), QueueRun(capacity, es).calls[e.id].item)
  {
    ResultsFitRequests(capacity, es, e.id);
  }

  // ------------------------------------------------------------------ items move only by these results

  /** A step moves items only if it makes a send return success or a receive return an item. */
  lemma OnlyResultsMoveItems(capacity: Option<nat>, es: seq<QueueEvent>, e: QueueEvent)
    ensures var q, next := QueueRun(capacity, es), QueueRun(capacity, es + [e]);
      Untouched(q, next)
      || (e.Tick? && e.id in q.calls && !q.calls[e.id].Returned? && e.id in next.calls
          && next.calls[e.id].Returned? && (next.calls[e.id].outcome.Sent? || next.calls[e.id].outcome.Got?))
  {
    assert (es + [e])[..|es|] == es;
    var q := QueueRun(capacity, es);
    if e.Tick? && e.id in q.calls {
      TickMoves(q, e.id);
    }
  }

  lemma TickMoves(q: Queue, id: CallId)
    requires id in q.calls
    ensures var next := TickOf(q, id);
      Untouched(q, next)
      || (!q.calls[id].Returned? && id in next.calls && next.calls[id].Returned?
          && (next.calls[id].outcome.Sent? || next.calls[id].outcome.Got?))
  {
  }

  /** A dropped future leaves no trace: its permit or the receiver goes back. */
  lemma DropReleases(capacity: Option<nat>, es: seq<QueueEvent>, id: CallId)
    requires id in QueueRun(capacity, es).calls
    requires var stage := QueueRun(capacity, es).calls[id];
      stage.SendWaiting? || stage == RecvQueued || stage == RecvToken || stage == RecvDraining
    ensures var q, next := QueueRun(capacity, es), QueueRun(capacity, es + [Drop(id)]);
      && id in next.calls && next.calls[id] == Returned(Dropped) && next.lock != Some(id) && Untouched(q, next)
      && next.used == q.used - (if HoldsPermit(q.calls[id]) then 1 else 0)
  {
    hide QueueRunFrom, QueueInv;
    var q := QueueRun(capacity, es);
    QueueRunInv(capacity, es);
    RunSnoc(capacity, es, Drop(id));
    DropStep(q, id);
  }

  lemma RunSnoc(capacity: Option<nat>, es: seq<QueueEvent>, e: QueueEvent)
    ensures QueueRun(capacity, es + [e]) == QueueStep(QueueRun(capacity, es), e)
  {
    assert (es + [e])[..|es|] == es;
  }

  lemma DropStep(q: Queue, id: CallId)
    requires QueueInv(q) && id in q.calls
    requires var stage := q.calls[id]; stage.SendWaiting? || stage == RecvQueued || stage == RecvToken || stage == RecvDraining
    ensures var next := QueueStep(q, Drop(id));
      && id in next.calls && next.calls[id] == Returned(Dropped) && next.lock != Some(id) && Untouched(q, next)
      && next.used == q.used - (if HoldsPermit(q.calls[id]) then 1 else 0)
  {
    hide Conserved, Closing, Holders;
    if HoldsPermit(q.calls[id]) {
      HolderCounts(q.calls, id);
    }
  }

  // ------------------------------------------------------------------ waiting calls come through

  lemma RunOfThree(q: Queue, a: QueueEvent, b: QueueEvent, c: QueueEvent)
    ensures QueueRunFrom(q, [a] + [b] + [c]) == QueueStep(QueueStep(QueueStep(q, a), b), c)
  {
    hide QueueStep;
    assert ([a] + [b] + [c])[..2] == [a] + [b] && ([a] + [b])[..1] == [a] && [a][..0] == [];
    assert QueueRunFrom(q, [a]) == QueueStep(QueueRunFrom(q, []), a);
    assert QueueRunFrom(q, [a] + [b]) == QueueStep(QueueRunFrom(q, [a]), b);
  }

  /** With a free slot, a waiting send that is polled, or that is handed the slot, sends its item. */
  lemma WaitingSendComes(q: Queue, id: CallId)
    requires id in q.calls && q.calls[id].SendWaiting? && q.calls[id].slot != Reserved
    requires q.token == Armed && q.channel == Open && HasPermit(q)
    ensures var t := QueueRunFrom(q, [Tick(id)] + [Tick(id)] + [Tick(id)]);
      && id in t.calls && t.calls[id] == Returned(Sent) && t.buffer == q.buffer + [q.calls[id].item]
    ensures q.calls[id].slot == Parked ==>
      var t := QueueRunFrom(q, [Assign(id)] + [Tick(id)] + [Tick(id)]);
      && id in t.calls && t.calls[id] == Returned(Sent) && t.buffer == q.buffer + [q.calls[id].item]
  {
    hide QueueRunFrom;
    RunOfThree(q, Tick(id), Tick(id), Tick(id));
    RunOfThree(q, Assign(id), Tick(id), Tick(id));
    PollSteps(q, id);
  }

  lemma PollSteps(q: Queue, id: CallId)
    requires id in q.calls && q.calls[id].SendWaiting? && q.calls[id].slot != Reserved
    requires q.token == Armed && q.channel == Open && HasPermit(q)
    ensures var t := QueueStep(QueueStep(QueueStep(q, Tick(id)), Tick(id)), Tick(id));
      && id in t.calls && t.calls[id] == Returned(Sent) && t.buffer == q.buffer + [q.calls[id].item]
    ensures q.calls[id].slot == Parked ==>
      var t := QueueStep(QueueStep(QueueStep(q, Assign(id)), Tick(id)), Tick(id));
      && id in t.calls && t.calls[id] == Returned(Sent) && t.buffer == q.buffer + [q.calls[id].item]
  {
    hide ReceiveTick, CloseTick, DropOf;
  }

  /**
   A send that waits on a full open queue gets through after one receive, in any reachable state with a
   buffered item and a free receiver.
   */
  lemma ReceiveAdmitsSend(capacity: Option<nat>, es: seq<QueueEvent>, id: CallId, receiver: CallId)
    requires var q := QueueRun(capacity, es);
      && id in q.calls && q.calls[id].SendWaiting? && q.calls[id].slot != Reserved
      && q.token == Armed && q.channel == Open && q.lock.None? && q.buffer != [] && receiver !in q.calls
    ensures var q := QueueRun(capacity, es);
      var t := QueueRun(capacity, es + Immediately(receiver, TryRecv) + ([Tick(id)] + [Tick(id)] + [Tick(id)]));
      && id in t.calls && t.calls[id] == Returned(Sent) && t.delivered == q.delivered + [q.buffer[0]]
      && t.buffer == q.buffer[1..] + [q.calls[id].item]
  {
    hide QueueRunFrom, QueueStep;
    var q := QueueRun(capacity, es);
    QueueRunInv(capacity, es);
    TakesOne(q, receiver, id);
    var taken := QueueRunFrom(q, Immediately(receiver, TryRecv));
    QueueRunAppend(NewQueue(capacity), es, Immediately(receiver, TryRecv));
    WaitingSendComes(taken, id);
    SendsDeliverNothing(taken, id);
    QueueRunAppend(NewQueue(capacity), es + Immediately(receiver, TryRecv), [Tick(id)] + [Tick(id)] + [Tick(id)]);
  }

  lemma SendsDeliverNothing(q: Queue, id: CallId)
    requires id in q.calls && q.calls[id].SendWaiting? && q.calls[id].slot != Reserved
    requires q.token == Armed && q.channel == Open && HasPermit(q)
    ensures QueueRunFrom(q, [Tick(id)] + [Tick(id)] + [Tick(id)]).delivered == q.delivered
  {
    hide QueueRunFrom, ReceiveTick, CloseTick, DropOf;
    RunOfThree(q, Tick(id), Tick(id), Tick(id));
  }

  lemma TakesOne(q: Queue, receiver: CallId, id: CallId)
    requires QueueInv(q) && q.lock.None? && receiver !in q.calls && q.buffer != [] && id in q.calls && q.token == Armed
    requires q.channel == Open
    ensures var t := QueueRunFrom(q, Immediately(receiver, TryRecv));
      && id in t.calls && t.calls[id] == q.calls[id] && t.token == Armed && t.channel == Open && HasPermit(t)
      && t.buffer == q.buffer[1..] && t.delivered == q.delivered + [q.buffer[0]]
  {
    hide SendTick, CloseTick, DropOf, ReceiveTick, TickOf, Holders, Conserved, Locking, Closing;
    FiveSteps(q, Begin(receiver, TryRecv), Tick(receiver));
    var a := QueueStep(q, Begin(receiver, TryRecv));
    ReceiveTicks(a, receiver);
    var b := QueueStep(a, Tick(receiver));
    ReceiveTicks(b, receiver);
    var c := QueueStep(b, Tick(receiver));
    ReceiveTicks(c, receiver);
    ReceiveTicks(QueueStep(c, Tick(receiver)), receiver);
    assert q.used >= |q.buffer| > 0;
  }

  /** A waiting receive that holds the receiver and looks at a queue with an item returns the oldest; without
      one it goes on waiting, unless the channel is shut and idle. */
  lemma WaitingReceiveLooks(q: Queue, id: CallId)
    requires id in q.calls && q.calls[id] == RecvToken && q.token == Armed
    ensures var t := QueueStep(QueueStep(q, Tick(id)), Tick(id));
      && id in t.calls
      && (q.buffer != [] ==> t.calls[id] == Returned(Got(q.buffer[0])) && t.buffer == q.buffer[1..] && t.lock.None?)
      && (q.buffer == [] && q.channel == Open ==> t.calls[id] == RecvToken && t.lock == q.lock)
  {
    hide SendTick, CloseTick, DropOf;
  }

  /** The undisturbed waiting receive: on a free open queue with an item it returns the oldest; on a closed one
      it drains, and reports closure exactly when nothing is buffered or reserved. */
  lemma WaitingReceiveComes(q: Queue, id: CallId)
    requires QueueInv(q) && id !in q.calls && q.lock.None?
    ensures var t := QueueRunFrom(q, Immediately(id, Recv));
      && id in t.calls
      && (q.buffer != [] ==> t.calls[id] == Returned(Got(q.buffer[0])) && t.buffer == q.buffer[1..])
      && (q.buffer == [] && q.token == Armed ==> t.calls[id] == RecvPolled && t.lock == Some(id))
      && (q.buffer == [] && q.token == Cancelled && q.used == 0 ==> t.calls[id] == Returned(QueueClosed))
      && (q.buffer == [] && q.token == Cancelled && q.used > 0 ==> t.calls[id] == RecvDraining)
  {
    hide QueueRunFrom, SendTick, CloseTick, DropOf, ReceiveTick, TickOf, Conserved, Permits, Locking;
    FiveSteps(q, Begin(id, Recv), Tick(id));
    var a := QueueStep(q, Begin(id, Recv));
    WaitTicks(a, id);
    var b := QueueStep(a, Tick(id));
    WaitTicks(b, id);
    var c := QueueStep(b, Tick(id));
    WaitTicks(c, id);
    WaitTicks(QueueStep(c, Tick(id)), id);
  }

  lemma WaitTicks(q: Queue, id: CallId)
    requires id in q.calls
    ensures var next := QueueStep(q, Tick(id));
      && id in next.calls
      && (q.calls[id] == RecvQueued && q.lock.None? ==> next == Grant(q, id, RecvToken))
      && (q.calls[id] == RecvToken && q.token == Cancelled ==> next == To(q, id, RecvClosing))
      && (q.calls[id] == RecvToken && q.token == Armed ==> next == To(q, id, RecvPolled))
      && (q.calls[id] == RecvPolled && q.buffer == [] && q.channel == Open ==> next == To(q, id, RecvToken))
      && (q.calls[id] == RecvClosing ==> next == ShutChannel(q, id, RecvDraining))
      && ((q.calls[id] == RecvPolled || q.calls[id] == RecvDraining) && q.buffer != [] ==> next == Pop(q, id))
      && (q.calls[id] == RecvDraining && q.buffer == [] && q.channel == Shut ==>
            next == (if q.used == 0 then Unlock(q, id, QueueClosed) else q))
      && (q.calls[id].Returned? ==> next == q)
  {
  }

  /** The token comes first in every poll: once it is cancelled, a waiting send that is polled again returns the
      closed report and gives its permit back, and a waiting receive shuts the channel before it looks. */
  lemma CancelledPolls(q: Queue, id: CallId)
    requires QueueInv(q) && id in q.calls && q.token == Cancelled
    ensures q.calls[id].SendWaiting? ==>
      var t := QueueStep(q, Tick(id));
      && id in t.calls && t.calls[id] == Returned(QueueClosed) && Untouched(q, t)
      && t.used == q.used - (if HoldsPermit(q.calls[id]) then 1 else 0)
    ensures q.calls[id] == RecvToken ==>
      var t := QueueStep(QueueStep(q, Tick(id)), Tick(id));
      id in t.calls && t.calls[id] == RecvDraining && t.channel == Shut && Untouched(q, t)
  {
    hide Conserved, Locking, Closing, Holders;
    if HoldsPermit(q.calls[id]) {
      HolderCounts(q.calls, id);
    }
  }
}
