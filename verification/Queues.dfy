/**
 The two queues of the binding as a step machine.

 A queue is a tokio channel, a mutex around its receiver, and a shutdown token. Every event is one
 atomic action of one call: a load, a permit, a push, a lock, a pop. A waiting call is polled again and
 again; every poll of a biased select looks at the token first. A permit may be assigned to a parked
 sender before it is polled. Futures may be dropped wherever they can be parked.
 */
module Queues {
  import opened Wrappers
  import opened Tasks

  /** The identity of a Python object. */
  type Item = nat

  datatype Channel = Open | Shut

  datatype Slot = Unpolled | Parked | Reserved

  datatype Outcome = Sent | Got(item: Item) | QueueClosed | QueueFull | QueueEmpty | QueueBusy | Done | Dropped

  datatype Stage =
    | SendWaiting(item: Item, slot: Slot)   // before a poll
    | SendPolled(item: Item, slot: Slot)    // the token was not cancelled in this poll
    | TryToken(item: Item)
    | TryClosed(item: Item)
    | TryAcquire(item: Item)
    | RecvQueued                            // waits for the receiver lock
    | RecvToken                             // holds the lock, before a poll
    | RecvPolled                            // the token was not cancelled in this poll
    | RecvClosing                           // the token was cancelled
    | RecvDraining                          // the channel is closed: the buffer is read to its end
    | TryLock
    | TryRecvToken
    | TryRecvClosing
    | TryPop
    | CloseCancel
    | CloseTry
    | CloseChannel
    | Returned(outcome: Outcome)

  datatype Request = Send(item: Item) | TrySend(item: Item) | Recv | TryRecv | Close

  datatype Entry = Entry(id: CallId, item: Item)

  /**
   `used` is the semaphore's count of taken permits. The last three fields are a ghost account: every item
   pushed, every item popped, and the calls that began when the token was already cancelled.
   */
  datatype Queue = Queue(
    capacity: Option<nat>,
    token: Token,
    channel: Channel,
    lock: Option<CallId>,
    used: nat,
    buffer: seq<Item>,
    calls: map<CallId, Stage>,
    accepted: seq<Entry>,
    delivered: seq<Item>,
    late: set<CallId>)

  datatype QueueEvent =
    | Begin(id: CallId, request: Request)
    | Tick(id: CallId)
    | Assign(id: CallId)      // a freed permit goes to a parked sender
    | Drop(id: CallId)

  function NewQueue(capacity: Option<nat>): Queue {
    Queue(capacity, Armed, Open, None, 0, [], map[], [], [], {})
  }

  // ------------------------------------------------------------------ steps

  function Entrance(request: Request): Stage {
    match request
    case Send(item) => SendWaiting(item, Unpolled)
    case TrySend(item) => TryToken(item)
    case Recv => RecvQueued
    case TryRecv => TryLock
    case Close => CloseCancel
  }

  predicate HasPermit(q: Queue) {
    q.capacity.None? || q.used < q.capacity.value
  }

  /** The channel reports disconnected only when it is closed and idle: nothing buffered, no permit out. */
  predicate Disconnected(q: Queue) {
    q.channel == Shut && q.used == 0
  }

  function To(q: Queue, id: CallId, stage: Stage): Queue {
    q.(calls := q.calls[id := stage])
  }

  function Reserve(q: Queue, id: CallId, stage: Stage): Queue {
    q.(calls := q.calls[id := stage], used := q.used + 1)
  }

  function GiveBack(q: Queue, id: CallId, outcome: Outcome): Queue {
    q.(calls := q.calls[id := Returned(outcome)], used := if q.used > 0 then q.used - 1 else 0)
  }

  function Push(q: Queue, id: CallId, item: Item): Queue {
    q.(calls := q.calls[id := Returned(Sent)], buffer := q.buffer + [item], accepted := q.accepted + [Entry(id, item)])
  }

  function Unlock(q: Queue, id: CallId, outcome: Outcome): Queue {
    q.(calls := q.calls[id := Returned(outcome)], lock := None)
  }

  function Pop(q: Queue, id: CallId): Queue
    requires q.buffer != []
  {
    q.(calls := q.calls[id := Returned(Got(q.buffer[0]))],
       lock := None,
       buffer := q.buffer[1..],
       delivered := q.delivered + [q.buffer[0]],
       used := if q.used > 0 then q.used - 1 else 0)
  }

  function Grant(q: Queue, id: CallId, stage: Stage): Queue {
    q.(calls := q.calls[id := stage], lock := Some(id))
  }

  function ShutChannel(q: Queue, id: CallId, stage: Stage): Queue {
    q.(calls := q.calls[id := stage], channel := Shut)
  }

  /** `rx.recv()` or `rx.try_recv()` looks once; `otherwise` is what happens when there is nothing yet. */
  function Look(q: Queue, id: CallId, otherwise: Queue): Queue {
    if q.buffer != [] then Pop(q, id)
    else if Disconnected(q) then Unlock(q, id, QueueClosed)
    else otherwise
  }

  function SendTick(q: Queue, id: CallId, stage: Stage): Queue {
    match stage
    case SendWaiting(item, slot) =>
      if q.token == Armed then To(q, id, SendPolled(item, slot))
      else if slot == Reserved then GiveBack(q, id, QueueClosed) else To(q, id, Returned(QueueClosed))
    case SendPolled(item, slot) =>
      if slot == Reserved then Push(q, id, item)
      else if q.channel == Shut then To(q, id, Returned(QueueClosed))
      else if HasPermit(q) then Reserve(q, id, SendPolled(item, Reserved))
      else To(q, id, SendWaiting(item, Parked))
    case TryToken(item) => To(q, id, if q.token == Armed then TryClosed(item) else Returned(QueueClosed))
    case TryClosed(item) => To(q, id, if q.channel == Open then TryAcquire(item) else Returned(QueueClosed))
    case TryAcquire(item) =>
      if q.channel == Shut then To(q, id, Returned(QueueClosed))
      else if HasPermit(q) then Reserve(q, id, SendPolled(item, Reserved))
      else To(q, id, Returned(QueueFull))
    case _ => q
  }

  function ReceiveTick(q: Queue, id: CallId, stage: Stage): Queue {
    match stage
    case RecvQueued => if q.lock.None? then Grant(q, id, RecvToken) else q
    case RecvToken => To(q, id, if q.token == Cancelled then RecvClosing else RecvPolled)
    case RecvPolled => Look(q, id, To(q, id, RecvToken))
    case RecvClosing => ShutChannel(q, id, RecvDraining)
    case RecvDraining => Look(q, id, q)
    case TryLock => if q.lock.None? then Grant(q, id, TryRecvToken) else To(q, id, Returned(QueueBusy))
    case TryRecvToken => To(q, id, if q.token == Cancelled then TryRecvClosing else TryPop)
    case TryRecvClosing => ShutChannel(q, id, TryPop)
    case TryPop => Look(q, id, Unlock(q, id, QueueEmpty))
    case _ => q
  }

  function CloseTick(q: Queue, id: CallId, stage: Stage): Queue {
    match stage
    case CloseCancel => q.(calls := q.calls[id := CloseTry], token := Cancelled)
    case CloseTry => if q.lock.None? then Grant(q, id, CloseChannel) else To(q, id, Returned(Done))
    case CloseChannel => q.(calls := q.calls[id := Returned(Done)], channel := Shut, lock := None)
    case _ => q
  }

  predicate IsSend(stage: Stage) {
    stage.SendWaiting? || stage.SendPolled? || stage.TryToken? || stage.TryClosed? || stage.TryAcquire?
  }

  predicate IsClose(stage: Stage) {
    stage.CloseCancel? || stage.CloseTry? || stage.CloseChannel?
  }

  function TickOf(q: Queue, id: CallId): Queue
    requires id in q.calls
  {
    var stage := q.calls[id];
    if IsSend(stage) then SendTick(q, id, stage)
    else if IsClose(stage) then CloseTick(q, id, stage)
    else ReceiveTick(q, id, stage)
  }

  /** A future goes away with everything it holds: a permit, or the receiver lock. */
  function DropOf(q: Queue, id: CallId): Queue
    requires id in q.calls
  {
    match q.calls[id]
    case SendWaiting(_, slot) =>
      if slot == Reserved then GiveBack(q, id, Dropped) else To(q, id, Returned(Dropped))
    case RecvQueued => To(q, id, Returned(Dropped))
    case RecvToken => Unlock(q, id, Dropped)
    case RecvDraining => Unlock(q, id, Dropped)
    case _ => q
  }

  function QueueStep(q: Queue, e: QueueEvent): Queue {
    match e
    case Begin(id, request) =>
      if id in q.calls then q
      else q.(calls := q.calls[id := Entrance(request)],
              late := if q.token == Cancelled then q.late + {id} else q.late)
    case Tick(id) => if id in q.calls then TickOf(q, id) else q
    case Assign(id) =>
      if id in q.calls && q.calls[id].SendWaiting? && q.calls[id].slot == Parked && q.channel == Open && HasPermit(q)
      then Reserve(q, id, SendWaiting(q.calls[id].item, Reserved)) else q
    case Drop(id) => if id in q.calls then DropOf(q, id) else q
  }

  function QueueRunFrom(q: Queue, es: seq<QueueEvent>): Queue {
    if es == [] then q else QueueStep(QueueRunFrom(q, es[..|es| - 1]), es[|es| - 1])
  }

  function QueueRun(capacity: Option<nat>, es: seq<QueueEvent>): Queue {
    QueueRunFrom(NewQueue(capacity), es)
  }

  // ------------------------------------------------------------------ invariant

  predicate HoldsPermit(stage: Stage) {
    (stage.SendWaiting? || stage.SendPolled?) && stage.slot == Reserved
  }

  function Holders(calls: map<CallId, Stage>): set<CallId> {
    set id | id in calls && HoldsPermit(calls[id])
  }

  predicate HoldsLock(stage: Stage) {
    stage.RecvToken? || stage.RecvPolled? || stage.RecvClosing? || stage.RecvDraining?
    || stage.TryRecvToken? || stage.TryRecvClosing? || stage.TryPop? || stage.CloseChannel?
  }

  /** A call that has seen the token cancelled, or that found it so when it began. */
  predicate AfterToken(stage: Stage) {
    stage.RecvClosing? || stage.RecvDraining? || stage.TryRecvClosing? || stage.CloseTry? || stage.CloseChannel?
  }

  /** The stages that a send which began after the cancellation can be at. */
  predicate Harmless(stage: Stage) {
    || (stage.SendWaiting? && stage.slot == Unpolled) || stage.TryToken?
    || (!IsSend(stage) && stage != Returned(Sent))
  }

  function Items(entries: seq<Entry>): (items: seq<Item>)
    ensures |items| == |entries|
    ensures forall i :: 0 <= i < |items| ==> items[i] == entries[i].item
  {
    seq(|entries|, i requires 0 <= i < |entries| => entries[i].item)
  }

  predicate Conserved(q: Queue) {
    Items(q.accepted) == q.delivered + q.buffer
  }

  predicate Permits(q: Queue) {
    && q.used == |q.buffer| + |Holders(q.calls)|
    && (q.capacity.Some? ==> q.used <= q.capacity.value)
  }

  predicate Locking(q: Queue) {
    && (forall id :: id in q.calls ==> (HoldsLock(q.calls[id]) <==> q.lock == Some(id)))
    && (q.lock.Some? ==> q.lock.value in q.calls)
  }

  predicate Closing(q: Queue) {
    && (q.channel == Shut ==> q.token == Cancelled)
    && (forall id :: id in q.calls && AfterToken(q.calls[id]) ==> q.token == Cancelled)
    && (forall id :: id in q.calls && q.calls[id].RecvDraining? ==> q.channel == Shut)
    && (q.late != {} ==> q.token == Cancelled)
    && (forall id :: id in q.late ==> id in q.calls && Harmless(q.calls[id]))
    && (forall i :: 0 <= i < |q.accepted| ==> q.accepted[i].id in q.calls && q.accepted[i].id !in q.late)
  }

  predicate QueueInv(q: Queue) {
    Conserved(q) && Permits(q) && Locking(q) && Closing(q)
  }

  /** How one call's move changes the set of permit holders. */
  lemma HoldersAfter(calls: map<CallId, Stage>, id: CallId, stage: Stage)
    ensures var before := id in calls && HoldsPermit(calls[id]);
      |Holders(calls[id := stage])| == |Holders(calls)| + (if HoldsPermit(stage) then 1 else 0) - (if before then 1 else 0)
  {
    var after := Holders(calls[id := stage]);
    if HoldsPermit(stage) {
      assert after == Holders(calls) + {id};
    } else {
      assert after == Holders(calls) - {id};
    }
  }

  /** The count of permits follows the call that moved. */
  predicate PermitMoved(q: Queue, next: Queue, id: CallId) {
    && id in next.calls && next.calls == q.calls[id := next.calls[id]] && next.capacity == q.capacity
    && next.used == q.used + |next.buffer| - |q.buffer|
       + (if HoldsPermit(next.calls[id]) then 1 else 0) - (if id in q.calls && HoldsPermit(q.calls[id]) then 1 else 0)
    && (next.used > q.used ==> next.used == q.used + 1 && HasPermit(q))
  }

  lemma PermitsAfter(q: Queue, next: Queue, id: CallId)
    requires Permits(q) && PermitMoved(q, next, id)
    ensures Permits(next)
  {
    HoldersAfter(q.calls, id, next.calls[id]);
  }

  lemma SendPermits(q: Queue, id: CallId)
    requires id in q.calls && IsSend(q.calls[id]) && q.used >= |q.buffer| + (if HoldsPermit(q.calls[id]) then 1 else 0)
    ensures PermitMoved(q, SendTick(q, id, q.calls[id]), id)
  {
  }

  lemma ReceivePermits(q: Queue, id: CallId)
    requires id in q.calls && !IsSend(q.calls[id]) && q.used >= |q.buffer|
    ensures var next := ReceiveTick(q, id, q.calls[id]); next == q || PermitMoved(q, next, id)
  {
  }

  lemma TickPermits(q: Queue, id: CallId)
    requires id in q.calls && q.used >= |q.buffer| + (if HoldsPermit(q.calls[id]) then 1 else 0)
    ensures TickOf(q, id) == q || PermitMoved(q, TickOf(q, id), id)
  {
    hide SendTick, ReceiveTick, PermitMoved;
    if IsSend(q.calls[id]) {
      SendPermits(q, id);
    } else if IsClose(q.calls[id]) {
      ClosePermits(q, id);
    } else {
      ReceivePermits(q, id);
    }
  }

  lemma ClosePermits(q: Queue, id: CallId)
    requires id in q.calls && IsClose(q.calls[id])
    ensures PermitMoved(q, CloseTick(q, id, q.calls[id]), id)
  {
  }

  lemma StepPermits(q: Queue, e: QueueEvent)
    requires Permits(q)
    ensures Permits(QueueStep(q, e))
  {
    hide Holders, TickOf;
    if e.id in q.calls && HoldsPermit(q.calls[e.id]) {
      HolderCounts(q.calls, e.id);
    }
    if e.Tick? && e.id in q.calls {
      TickPermits(q, e.id);
    }
    if QueueStep(q, e) != q {
      PermitsAfter(q, QueueStep(q, e), e.id);
    }
  }

  lemma HolderCounts(calls: map<CallId, Stage>, id: CallId)
    requires id in calls && HoldsPermit(calls[id])
    ensures |Holders(calls)| > 0
  {
    assert id in Holders(calls);
  }

  lemma StepConserved(q: Queue, e: QueueEvent)
    requires Conserved(q)
    ensures Conserved(QueueStep(q, e))
  {
  }

  /** One call has moved, and what it did to the lock. */
  predicate LockMoved(q: Queue, next: Queue, id: CallId) {
    && id in next.calls && next.calls == q.calls[id := next.calls[id]]
    && (if HoldsLock(next.calls[id]) then next.lock == Some(id) && (q.lock.None? || q.lock == Some(id))
        else next.lock == (if q.lock == Some(id) then None else q.lock))
  }

  lemma LockingAfter(q: Queue, next: Queue, id: CallId)
    requires Locking(q) && LockMoved(q, next, id)
    ensures Locking(next)
  {
  }

  /** One call has moved, and what it did to the token, the channel and the account. */
  ghost predicate CloseMoved(q: Queue, next: Queue, id: CallId) {
    && id in next.calls && next.calls == q.calls[id := next.calls[id]]
    && (q.token == Cancelled ==> next.token == Cancelled) && (q.channel == Shut ==> next.channel == Shut)
    && (next.channel == Shut || AfterToken(next.calls[id]) ==> next.token == Cancelled)
    && (next.calls[id].RecvDraining? ==> next.channel == Shut)
    && (next.late == q.late || (next.late == q.late + {id} && next.token == Cancelled && id !in q.calls))
    && (id in next.late ==> Harmless(next.calls[id]))
    && (next.accepted == q.accepted || exists item :: next.accepted == q.accepted + [Entry(id, item)] && id !in next.late)
  }

  lemma ClosingAfter(q: Queue, next: Queue, id: CallId)
    requires Closing(q) && CloseMoved(q, next, id)
    ensures Closing(next)
  {
  }

  lemma SendMoves(q: Queue, id: CallId)
    requires Locking(q) && Closing(q) && id in q.calls && IsSend(q.calls[id])
    ensures var next := SendTick(q, id, q.calls[id]); LockMoved(q, next, id) && CloseMoved(q, next, id)
  {
  }

  lemma LookMoves(q: Queue, id: CallId, otherwise: Queue)
    requires Locking(q) && Closing(q) && q.lock == Some(id) && id in q.calls
    requires LockMoved(q, otherwise, id) && CloseMoved(q, otherwise, id)
    ensures LockMoved(q, Look(q, id, otherwise), id) && CloseMoved(q, Look(q, id, otherwise), id)
  {
  }

  lemma ReceiveMoves(q: Queue, id: CallId)
    requires Locking(q) && Closing(q) && id in q.calls && !IsSend(q.calls[id]) && !IsClose(q.calls[id])
    ensures var next := ReceiveTick(q, id, q.calls[id]); LockMoved(q, next, id) && CloseMoved(q, next, id)
  {
    match q.calls[id]
    case RecvPolled => LookMoves(q, id, To(q, id, RecvToken));
    case RecvDraining => LookMoves(q, id, q);
    case TryPop => LookMoves(q, id, Unlock(q, id, QueueEmpty));
    case _ =>
  }

  lemma CloseMoves(q: Queue, id: CallId)
    requires Locking(q) && Closing(q) && id in q.calls && IsClose(q.calls[id])
    ensures var next := CloseTick(q, id, q.calls[id]); LockMoved(q, next, id) && CloseMoved(q, next, id)
  {
  }

  lemma DropMoves(q: Queue, id: CallId)
    requires Locking(q) && Closing(q) && id in q.calls
    ensures var next := DropOf(q, id); LockMoved(q, next, id) && CloseMoved(q, next, id)
  {
  }

  lemma StepMoves(q: Queue, e: QueueEvent)
    requires Locking(q) && Closing(q)
    ensures QueueStep(q, e) == q || (LockMoved(q, QueueStep(q, e), e.id) && CloseMoved(q, QueueStep(q, e), e.id))
  {
    if e.Tick? && e.id in q.calls {
      if IsSend(q.calls[e.id]) {
        SendMoves(q, e.id);
      } else if IsClose(q.calls[e.id]) {
        CloseMoves(q, e.id);
      } else {
        ReceiveMoves(q, e.id);
      }
    } else if e.Drop? && e.id in q.calls {
      DropMoves(q, e.id);
    }
  }

  /** The invariant survives every event. */
  lemma QueueStepInv(q: Queue, e: QueueEvent)
    requires QueueInv(q)
    ensures QueueInv(QueueStep(q, e))
  {
    hide QueueStep, Conserved, Permits, Locking, Closing, LockMoved, CloseMoved;
    StepConserved(q, e);
    StepPermits(q, e);
    StepMoves(q, e);
    if QueueStep(q, e) != q {
      LockingAfter(q, QueueStep(q, e), e.id);
      ClosingAfter(q, QueueStep(q, e), e.id);
    }
  }

  lemma NewQueueInv(capacity: Option<nat>)
    ensures QueueInv(NewQueue(capacity))
  {
    assert Holders(map[]) == {};
  }

  lemma KeepsCapacity(q: Queue, e: QueueEvent)
    ensures QueueStep(q, e).capacity == q.capacity
    ensures q.token == Cancelled ==> QueueStep(q, e).token == Cancelled
  {
  }

  lemma {:induction false} QueueRunInv(capacity: Option<nat>, es: seq<QueueEvent>)
    ensures QueueInv(QueueRun(capacity, es)) && QueueRun(capacity, es).capacity == capacity
  {
    hide QueueStep, Conserved, Permits, Locking, Closing;
    if es == [] {
      NewQueueInv(capacity);
    } else {
      KeepsCapacity(QueueRun(capacity, es[..|es| - 1]), es[|es| - 1]);
      QueueRunInv(capacity, es[..|es| - 1]);
      QueueStepInv(QueueRun(capacity, es[..|es| - 1]), es[|es| - 1]);
    }
  }

  lemma {:induction false} QueueRunAppend(q: Queue, es: seq<QueueEvent>, more: seq<QueueEvent>)
    ensures QueueRunFrom(q, es + more) == QueueRunFrom(QueueRunFrom(q, es), more)
  {
    if more == [] {
      assert es + more == es;
    } else {
      assert (es + more)[..|es + more| - 1] == es + more[..|more| - 1];
      QueueRunAppend(q, es, more[..|more| - 1]);
    }
  }

  // ------------------------------------------------------------------ theorems

  /**
   Conservation. Under any interleaving of waiting and immediate sends and receives, dropped waits and
   closes, the accepted items are the delivered ones followed by the buffered ones, in order; the permits
   taken are the buffered items plus those in the hands of senders, and never exceed the capacity.
   */
  lemma QueueConserves(capacity: Option<nat>, es: seq<QueueEvent>)
    ensures var q := QueueRun(capacity, es);
      && Items(q.accepted) == q.delivered + q.buffer
      && q.used == |q.buffer| + |Holders(q.calls)|
      && (capacity.Some? ==> |q.buffer| + |Holders(q.calls)| <= capacity.value)
  {
    QueueRunInv(capacity, es);
  }

  /** No item has moved. */
  predicate Untouched(q: Queue, next: Queue) {
    next.buffer == q.buffer && next.accepted == q.accepted && next.delivered == q.delivered
  }

  /** What the last action of call `id` did to the buffer, by its result. */
  ghost predicate Effect(q: Queue, next: Queue, id: CallId, outcome: Outcome) {
    match outcome
    case Sent =>
      exists item :: next.buffer == q.buffer + [item] && next.accepted == q.accepted + [Entry(id, item)]
                     && next.delivered == q.delivered
    case Got(item) =>
      q.buffer == [item] + next.buffer && next.delivered == q.delivered + [item] && next.accepted == q.accepted
    case QueueClosed => Untouched(q, next) && q.token == Cancelled
    case QueueFull => Untouched(q, next) && q.capacity.Some? && q.used >= q.capacity.value
    case QueueEmpty => Untouched(q, next) && q.buffer == [] && !(q.channel == Shut && q.used == 0)
    case QueueBusy => Untouched(q, next) && q.lock.Some?
    case _ => Untouched(q, next)
  }

  /**
   What each result tells the caller. Sending appends to the buffer, receiving takes its oldest item; every
   other result leaves all items where they are, and each error comes only in the situation it names:
   `QueueFull` when buffered and reserved slots fill the capacity, `QueueEmpty` without an item, `QueueBusy`
   under a lock, `QueueClosed` after the cancellation.
   */
  lemma ResultsMean(capacity: Option<nat>, es: seq<QueueEvent>, id: CallId)
    requires id in QueueRun(capacity, es).calls && !QueueRun(capacity, es).calls[id].Returned?
    ensures var q, next := QueueRun(capacity, es), QueueRun(capacity, es + [Tick(id)]);
      id in next.calls && (next.calls[id].Returned? ==> Effect(q, next, id, next.calls[id].outcome))
  {
    assert (es + [Tick(id)])[..|es|] == es;
    QueueRunInv(capacity, es);
    TickResults(QueueRun(capacity, es), id);
  }

  lemma TickResults(q: Queue, id: CallId)
    requires Locking(q) && Closing(q) && id in q.calls && !q.calls[id].Returned?
    ensures var next := TickOf(q, id);
      id in next.calls && (next.calls[id].Returned? ==> Effect(q, next, id, next.calls[id].outcome))
  {
    if q.buffer != [] {
      assert q.buffer == [q.buffer[0]] + q.buffer[1..];
    }
    if q.calls[id].SendPolled? {
      assert Push(q, id, q.calls[id].item).buffer == q.buffer + [Entry(id, q.calls[id].item).item];
    }
  }

  /** A receive reports the queue closed only when the channel is closed, the buffer empty, and no permit is
      in anybody's hands. */
  lemma ReceiveReportsDrained(capacity: Option<nat>, es: seq<QueueEvent>, id: CallId)
    requires id in QueueRun(capacity, es).calls
    requires !IsSend(QueueRun(capacity, es).calls[id]) && !QueueRun(capacity, es).calls[id].Returned?
    requires id in QueueRun(capacity, es + [Tick(id)]).calls
    requires QueueRun(capacity, es + [Tick(id)]).calls[id] == Returned(QueueClosed)
    ensures Drained(QueueRun(capacity, es + [Tick(id)]))
    ensures QueueRun(capacity, es + [Tick(id)]).buffer == QueueRun(capacity, es).buffer == []
  {
    assert (es + [Tick(id)])[..|es|] == es;
    QueueRunInv(capacity, es);
    QueueRunInv(capacity, es + [Tick(id)]);
    var q := QueueRun(capacity, es);
    assert q.channel == Shut && q.used == 0;
  }

  /** Closed, with nothing buffered and nothing reserved. */
  predicate Drained(q: Queue) {
    q.channel == Shut && q.used == 0 && q.buffer == []
  }

  /** A drained queue stays drained: after the closed report no item ever appears. */
  lemma {:induction false} DrainedStays(capacity: Option<nat>, es: seq<QueueEvent>, more: seq<QueueEvent>)
    requires Drained(QueueRun(capacity, es))
    ensures Drained(QueueRun(capacity, es + more))
    ensures QueueRun(capacity, es + more).accepted == QueueRun(capacity, es).accepted
    ensures QueueRun(capacity, es + more).delivered == QueueRun(capacity, es).delivered
  {
    hide QueueStep, QueueInv;
    if more == [] {
      assert es + more == es;
    } else {
      var init := more[..|more| - 1];
      DrainedStays(capacity, es, init);
      assert (es + more)[..|es + more| - 1] == es + init;
      QueueRunInv(capacity, es + init);
      DrainedStep(QueueRun(capacity, es + init), more[|more| - 1]);
    }
  }

  lemma DrainedStep(q: Queue, e: QueueEvent)
    requires QueueInv(q) && Drained(q)
    ensures var next := QueueStep(q, e); Drained(next) && next.accepted == q.accepted && next.delivered == q.delivered
  {
    if e.id in q.calls && HoldsPermit(q.calls[e.id]) {
      HolderCounts(q.calls, e.id);
      assert false;
    }
  }

  /**
   Lazy close, sending. Although `close` may fail to get the receiver, no send that begins after the token
   was cancelled, and so none that begins after `close` returned, ever adds an item.
   */
  lemma NoLateSend(capacity: Option<nat>, es: seq<QueueEvent>, id: CallId, more: seq<QueueEvent>, item: Item)
    requires QueueRun(capacity, es).token == Cancelled && id !in QueueRun(capacity, es).calls
    ensures Entry(id, item) !in QueueRun(capacity, es + more).accepted
    ensures id in QueueRun(capacity, es + more).calls ==> QueueRun(capacity, es + more).calls[id] != Returned(Sent)
  {
    QueueRunInv(capacity, es + more);
    LateFrom(capacity, es, id, more);
  }

  lemma {:induction false} LateFrom(capacity: Option<nat>, es: seq<QueueEvent>, id: CallId, more: seq<QueueEvent>)
    requires QueueRun(capacity, es).token == Cancelled && id !in QueueRun(capacity, es).calls
    ensures var q := QueueRun(capacity, es + more); q.token == Cancelled && (id in q.calls ==> id in q.late)
  {
    hide QueueStep;
    if more == [] {
      assert es + more == es;
    } else {
      LateFrom(capacity, es, id, more[..|more| - 1]);
      assert (es + more)[..|es + more| - 1] == es + more[..|more| - 1];
      LateStep(QueueRun(capacity, es + more[..|more| - 1]), id, more[|more| - 1]);
    }
  }

  lemma LateStep(q: Queue, id: CallId, e: QueueEvent)
    requires q.token == Cancelled && (id in q.calls ==> id in q.late)
    ensures var next := QueueStep(q, e); next.token == Cancelled && (id in next.calls ==> id in next.late)
  {
  }

  /** A `close` that has returned has cancelled the token. */
  lemma {:induction false} CloseCancels(capacity: Option<nat>, es: seq<QueueEvent>, id: CallId)
    requires id in QueueRun(capacity, es).calls && QueueRun(capacity, es).calls[id] == Returned(Done)
    ensures QueueRun(capacity, es).token == Cancelled
  {
    hide QueueStep, QueueInv;
    if es != [] {
      var q, e := QueueRun(capacity, es[..|es| - 1]), es[|es| - 1];
      QueueRunInv(capacity, es[..|es| - 1]);
      KeepsCapacity(q, e);
      if id in q.calls && q.calls[id] == Returned(Done) {
        CloseCancels(capacity, es[..|es| - 1], id);
      } else {
        TokenSeen(q, id);
        DoneStep(q, id, e);
      }
    }
  }

  lemma TokenSeen(q: Queue, id: CallId)
    requires QueueInv(q)
    ensures id in q.calls && AfterToken(q.calls[id]) ==> q.token == Cancelled
  {
  }

  lemma DoneStep(q: Queue, id: CallId, e: QueueEvent)
    requires id in q.calls && AfterToken(q.calls[id]) ==> q.token == Cancelled
    requires id in QueueStep(q, e).calls && QueueStep(q, e).calls[id] == Returned(Done)
    requires id in q.calls ==> q.calls[id] != Returned(Done)
    ensures QueueStep(q, e).token == Cancelled
  {
    hide SendTick, ReceiveTick, DropOf;
    OnlyMover(q, e);
    if e.Tick? && id in q.calls && !IsClose(q.calls[id]) {
      OthersNeverDone(q, id);
    }
    if e.Drop? && id in q.calls {
      OthersNeverDone(q, id);
    }
  }

  lemma OnlyMover(q: Queue, e: QueueEvent)
    ensures forall id :: id != e.id ==> (id in QueueStep(q, e).calls <==> id in q.calls)
    ensures forall id :: id != e.id && id in q.calls ==> QueueStep(q, e).calls[id] == q.calls[id]
  {
  }

  lemma OthersNeverDone(q: Queue, id: CallId)
    requires id in q.calls && q.calls[id] != Returned(Done)
    ensures id in DropOf(q, id).calls && DropOf(q, id).calls[id] != Returned(Done)
    ensures !IsClose(q.calls[id]) ==> id in TickOf(q, id).calls && TickOf(q, id).calls[id] != Returned(Done)
  {
  }

  /**
   Lazy close, receiving. Everything accepted stays receivable: from any state in which nobody holds the
   receiver, uninterrupted immediate receives hand out the whole buffer, oldest first.
   */
  lemma {:induction false} BufferIsReceivable(q: Queue, first: CallId)
    requires QueueInv(q) && q.lock.None? && forall id :: id in q.calls ==> id < first
    ensures var end := QueueRunFrom(q, Receives(first, |q.buffer|));
      end.delivered == q.delivered + q.buffer && end.buffer == [] && end.accepted == q.accepted
    decreases |q.buffer|
  {
    hide QueueStep, QueueInv, Immediately;
    if q.buffer == [] {
      assert q.delivered + q.buffer == q.delivered;
    } else {
      var next := QueueRunFrom(q, Immediately(first, TryRecv));
      ReceiveOnceTakes(q, first);
      RunKeepsInv(q, Immediately(first, TryRecv));
      BufferIsReceivable(next, first + 1);
      QueueRunAppend(q, Immediately(first, TryRecv), Receives(first + 1, |next.buffer|));
      assert q.buffer == [q.buffer[0]] + next.buffer;
      assert q.delivered + q.buffer == q.delivered + [q.buffer[0]] + next.buffer;
    }
  }

  /** A call executed without interruption; actions after its return do nothing. */
  function Immediately(id: CallId, request: Request): seq<QueueEvent> {
    [Begin(id, request), Tick(id), Tick(id), Tick(id), Tick(id)]
  }

  function Receives(first: CallId, count: nat): seq<QueueEvent>
    decreases count
  {
    if count == 0 then [] else Immediately(first, TryRecv) + Receives(first + 1, count - 1)
  }

  lemma {:induction false} RunKeepsInv(q: Queue, es: seq<QueueEvent>)
    requires QueueInv(q)
    ensures QueueInv(QueueRunFrom(q, es))
  {
    if es != [] {
      RunKeepsInv(q, es[..|es| - 1]);
      QueueStepInv(QueueRunFrom(q, es[..|es| - 1]), es[|es| - 1]);
    }
  }

  lemma FiveSteps(q: Queue, a: QueueEvent, b: QueueEvent)
    ensures QueueRunFrom(q, [a, b, b, b, b])
      == QueueStep(QueueStep(QueueStep(QueueStep(QueueStep(q, a), b), b), b), b)
  {
    hide QueueStep;
    assert [a, b, b, b, b][..4] == [a, b, b, b] && [a, b, b, b][..3] == [a, b, b] && [a, b, b][..2] == [a, b];
    assert [a, b][..1] == [a] && [a][..0] == [];
    assert QueueRunFrom(q, [a]) == QueueStep(QueueRunFrom(q, []), a);
    assert QueueRunFrom(q, [a, b]) == QueueStep(QueueRunFrom(q, [a]), b);
    assert QueueRunFrom(q, [a, b, b]) == QueueStep(QueueRunFrom(q, [a, b]), b);
    assert QueueRunFrom(q, [a, b, b, b]) == QueueStep(QueueRunFrom(q, [a, b, b]), b);
  }

  lemma ReceiveOnceTakes(q: Queue, id: CallId)
    requires q.lock.None? && id !in q.calls && q.buffer != []
    ensures var next := QueueRunFrom(q, Immediately(id, TryRecv));
      && next.buffer == q.buffer[1..] && next.delivered == q.delivered + [q.buffer[0]]
      && next.accepted == q.accepted && next.lock.None? && next.calls.Keys == q.calls.Keys + {id}
      && next.calls[id] == Returned(Got(q.buffer[0]))
  {
    hide SendTick, CloseTick, DropOf, ReceiveTick, TickOf;
    FiveSteps(q, Begin(id, TryRecv), Tick(id));
    var a := QueueStep(q, Begin(id, TryRecv));
    ReceiveTicks(a, id);
    var b := QueueStep(a, Tick(id));
    ReceiveTicks(b, id);
    var c := QueueStep(b, Tick(id));
    ReceiveTicks(c, id);
    var d := QueueStep(c, Tick(id));
    ReceiveTicks(d, id);
  }

  /** The actions of an immediate receive on a free queue. */
  lemma ReceiveTicks(q: Queue, id: CallId)
    requires id in q.calls
    ensures var next := QueueStep(q, Tick(id));
      && (q.calls[id] == TryLock && q.lock.None? ==> next == Grant(q, id, TryRecvToken))
      && (q.calls[id] == TryRecvToken && q.token == Cancelled ==> next == To(q, id, TryRecvClosing))
      && (q.calls[id] == TryRecvToken && q.token == Armed ==> next == To(q, id, TryPop))
      && (q.calls[id] == TryRecvClosing ==> next == ShutChannel(q, id, TryPop))
      && (q.calls[id] == TryPop && q.buffer != [] ==> next == Pop(q, id))
      && (q.calls[id].Returned? ==> next == q)
  {
  }

  // ------------------------------------------------------------------ the object

  /**
   The queue object and its immediate methods, executed without interruption. `model` is the machine's
   state; every method moves it by its own events, so what holds of all runs holds of every object.
   A capacity makes it a `BoundedQueue`, none an `UnboundedQueue`.
   */
  class QueueObject {
    const capacity: Option<nat>
    var token: Token
    var channel: Channel
    var locked: Option<CallId>
    var used: nat
    var buffer: seq<Item>
    ghost var model: Queue
    ghost var next: CallId

    ghost predicate Valid()
      reads this
    {
      && model.capacity == capacity && model.token == token && model.channel == channel
      && model.lock == locked && model.used == used && model.buffer == buffer
      && QueueInv(model)
      && forall id :: id in model.calls ==> id < next
    }

    constructor (capacity: Option<nat>)
      ensures Valid() && this.capacity == capacity && model == NewQueue(capacity) && next == 0
    {
      this.capacity := capacity;
      token, channel, locked, used, buffer := Armed, Open, None, 0, [];
      model, next := NewQueue(capacity), 0;
      new;
      NewQueueInv(capacity);
    }

    predicate Full()
      reads this
    {
      capacity.Some? && used >= capacity.value
    }

    method IsClosed() returns (closed: bool)
      requires Valid()
      ensures closed <==> token == Cancelled || channel == Shut
      ensures closed <==> token == Cancelled
    {
      return token == Cancelled || channel == Shut;
    }

    /** Send immediately, or say why not. */
    method TrySend(item: Item) returns (r: Outcome)
      requires Valid()
      modifies this
      ensures Valid() && next == old(next) + 1
      ensures model == QueueRunFrom(old(model), Immediately(old(next), Request.TrySend(item)))
      ensures old(next) in model.calls && model.calls[old(next)] == Returned(r)
      ensures r == QueueClosed <==> old(token) == Cancelled
      ensures r == QueueFull <==> old(token) == Armed && old(Full())
      ensures r == Sent <==> old(token) == Armed && !old(Full())
      ensures buffer == if r == Sent then old(buffer) + [item] else old(buffer)
    {
      hide Conserved, Permits, Locking, Closing, QueueRunFrom, Immediately;
      ghost var id, before := next, model;
      model, next := QueueRunFrom(model, Immediately(next, Request.TrySend(item))), next + 1;
      RunKeepsInv(before, Immediately(id, Request.TrySend(item)));
      SendImmediately(before, id, item);
      ShutIsCancelled(before);
      var closed := token == Cancelled || channel == Shut;
      if closed {
        return QueueClosed;
      }
      if capacity.Some? && used >= capacity.value {
        return QueueFull;
      }
      used := used + 1;
      buffer := buffer + [item];
      return Sent;
    }

    /** Receive immediately, or say why not. */
    method TryRecv() returns (r: Outcome)
      requires Valid()
      modifies this
      ensures Valid() && next == old(next) + 1
      ensures model == QueueRunFrom(old(model), Immediately(old(next), Request.TryRecv))
      ensures old(next) in model.calls && model.calls[old(next)] == Returned(r)
      ensures r == QueueBusy <==> old(locked).Some?
      ensures r.Got? <==> old(locked).None? && old(buffer) != []
      ensures r.Got? ==> old(buffer) == [r.item] + buffer
      ensures !r.Got? ==> buffer == old(buffer)
      ensures r == QueueClosed ==> token == Cancelled && buffer == []
      ensures r == QueueClosed <==> old(locked).None? && old(buffer) == [] && old(token) == Cancelled && old(used) == 0
    {
      hide Conserved, Permits, Locking, Closing, QueueRunFrom, Immediately;
      ghost var id, before := next, model;
      model, next := QueueRunFrom(model, Immediately(next, Request.TryRecv)), next + 1;
      RunKeepsInv(before, Immediately(id, Request.TryRecv));
      ReceiveImmediately(before, id);
      ShutIsCancelled(before);
      if locked.Some? {
        return QueueBusy;
      }
      if token == Cancelled {
        channel := Shut;
      }
      if buffer != [] {
        r := Got(buffer[0]);
        buffer := buffer[1..];
        used := used - 1;
        return r;
      }
      return if channel == Shut && used == 0 then QueueClosed else QueueEmpty;
    }

    /** Stop new sends; what is buffered stays. The channel itself is closed only if nobody is receiving. */
    method Close()
      requires Valid()
      modifies this
      ensures Valid() && next == old(next) + 1
      ensures model == QueueRunFrom(old(model), Immediately(old(next), Request.Close))
      ensures token == Cancelled && buffer == old(buffer) && used == old(used)
      ensures channel == if old(locked).None? then Shut else old(channel)
    {
      hide Conserved, Permits, Locking, Closing, QueueRunFrom, Immediately;
      ghost var id, before := next, model;
      model, next := QueueRunFrom(model, Immediately(next, Request.Close)), next + 1;
      RunKeepsInv(before, Immediately(id, Request.Close));
      CloseImmediately(before, id);
      token := Cancelled;
      if locked.None? {
        channel := Shut;
      }
    }
  }

  lemma ShutIsCancelled(q: Queue)
    requires QueueInv(q)
    ensures q.channel == Shut ==> q.token == Cancelled
  {
  }

  /** The state fields that an object has. */
  predicate Looks(q: Queue, token: Token, channel: Channel, lock: Option<CallId>, used: nat, buffer: seq<Item>) {
    q.token == token && q.channel == channel && q.lock == lock && q.used == used && q.buffer == buffer
  }

  lemma SendTicks(q: Queue, id: CallId)
    requires id in q.calls
    ensures var next := QueueStep(q, Tick(id));
      && (q.calls[id].TryToken? ==>
            next == To(q, id, if q.token == Armed then TryClosed(q.calls[id].item) else Returned(QueueClosed)))
      && (q.calls[id].TryClosed? ==>
            next == To(q, id, if q.channel == Open then TryAcquire(q.calls[id].item) else Returned(QueueClosed)))
      && (q.calls[id].TryAcquire? && q.channel == Open && HasPermit(q) ==>
            next == Reserve(q, id, SendPolled(q.calls[id].item, Reserved)))
      && (q.calls[id].TryAcquire? && q.channel == Open && !HasPermit(q) ==> next == To(q, id, Returned(QueueFull)))
      && (q.calls[id].SendPolled? && q.calls[id].slot == Reserved ==> next == Push(q, id, q.calls[id].item))
      && (q.calls[id].Returned? ==> next == q)
  {
  }

  lemma SendImmediately(q: Queue, id: CallId, item: Item)
    requires QueueInv(q) && id !in q.calls
    ensures var t := QueueRunFrom(q, Immediately(id, TrySend(item)));
      && t.capacity == q.capacity && t.calls.Keys == q.calls.Keys + {id}
      && t.calls[id] == Returned(if q.token == Cancelled then QueueClosed else if HasPermit(q) then Sent else QueueFull)
      && (if q.token == Armed && HasPermit(q) then Looks(t, q.token, q.channel, q.lock, q.used + 1, q.buffer + [item])
          else Looks(t, q.token, q.channel, q.lock, q.used, q.buffer))
  {
    hide SendTick, CloseTick, ReceiveTick, DropOf, TickOf, Conserved, Permits, Locking;
    FiveSteps(q, Begin(id, TrySend(item)), Tick(id));
    var a := QueueStep(q, Begin(id, TrySend(item)));
    SendTicks(a, id);
    var b := QueueStep(a, Tick(id));
    SendTicks(b, id);
    var c := QueueStep(b, Tick(id));
    SendTicks(c, id);
    SendTicks(QueueStep(c, Tick(id)), id);
  }

  lemma ReceiveImmediately(q: Queue, id: CallId)
    requires QueueInv(q) && id !in q.calls
    ensures var t := QueueRunFrom(q, Immediately(id, TryRecv));
      && t.capacity == q.capacity && t.calls.Keys == q.calls.Keys + {id}
      && (if q.lock.Some? then t.calls[id] == Returned(QueueBusy) && Looks(t, q.token, q.channel, q.lock, q.used, q.buffer)
          else
            var channel := if q.token == Cancelled then Shut else q.channel;
            if q.buffer != [] then
              && q.used > 0
              && t.calls[id] == Returned(Got(q.buffer[0])) && Looks(t, q.token, channel, None, q.used - 1, q.buffer[1..])
            else
              && t.calls[id] == Returned(if channel == Shut && q.used == 0 then QueueClosed else QueueEmpty)
              && Looks(t, q.token, channel, None, q.used, q.buffer))
  {
    hide SendTick, CloseTick, ReceiveTick, DropOf, TickOf, Holders, Conserved, Locking, Closing, HasPermit;
    FiveSteps(q, Begin(id, TryRecv), Tick(id));
    var a := QueueStep(q, Begin(id, TryRecv));
    ReceiveTicks(a, id);
    LastReceiveTicks(a, id);
    var b := QueueStep(a, Tick(id));
    ReceiveTicks(b, id);
    var c := QueueStep(b, Tick(id));
    ReceiveTicks(c, id);
    LastReceiveTicks(c, id);
    ReceiveTicks(QueueStep(c, Tick(id)), id);
    LastReceiveTicks(QueueStep(c, Tick(id)), id);
  }

  lemma LastReceiveTicks(q: Queue, id: CallId)
    requires id in q.calls
    ensures var next := QueueStep(q, Tick(id));
      && (q.calls[id] == TryLock && q.lock.Some? ==> next == To(q, id, Returned(QueueBusy)))
      && (q.calls[id] == TryPop && q.buffer == [] ==>
            next == Unlock(q, id, if Disconnected(q) then QueueClosed else QueueEmpty))
  {
  }

  lemma CloseImmediately(q: Queue, id: CallId)
    requires id !in q.calls
    ensures var t := QueueRunFrom(q, Immediately(id, Request.Close));
      && t.capacity == q.capacity && t.calls.Keys == q.calls.Keys + {id} && t.calls[id] == Returned(Done)
      && Looks(t, Cancelled, if q.lock.None? then Shut else q.channel, q.lock, q.used, q.buffer)
  {
    hide SendTick, ReceiveTick, DropOf, CloseTick, TickOf;
    FiveSteps(q, Begin(id, Request.Close), Tick(id));
    var a := QueueStep(q, Begin(id, Request.Close));
    CloseTicks(a, id);
    var b := QueueStep(a, Tick(id));
    CloseTicks(b, id);
    var c := QueueStep(b, Tick(id));
    CloseTicks(c, id);
    CloseTicks(QueueStep(c, Tick(id)), id);
  }

  lemma CloseTicks(q: Queue, id: CallId)
    requires id in q.calls
    ensures var next := QueueStep(q, Tick(id));
      && (q.calls[id] == CloseCancel ==> next == q.(calls := q.calls[id := CloseTry], token := Cancelled))
      && (q.calls[id] == CloseTry && q.lock.None? ==> next == Grant(q, id, CloseChannel))
      && (q.calls[id] == CloseTry && q.lock.Some? ==> next == To(q, id, Returned(Done)))
      && (q.calls[id] == CloseChannel ==> next == q.(calls := q.calls[id := Returned(Done)], channel := Shut, lock := None))
      && (q.calls[id].Returned? ==> next == q)
  {
  }
}
