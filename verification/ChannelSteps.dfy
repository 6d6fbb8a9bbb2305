/**
 Every step of the channel keeps its shape, keeps a matched rendezvous committed, and
 leaves no waiter stranded beside a value or a slot that nobody was promised.
 */
module ChannelSteps {
  import opened ChannelModel
  import opened ChannelShape

  /** A promised rendezvous value is one whose sender was told it went through; what
      close() leaves behind is too. */
  ghost predicate Committed(c: State) {
    !Buffered(c) && (c.reservedReceivers > 0 || (c.closed && c.held != [])) ==> c.committed
  }

  /** While some receiver is idle, at most `n` values are promised to nobody. */
  ghost predicate SlackReceivers(c: State, n: int) {
    forall w :: w in c.receivers && Idle(c.waiters, w) ==> |c.held| - c.reservedReceivers <= n
  }

  ghost predicate SlackSenders(c: State, n: int) {
    forall w :: w in c.senders && Idle(c.waiters, w) ==> Room(c) - c.reservedSenders <= n
  }

  /** Nobody idles next to an unpromised value or slot. */
  ghost predicate NoneStranded(c: State) { SlackReceivers(c, 0) && SlackSenders(c, 0) }

  ghost predicate Sound(c: State) {
    Shape(c) && Answered(c) && Committed(c) && NoneStranded(c)
  }

  // -------------------------------------------------------------------- what wakeups leave alone

  /** A wakeup of senders: receivers and values are as before. */
  ghost predicate ReceiverSideSame(c: State, d: State) {
    && d.held == c.held && d.receivers == c.receivers
    && d.reservedReceivers == c.reservedReceivers
    && d.capacity == c.capacity && d.closed == c.closed && d.committed == c.committed
    && d.waiters.Keys == c.waiters.Keys
    && (forall w :: w in c.waiters ==> d.waiters[w].role == c.waiters[w].role)
    && (forall w :: w in c.waiters && Receives(c.waiters[w].role) ==> d.waiters[w] == c.waiters[w])
  }

  lemma WakeDeliveredFrame(c: State)
    requires Queues(c)
    ensures ReceiverSideSame(c, WakeDelivered(c))
    ensures forall w :: w in WakeDelivered(c).senders ==> w in c.senders
    ensures WakeDelivered(c).reservedSenders == c.reservedSenders
    ensures forall w :: Idle(WakeDelivered(c).waiters, w) <==> Idle(c.waiters, w)
  {
    var i := FirstDelivering(c.senders, c.waiters);
    if i < |c.senders| {
      var w := c.senders[i];
      RemoveMembers(c.senders, c.waiters, w);
      TouchIdle(c.waiters, w, Woken(c.waiters[w]));
    }
  }

  lemma WakeSenderFrame(c: State)
    requires Queues(c)
    ensures ReceiverSideSame(c, WakeSender(c))
    ensures forall w :: w in WakeSender(c).senders ==> w in c.senders
  {
    WakeDeliveredFrame(c);
    var d := WakeDelivered(c);
    var i := FirstIdle(d.senders, d.waiters);
    if HasFreeSlot(d) && i < |d.senders| {
      var w := d.senders[i];
      assert w in d.senders && w in c.senders && !Receives(c.waiters[w].role);
      assert ReceiverSideSame(d, GrantSender(d, w));
    }
  }

  /** One granted slot makes up for one freed slot. */
  lemma WakeSenderSlack(c: State)
    requires Shape(c) && SlackSenders(c, 1)
    ensures SlackSenders(WakeSender(c), 0)
    ensures forall n :: SlackReceivers(c, n) ==> SlackReceivers(WakeSender(c), n)
  {
    WakeSenderFrame(c);
    WakeDeliveredFrame(c);
    var d := WakeDelivered(c);
    var i := FirstIdle(d.senders, d.waiters);
    if i == |d.senders| {
      forall w | w in d.senders ensures !Idle(d.waiters, w) {
        var k :| 0 <= k < |d.senders| && d.senders[k] == w;
      }
    }
  }

  lemma NoIdleBefore(q: seq<Op>, ws: map<Op, Waiter>)
    requires FirstIdle(q, ws) == |q|
    ensures forall w :: w in q ==> !Idle(ws, w)
  {
    forall w | w in q ensures !Idle(ws, w) {
      var k :| 0 <= k < |q| && q[k] == w;
    }
  }

  lemma ServeFutureSlack(c: State, w: Op)
    requires Shape(c) && CanWakeReceiver(c) && SlackReceivers(c, 1) && SlackSenders(c, 0)
    requires w == c.receivers[FirstIdle(c.receivers, c.waiters)] && c.waiters[w].role.PendingFuture?
    ensures SlackReceivers(ServeFuture(c, w), 0) && SlackSenders(ServeFuture(c, w), 1)
  {
    assert w in c.receivers;
    RemoveMembers(c.receivers, c.waiters, w);
    assert forall v :: Idle(c.waiters - {w}, v) ==> Idle(c.waiters, v);
  }

  lemma WakeReceiverSlack(c: State)
    requires Shape(c) && SlackReceivers(c, 1) && SlackSenders(c, 0)
    ensures NoneStranded(WakeReceiver(c))
  {
    if CanWakeReceiver(c) {
      var w := c.receivers[FirstIdle(c.receivers, c.waiters)];
      assert w in c.receivers;
      if c.waiters[w].role.PendingFuture? {
        ServeFutureShape(c, w);
        ServeFutureSlack(c, w);
        WakeSenderSlack(ServeFuture(c, w));
      }
    } else if HasFreeValue(c) {
      NoIdleBefore(c.receivers, c.waiters);
    }
  }

  // ------------------------------------------------------------------------------ send steps

  /** What a wakeup of one receiver does to the value it finds and to the senders. */
  lemma WakeReceiverFrame(c: State)
    requires Shape(c)
    ensures var d := WakeReceiver(c);
      && d.capacity == c.capacity && d.closed == c.closed
      && (forall w :: w in d.senders ==> w in c.senders)
      && d.waiters.Keys <= c.waiters.Keys
      && (forall w :: w in d.waiters ==> d.waiters[w].role == c.waiters[w].role)
    ensures var d := WakeReceiver(c);
      if CanWakeReceiver(c) && d.reservedReceivers == c.reservedReceivers then
        c.held != [] && d.held == c.held[1..]
      else
        d.held == c.held && d.committed == c.committed
          && d.reservedReceivers == c.reservedReceivers + (if CanWakeReceiver(c) then 1 else 0)
  {
    if CanWakeReceiver(c) {
      var w := c.receivers[FirstIdle(c.receivers, c.waiters)];
      assert w in c.receivers;
      if c.waiters[w].role.PendingFuture? {
        ServeFutureShape(c, w);
        WakeSenderFrame(ServeFuture(c, w));
      }
    }
  }

  lemma CommitShape(c: State)
    requires Shape(c) && !Buffered(c)
    requires forall w :: w in c.senders ==> !Delivering(c.waiters, w)
    ensures Shape(c.(committed := c.held != []))
    ensures Answered(c) ==> Answered(c.(committed := c.held != []))
    ensures NoneStranded(c) ==> NoneStranded(c.(committed := c.held != []))
  {
  }

  lemma DepositSound(c: State, msg: Msg)
    requires Shape(c) && Answered(c) && Committed(c) && !c.closed && HasFreeSlot(c)
    requires SlackReceivers(c, 0) && SlackSenders(c, 1)
    ensures Sound(Deposit(c, msg))
    ensures !Buffered(c) ==>
      forall w :: w in Deposit(c, msg).senders ==> !Delivering(Deposit(c, msg).waiters, w)
    ensures Deposit(c, msg).closed == c.closed && Deposit(c, msg).capacity == c.capacity
    ensures Deposit(c, msg).waiters.Keys <= c.waiters.Keys
    ensures Unmatched(c, msg) ==> Deposit(c, msg).held == [msg] && !Deposit(c, msg).committed
  {
    var p := Put(c, msg);
    PutShape(c, msg);
    assert SlackReceivers(p, 1) && SlackSenders(p, 0);
    WakeReceiverShape(p);
    WakeReceiverSlack(p);
    WakeReceiverFrame(p);
    var d := WakeReceiver(p);
    if !Buffered(c) {
      assert c.held == [] && p.held == [msg];
      assert forall w :: w in d.senders ==> !Delivering(d.waiters, w);
      CommitShape(d);
    }
  }

  /** The history is read by no step. */
  lemma HistorySound(c: State, orphans: set<Op>, verdicts: map<Op, Verdict>)
    requires Sound(c)
    ensures Sound(c.(orphans := orphans, verdicts := verdicts))
  {
  }

  lemma DeliverSound(c: State, msg: Msg)
    requires Sound(c) && !c.closed && !Buffered(c) && msg.op !in c.waiters
    requires c.held == [msg] && !c.committed
    requires forall w :: w in c.senders ==> !Delivering(c.waiters, w)
    ensures Sound(ParkSender(c, msg.op, Deliverer(msg)))
  {
    ParkSenderShape(c, msg.op, Deliverer(msg));
  }

  lemma TrySendSound(c: State, msg: Msg, hasReservation: bool, fired: bool)
    requires Shape(c) && Answered(c) && Committed(c) && msg.op !in c.waiters
    requires SlackReceivers(c, 0) && SlackSenders(c, if hasReservation then 1 else 0)
    requires hasReservation ==> HasFreeSlot(c)
    ensures Sound(TrySend(c, msg, hasReservation, fired))
  {
    if c.closed {
      assert SlackSenders(c, 0);
      HistorySound(c, c.orphans, c.verdicts[msg.op := SendThrew]);
    } else if HasFreeSlot(c) {
      DepositSound(c, msg);
      var d := Deposit(c, msg);
      if !Unmatched(c, msg) {
        HistorySound(d, d.orphans, d.verdicts[msg.op := Sent]);
      } else if fired {
        HistorySound(d, d.orphans + {msg.op}, d.verdicts[msg.op := SendThrew]);
      } else {
        DeliverSound(d, msg);
      }
    } else if fired {
      HistorySound(c, c.orphans, c.verdicts[msg.op := SendThrew]);
    } else {
      ParkSenderShape(c, msg.op, SpaceSender(msg));
    }
  }

  lemma SendAsyncSound(c: State, msg: Msg)
    requires Sound(c)
    ensures Sound(SendAsync(c, msg))
  {
    if c.closed || !HasFreeSlot(c) {
      HistorySound(c, c.orphans, c.verdicts[msg.op := RefusedAsync]);
    } else {
      DepositSound(c, msg);
      var d := Deposit(c, msg);
      HistorySound(d, d.orphans, d.verdicts[msg.op := SentAsync]);
    }
  }

  // ------------------------------------------------------------------------------ recv steps

  lemma TakeSound(c: State, op: Op)
    requires Shape(c) && Committed(c) && HasFreeValue(c)
    requires SlackReceivers(c, 1) && SlackSenders(c, 0)
    ensures Sound(WakeSender(Take(c, op)))
  {
    TakeShape(c, op);
    var t := Take(c, op);
    assert SlackReceivers(t, 0) && SlackSenders(t, 1);
    WakeSenderShape(t);
    WakeSenderSlack(t);
    WakeSenderFrame(t);
  }

  lemma TryRecvSound(c: State, op: Op, hasReservation: bool, fired: bool)
    requires Shape(c) && Answered(c) && Committed(c) && op !in c.waiters
    requires SlackReceivers(c, if hasReservation then 1 else 0) && SlackSenders(c, 0)
    requires hasReservation ==> HasFreeValue(c)
    ensures Sound(TryRecv(c, op, hasReservation, fired))
  {
    if HasFreeValue(c) {
      TakeSound(c, op);
    } else if !c.closed && !fired {
      ParkReceiverShape(c, op, Receiver);
    }
  }

  lemma RecvAsyncSound(c: State, op: Op)
    requires Sound(c) && op !in c.waiters
    ensures Sound(RecvAsync(c, op))
  {
    if HasFreeValue(c) {
      TakeSound(c, op);
    } else if !c.closed {
      ParkReceiverShape(c, op, PendingFuture);
    }
  }

  // ----------------------------------------------------------------------- return from a wait

  /** What is left when a waiter is gone and its reservation was given back. */
  lemma UnparkSlack(c: State, op: Op)
    requires Sound(c) && op in c.waiters
    ensures var x := c.waiters[op];
      var r := Release(Unpark(c, op), x);
      && SlackReceivers(r, if x.reserved && Receives(x.role) then 1 else 0)
      && SlackSenders(r, if x.reserved && !Receives(x.role) then 1 else 0)
      && Committed(r) && Answered(r)
      && r.held == c.held && r.committed == c.committed && r.closed == c.closed
      && r.capacity == c.capacity && r.waiters == c.waiters - {op}
  {
    UnparkShape(c, op);
    var ws := c.waiters - {op};
    assert forall v :: Idle(ws, v) ==> Idle(c.waiters, v);
    assert forall v :: Delivering(ws, v) ==> Delivering(c.waiters, v);
  }

  ghost predicate Returned(c: State, op: Op, x: Waiter) {
    && Shape(c) && Answered(c) && Committed(c) && op !in c.waiters
    && SlackReceivers(c, if x.role.Receiver? && x.wake.Resumed? then 1 else 0)
    && SlackSenders(c, if x.role.SpaceSender? && x.wake.Resumed? then 1 else 0)
    && (x.role.Receiver? && x.wake.Resumed? ==> HasFreeValue(c))
    && (x.role.SpaceSender? && x.wake.Resumed? ==> HasFreeSlot(c))
  }

  lemma ReceiverReturns(c: State, op: Op)
    requires Sound(c) && op in c.waiters && c.waiters[op].role.Receiver? && !c.waiters[op].wake.Parked?
    ensures Returned(WaitReturn(c, op), op, c.waiters[op])
  {
    var x := c.waiters[op];
    var r := Release(Unpark(c, op), x);
    UnparkShape(c, op);
    UnparkSlack(c, op);
    if x.reserved && x.wake.Failed? && !r.closed {
      WakeReceiverShape(r);
      WakeReceiverSlack(r);
      WakeReceiverFrame(r);
    } else if r.closed {
      assert forall w :: w in r.receivers ==> !Idle(r.waiters, w);
    }
  }

  lemma SpaceSenderReturns(c: State, op: Op)
    requires Sound(c) && op in c.waiters && c.waiters[op].role.SpaceSender? && !c.waiters[op].wake.Parked?
    ensures Returned(WaitReturn(c, op), op, c.waiters[op])
  {
    var x := c.waiters[op];
    var r := Release(Unpark(c, op), x);
    UnparkShape(c, op);
    UnparkSlack(c, op);
    if x.reserved && x.wake.Failed? && !r.closed {
      WakeSenderShape(r);
      WakeSenderSlack(r);
      WakeSenderFrame(r);
    } else if r.closed {
      assert forall w :: w in r.senders ==> !Idle(r.waiters, w);
    }
  }

  lemma DelivererComesBack(c: State, op: Op)
    requires Shape(c) && op in c.waiters && c.waiters[op].role.Deliverer? && !c.waiters[op].wake.Parked?
    ensures Release(Unpark(c, op), c.waiters[op]) == Unpark(c, op)
    ensures WaitReturn(c, op) == if op in c.senders then WakeSender(RollBack(Unpark(c, op))) else Unpark(c, op)
  {
    assert LifeOk(c.waiters[op], Queued(c, op), c.closed);
    assert op !in c.receivers;
  }

  lemma TakenBack(u: State)
    requires Shape(u) && Committed(u) && SlackReceivers(u, 0) && SlackSenders(u, 0)
    ensures var d := WakeSender(RollBack(u));
      Shape(d) && Answered(d) && Committed(d) && SlackReceivers(d, 0) && SlackSenders(d, 0)
      && d.waiters.Keys <= u.waiters.Keys
  {
    RollBackShape(u);
    var b := RollBack(u);
    assert SlackReceivers(b, 0) && SlackSenders(b, 1);
    WakeSenderShape(b);
    WakeSenderSlack(b);
    WakeSenderFrame(b);
  }

  /** A deliverer that was cancelled before its value was taken takes the value back, and
      the slot goes to the next sender. */
  lemma DelivererReturns(c: State, op: Op)
    requires Sound(c) && op in c.waiters && c.waiters[op].role.Deliverer? && !c.waiters[op].wake.Parked?
    ensures Returned(WaitReturn(c, op), op, c.waiters[op])
  {
    UnparkShape(c, op);
    UnparkSlack(c, op);
    DelivererComesBack(c, op);
    if op in c.senders {
      TakenBack(Unpark(c, op));
    }
  }

  lemma ResumeSound(c: State, op: Op, fired: bool)
    requires Sound(c) && Enabled(c, DoResume(op, fired))
    ensures Sound(Resume(c, op, fired))
  {
    var x := c.waiters[op];
    var r := WaitReturn(c, op);
    match x.role {
      case Receiver =>
        ReceiverReturns(c, op);
        if x.wake.Failed? {
          HistorySound(r, r.orphans, r.verdicts[op := RecvThrew]);
        } else {
          TryRecvSound(r, op, x.reserved, fired);
        }
      case SpaceSender(msg) =>
        SpaceSenderReturns(c, op);
        if x.wake.Failed? {
          HistorySound(r, r.orphans, r.verdicts[op := SendThrew]);
        } else {
          TrySendSound(r, msg, x.reserved, fired);
        }
      case Deliverer(_) =>
        DelivererReturns(c, op);
        HistorySound(r, r.orphans, r.verdicts[op := if x.wake.Failed? then SendThrew else Sent]);
      case PendingFuture =>
    }
  }

  // --------------------------------------------------------------- cancellation, drop, close

  lemma CancelSound(c: State, op: Op)
    requires Sound(c) && op in c.waiters && !c.waiters[op].role.PendingFuture?
    ensures Sound(Cancel(c, op))
  {
    CancelShape(c, op);
    assert forall v :: Idle(Cancel(c, op).waiters, v) <==> Idle(c.waiters, v);
  }

  lemma DropSound(c: State, op: Op)
    requires Sound(c) && op in c.waiters && c.waiters[op].role.PendingFuture?
    ensures Sound(DropFuture(c, op))
  {
    DropShape(c, op);
    UnparkSlack(c, op);
    assert Remove(c.senders, op) == c.senders;
  }

  lemma KeptMembers(q: seq<Op>, ws: map<Op, Waiter>)
    ensures forall w :: w in Kept(q, ws) <==> w in q && w in ws && ws[w].reserved
  {
  }

  lemma KeptOrdered(q: seq<Op>, ws: map<Op, Waiter>)
    requires Ordered(q, ws)
    ensures Ordered(Kept(q, ws), ws)
  {
    KeptMembers(q, ws);
    if q != [] {
      KeptOrdered(q[1..], ws);
      KeptMembers(q[1..], ws);
    }
  }

  /** Records that close() leaves keep all but their wakeup, and no reserved one goes. */
  ghost predicate SameRecords(ws: map<Op, Waiter>, ws': map<Op, Waiter>) {
    && (forall w :: w in ws' ==> w in ws && ws'[w].ticket == ws[w].ticket && ws'[w].role == ws[w].role
                                 && ws'[w].reserved == ws[w].reserved)
    && (forall w :: w in ws && ws[w].reserved ==> w in ws')
  }

  lemma CloseKeeps(c: State)
    requires !c.closed
    ensures SameRecords(c.waiters, Close(c).waiters)
  {
  }

  /** close() before its rollback, on records and queues. */
  lemma CloseQueues(c: State, k: State)
    requires Queues(c) && NoOvertaking(c.receivers, c.waiters)
    requires k.receivers == Kept(c.receivers, c.waiters) && k.senders == [] && k.closed
    requires SameRecords(c.waiters, k.waiters) && k.arrivals == c.arrivals
    ensures Queues(k) && ClosedShape(k) && NoOvertaking(k.receivers, k.waiters)
    ensures forall w :: w in k.receivers ==> w in k.waiters && k.waiters[w].reserved
  {
    KeptMembers(c.receivers, c.waiters);
    KeptOrdered(c.receivers, c.waiters);
  }

  lemma CloseLives(c: State, k: State)
    requires Sound(c) && !c.closed
    requires k.receivers == Kept(c.receivers, c.waiters) && k.senders == [] && k.closed
    requires k.waiters == Close(c).waiters
    ensures Lives(k)
  {
    KeptMembers(c.receivers, c.waiters);
  }

  lemma CloseCounts(c: State, side: bool)
    requires Sound(c) && !c.closed
    ensures Reserved(Close(c).waiters, side) == Reserved(c.waiters, side)
  {
    var ws := Close(c).waiters;
    forall w | w in Reserved(c.waiters, side) ensures w in Reserved(ws, side) {
      assert w in c.waiters && !RejectedByClose(c, w);
    }
  }

  lemma CloseSound(c: State)
    requires Sound(c)
    ensures Sound(Close(c))
  {
    if !c.closed {
      CloseShape(c, Close(c));
      assert Close(c).senders == [];
    }
  }

  lemma CloseShape(c: State, d: State)
    requires Sound(c) && !c.closed && d == Close(c)
    ensures Shape(d)
  {
    CloseKeeps(c);
    CloseQueues(c, d);
    CloseLives(c, d);
    CloseCounts(c, true);
    CloseCounts(c, false);
    CloseSlots(c, d);
  }

  lemma CloseSlots(c: State, d: State)
    requires Sound(c) && !c.closed && d == Close(c)
    ensures Slots(d) && Deliverers(d) && Counts(c) && !d.fault
    ensures d.reservedReceivers == c.reservedReceivers && d.reservedSenders == c.reservedSenders
  {
  }

  // ------------------------------------------------------------------------------ every step

  lemma InitSound(capacity: nat)
    ensures Sound(Init(capacity))
  {
  }

  lemma StepSound(c: State, s: Step)
    requires Sound(c) && Enabled(c, s)
    ensures Sound(Apply(c, s))
  {
    match s {
      case DoSend(msg) => TrySendSound(c, msg, false, false);
      case DoSendAsync(msg) => SendAsyncSound(c, msg);
      case DoRecv(op) => TryRecvSound(c, op, false, false);
      case DoRecvAsync(op) => RecvAsyncSound(c, op);
      case DoDrop(op) => DropSound(c, op);
      case DoCancel(op) => CancelSound(c, op);
      case DoResume(op, fired) => ResumeSound(c, op, fired);
      case DoClose => CloseSound(c);
    }
  }
}
