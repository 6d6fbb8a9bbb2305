/**
 The channel object of channel.c: fields updated in place, queues searched by loops. Every
 method is proved to take the channel from the state it finds to the state ChannelModel
 prescribes, so what ChannelTheorems says of runs holds of the object; where the source
 asserts, the object does.
 */
module ChannelObject {
  import opened ChannelModel
  import opened ChannelShape
  import opened ChannelSteps
  import opened ChannelLedger
  import opened ChannelRuns
  import opened ChannelTheorems

  datatype Slot = Empty | Full(msg: Msg)

  function Fail(x: Waiter): Waiter { x.(wake := Failed, subscribed := false) }

  /** The records when the receivers in `tail` have been failed by a close. */
  function FailReceivers(ws: map<Op, Waiter>, tail: seq<Op>): map<Op, Waiter> {
    map w | w in ws && !(w in tail && !ws[w].reserved && ws[w].role.PendingFuture?) ::
      if w in tail && !ws[w].reserved then Fail(ws[w]) else ws[w]
  }

  function FailSenders(ws: map<Op, Waiter>, tail: seq<Op>): map<Op, Waiter> {
    map w | w in ws :: if w in tail then Fail(ws[w]) else ws[w]
  }

  function RejectFutures(ws: map<Op, Waiter>, tail: seq<Op>): map<Op, Verdict> {
    map w | w in ws && w in tail && !ws[w].reserved && ws[w].role.PendingFuture? :: RecvThrew
  }

  function Notified(ws: map<Op, Waiter>): map<Op, Waiter> {
    map w | w in ws :: if ws[w].subscribed then Fail(ws[w]) else ws[w]
  }

  lemma FailReceiversStep(ws: map<Op, Waiter>, w: Op, tail: seq<Op>)
    requires w in ws && w !in tail
    ensures w in FailReceivers(ws, tail) && FailReceivers(ws, tail)[w] == ws[w]
    ensures FailReceivers(ws, [w] + tail) ==
      if ws[w].reserved then FailReceivers(ws, tail)
      else if ws[w].role.PendingFuture? then FailReceivers(ws, tail) - {w}
      else FailReceivers(ws, tail)[w := Fail(ws[w])]
  {
  }

  lemma RejectFuturesStep(ws: map<Op, Waiter>, w: Op, tail: seq<Op>, vs: map<Op, Verdict>)
    requires w in ws && w !in tail
    ensures vs + RejectFutures(ws, [w] + tail) ==
      if ws[w].reserved || !ws[w].role.PendingFuture? then vs + RejectFutures(ws, tail)
      else (vs + RejectFutures(ws, tail))[w := RecvThrew]
  {
  }

  lemma KeptStep(ws: map<Op, Waiter>, w: Op, tail: seq<Op>)
    requires w in ws
    ensures Kept([w] + tail, ws) == if ws[w].reserved then [w] + Kept(tail, ws) else Kept(tail, ws)
  {
    assert ([w] + tail)[1..] == tail;
  }

  /** A receiver stands nowhere else in its queue. */
  lemma StandsOnce(q: seq<Op>, ws: map<Op, Waiter>, index: nat)
    requires Ordered(q, ws) && index < |q|
    ensures q[index] in ws && q[index] !in q[index + 1..]
    ensures q[..index + 1] == q[..index] + [q[index]] && q[index..] == [q[index]] + q[index + 1..]
  {
    OrderedDistinct(q, ws);
    assert q[index] in q;
  }

  /** Draining the receivers, draining the senders and notifying the event amount to what
      the model says close() does to the records. */
  lemma CloseRecords(c: State)
    ensures Notified(FailSenders(FailReceivers(c.waiters, c.receivers), c.senders)) == Shut(c).waiters
  {
    var ws := Notified(FailSenders(FailReceivers(c.waiters, c.receivers), c.senders));
    assert ws.Keys == Shut(c).waiters.Keys;
    forall w | w in ws ensures ws[w] == Shut(c).waiters[w] {
      assert FailedByClose(c, w) <==>
        (w in c.receivers && !c.waiters[w].reserved) || w in c.senders || c.waiters[w].subscribed;
    }
  }

  lemma CloseVerdicts(c: State)
    ensures c.verdicts + RejectFutures(c.waiters, c.receivers) == Shut(c).verdicts
  {
    assert forall w :: w in RejectFutures(c.waiters, c.receivers) <==>
      w in c.waiters && RejectedByClose(c, w);
  }

  lemma ShutIs(c: State)
    ensures Shut(c) == c.(closed := true, receivers := Kept(c.receivers, c.waiters), senders := [],
                          waiters := Notified(FailSenders(FailReceivers(c.waiters, c.receivers), c.senders)),
                          verdicts := c.verdicts + RejectFutures(c.waiters, c.receivers))
  {
    CloseRecords(c);
    CloseVerdicts(c);
  }

  /** What a waiter that is about to run can rely on. */
  ghost predicate ReadyToRun(c: State, op: Op) {
    && op in c.waiters && !c.waiters[op].role.PendingFuture? && !c.waiters[op].wake.Parked?
    && c.reservedReceivers >= 0 && c.reservedSenders >= 0
    && (c.waiters[op].reserved ==>
          if Receives(c.waiters[op].role) then c.reservedReceivers > 0 else c.reservedSenders > 0)
    && WaitReturn(c, op).reservedReceivers >= 0 && WaitReturn(c, op).reservedSenders >= 0
    && !WaitReturn(c, op).fault
    && (c.waiters[op].wake.Resumed? ==>
          match c.waiters[op].role
          case Receiver => c.waiters[op].reserved && HasFreeValue(WaitReturn(c, op))
          case SpaceSender(_) => c.waiters[op].reserved && HasFreeSlot(WaitReturn(c, op))
          case _ => true)
  }

  lemma WaiterIsReady(c: State, op: Op)
    requires Sound(c) && op in c.waiters
    requires !c.waiters[op].role.PendingFuture? && !c.waiters[op].wake.Parked?
    ensures ReadyToRun(c, op)
  {
    var x := c.waiters[op];
    assert LifeOk(x, Queued(c, op), c.closed);
    UnreserveOne(c.waiters, op);
    match x.role {
      case Receiver => ReceiverReturns(c, op);
      case SpaceSender(_) => SpaceSenderReturns(c, op);
      case Deliverer(_) => DelivererReturns(c, op);
      case PendingFuture =>
    }
  }

  class Channel {
    const capacity: nat
    var buffer: seq<Msg>               // capacity > 0
    var slot: Slot                     // capacity == 0
    var committed: bool
    var closed: bool
    var receivers: seq<Op>
    var senders: seq<Op>
    var waiters: map<Op, Waiter>
    var reservedReceivers: int
    var reservedSenders: int

    var arrivals: nat                  // numbers the waiters; nothing depends on it
    ghost var accepted: seq<Msg>
    ghost var received: seq<Receipt>
    ghost var rolledBack: set<Op>
    ghost var orphans: set<Op>
    ghost var verdicts: map<Op, Verdict>

    predicate Valid()
      reads this
    {
      if capacity > 0 then slot.Empty? else buffer == []
    }

    function Held(): (held: seq<Msg>)
      reads this
    {
      if capacity > 0 then buffer else if slot.Full? then [slot.msg] else []
    }

    ghost function View(): State
      reads this
    {
      State(capacity, Held(), committed, closed, receivers, senders, waiters, reservedReceivers,
            reservedSenders, arrivals, false, accepted, received, rolledBack, orphans, verdicts)
    }

    constructor (capacity: nat)
      ensures Valid() && View() == Init(capacity) && Inv(View())
    {
      this.capacity := capacity;
      buffer, slot, committed, closed := [], Empty, false, false;
      receivers, senders, waiters, reservedReceivers, reservedSenders := [], [], map[], 0, 0;
      arrivals, accepted, received, rolledBack, orphans, verdicts := 0, [], [], {}, {}, map[];
      new;
      InitInv(capacity);
    }

    // --------------------------------------------------------------------------- counting

    function Count(): (n: nat)
      reads this
      ensures n == |Held()|
    {
      if capacity > 0 then |buffer| else if slot.Full? then 1 else 0
    }

    function FreeSpace(): (n: int)
      reads this
      ensures n == ChannelModel.Room(View())
    {
      if capacity > 0 then capacity - |buffer| else if slot.Full? then 0 else 1
    }

    predicate FreeValue()
      reads this
      ensures FreeValue() <==> HasFreeValue(View())
    {
      Count() > reservedReceivers
    }

    predicate FreeSlot()
      reads this
      ensures FreeSlot() <==> HasFreeSlot(View())
    {
      FreeSpace() > reservedSenders
    }

    // ------------------------------------------------------------------------------ queues

    method FindIdle(q: seq<Op>) returns (i: nat)
      ensures i == FirstIdle(q, waiters)
    {
      i := 0;
      while i < |q|
        invariant i <= |q| && FirstIdle(q, waiters) == i + FirstIdle(q[i..], waiters)
      {
        if q[i] in waiters && !waiters[q[i]].reserved && !waiters[q[i]].role.Deliverer? {
          return;
        }
        assert q[i..][1..] == q[i + 1..];
        i := i + 1;
      }
    }

    method FindDelivering(q: seq<Op>) returns (i: nat)
      ensures i == FirstDelivering(q, waiters)
    {
      i := 0;
      while i < |q|
        invariant i <= |q| && FirstDelivering(q, waiters) == i + FirstDelivering(q[i..], waiters)
      {
        if q[i] in waiters && waiters[q[i]].role.Deliverer? {
          return;
        }
        assert q[i..][1..] == q[i + 1..];
        i := i + 1;
      }
    }

    /** Arrival order is kept: no swap with the last element. */
    method QueueRemove(q: seq<Op>, w: Op) returns (r: seq<Op>, found: bool)
      ensures r == Remove(q, w) && found == (w in q)
    {
      var i := 0;
      while i < |q|
        invariant i <= |q| && IndexOf(q, w) == i + IndexOf(q[i..], w)
      {
        if q[i] == w {
          return q[..i] + q[i + 1..], true;
        }
        assert q[i..][1..] == q[i + 1..];
        i := i + 1;
      }
      return q, false;
    }

    // -------------------------------------------------------------------------------- values

    method PutValue(msg: Msg)
      requires Valid() && FreeSpace() > 0
      modifies this`buffer, this`slot, this`committed, this`accepted
      ensures Valid() && View() == Put(old(View()), msg)
    {
      if capacity > 0 {
        buffer := buffer + [msg];
      } else {
        slot, committed := Full(msg), false;
      }
      accepted := accepted + [msg];
    }

    method TakeValue(taker: Op) returns (msg: Msg)
      requires Valid() && Held() != []
      modifies this`buffer, this`slot, this`committed, this`received, this`verdicts
      ensures Valid() && View() == Take(old(View()), taker) && msg == old(Held())[0]
    {
      if capacity > 0 {
        msg, buffer := buffer[0], buffer[1..];
      } else {
        msg, slot, committed := slot.msg, Empty, false;
      }
      received, verdicts := received + [Receipt(taker, msg)], verdicts[taker := Got(msg)];
    }

    method RollBackSlot()
      requires Valid()
      modifies this`slot, this`rolledBack
      ensures Valid() && View() == RollBack(old(View()))
    {
      if capacity == 0 && slot.Full? && !committed {
        rolledBack := rolledBack + {slot.msg.op};
        slot := Empty;
      }
    }

    method Park(op: Op, role: Role)
      requires Valid()
      modifies this`receivers, this`senders, this`waiters, this`arrivals
      ensures Valid()
      ensures View() == if Receives(role) then ParkReceiver(old(View()), op, role)
                        else ParkSender(old(View()), op, role)
    {
      var subscribed := !role.PendingFuture?;
      if Receives(role) {
        receivers := receivers + [op];
      } else {
        senders := senders + [op];
      }
      waiters := waiters[op := Waiter(role, false, Parked, subscribed, arrivals)];
      arrivals := arrivals + 1;
    }
  
    // ------------------------------------------------------------------------------- wakeups

    method WakeDeliveredSender()
      requires Valid()
      modifies this`senders, this`waiters
      ensures Valid() && View() == WakeDelivered(old(View()))
    {
      if capacity > 0 || slot.Full? {
        return;
      }
      var i := FindDelivering(senders);
      if i == |senders| {
        return;
      }
      var w := senders[i];
      var rest, _ := QueueRemove(senders, w);
      senders, waiters := rest, waiters[w := Woken(waiters[w])];
    }

    method WakeOneSender()
      requires Valid()
      modifies this`senders, this`waiters, this`reservedSenders
      ensures Valid() && View() == WakeSender(old(View()))
    {
      WakeDeliveredSender();
      if !FreeSlot() {
        return;
      }
      var i := FindIdle(senders);
      if i == |senders| {
        return;
      }
      var w := senders[i];
      waiters := waiters[w := Woken(waiters[w]).(reserved := true)];
      reservedSenders := reservedSenders + 1;
    }

    method CompleteFuture(w: Op)
      requires Valid() && Held() != []
      modifies this`buffer, this`slot, this`committed, this`receivers, this`waiters
      modifies this`received, this`verdicts
      ensures Valid() && View() == ServeFuture(old(View()), w)
    {
      var rest, _ := QueueRemove(receivers, w);
      receivers, waiters := rest, waiters - {w};
      var _ := TakeValue(w);
    }

    method WakeOneReceiver() returns (woke: bool)
      requires Valid() && reservedReceivers >= 0
      modifies this`buffer, this`slot, this`committed, this`receivers, this`senders, this`waiters
      modifies this`reservedReceivers, this`reservedSenders, this`received, this`verdicts
      ensures Valid() && View() == WakeReceiver(old(View()))
      ensures woke == CanWakeReceiver(old(View()))
    {
      if !FreeValue() {
        return false;
      }
      var i := FindIdle(receivers);
      if i == |receivers| {
        return false;
      }
      var w := receivers[i];
      if waiters[w].role.PendingFuture? {
        CompleteFuture(w);
        WakeOneSender();
      } else {
        waiters := waiters[w := Woken(waiters[w]).(reserved := true)];
        reservedReceivers := reservedReceivers + 1;
      }
      return true;
    }

    // ------------------------------------------------------------------------- send and recv

    method DepositValue(msg: Msg) returns (matched: bool)
      requires Valid() && FreeSpace() > 0 && reservedReceivers >= 0
      modifies this`buffer, this`slot, this`committed, this`receivers, this`senders, this`waiters
      modifies this`reservedReceivers, this`reservedSenders, this`received, this`verdicts, this`accepted
      ensures Valid() && View() == Deposit(old(View()), msg)
      ensures matched == !Unmatched(old(View()), msg)
    {
      PutValue(msg);
      var woke := WakeOneReceiver();
      if capacity == 0 && woke {
        committed := slot.Full?;
      }
      matched := capacity > 0 || woke;
    }

    /** send() from its retry label on. */
    method SendFrom(msg: Msg, hasReservation: bool, fired: bool)
      requires Valid() && reservedReceivers >= 0 && reservedSenders >= 0
      requires hasReservation ==> FreeSlot()
      modifies this
      ensures Valid() && View() == TrySend(old(View()), msg, hasReservation, fired)
    {
      if closed {
        verdicts := verdicts[msg.op := SendThrew];
        return;
      }
      if hasReservation || FreeSlot() {
        assert capacity == 0 ==> slot.Empty?;
        var matched := DepositValue(msg);
        if matched {
          verdicts := verdicts[msg.op := Sent];
        } else if fired {
          orphans, verdicts := orphans + {msg.op}, verdicts[msg.op := SendThrew];
        } else {
          Park(msg.op, Deliverer(msg));
        }
      } else if fired {
        verdicts := verdicts[msg.op := SendThrew];
      } else {
        Park(msg.op, SpaceSender(msg));
      }
    }

    /** recv() from its retry label on. */
    method RecvFrom(op: Op, hasReservation: bool, fired: bool) returns (got: Slot)
      requires Valid() && reservedReceivers >= 0
      requires hasReservation ==> FreeValue()
      modifies this
      ensures Valid() && View() == TryRecv(old(View()), op, hasReservation, fired)
      ensures got == if hasReservation || old(FreeValue()) then Full(old(Held())[0]) else Empty
    {
      got := Empty;
      if hasReservation || FreeValue() {
        assert Held() != [];
        var msg := TakeValue(op);
        WakeOneSender();
        got := Full(msg);
      } else if closed || fired {
        verdicts := verdicts[op := RecvThrew];
      } else {
        Park(op, Receiver);
      }
    }

    method Send(msg: Msg)
      requires Valid() && Inv(View()) && Fresh(View(), msg.op)
      modifies this
      ensures Valid() && View() == Apply(old(View()), DoSend(msg)) && Inv(View())
    {
      StepSound(View(), DoSend(msg));
      StepLedger(View(), DoSend(msg));
      SendFrom(msg, false, false);
    }

    method TrySendNow(msg: Msg) returns (accepted': bool)
      requires Valid() && reservedReceivers >= 0 && reservedSenders >= 0
      modifies this
      ensures Valid() && View() == SendAsync(old(View()), msg)
      ensures accepted' == (!old(closed) && old(FreeSlot()))
    {
      if closed || !FreeSlot() {
        verdicts := verdicts[msg.op := RefusedAsync];
        return false;
      }
      var _ := DepositValue(msg);
      verdicts := verdicts[msg.op := SentAsync];
      return true;
    }

    method SendNow(msg: Msg) returns (accepted': bool)
      requires Valid() && Inv(View()) && Fresh(View(), msg.op)
      modifies this
      ensures Valid() && View() == Apply(old(View()), DoSendAsync(msg)) && Inv(View())
      ensures accepted' == (!old(closed) && old(FreeSlot())) == (verdicts[msg.op] == SentAsync)
    {
      StepSound(View(), DoSendAsync(msg));
      StepLedger(View(), DoSendAsync(msg));
      accepted' := TrySendNow(msg);
    }

    method Recv(op: Op) returns (got: Slot)
      requires Valid() && Inv(View()) && Fresh(View(), op)
      modifies this
      ensures Valid() && View() == Apply(old(View()), DoRecv(op)) && Inv(View())
      ensures got == if old(FreeValue()) then Full(old(Held())[0]) else Empty
    {
      StepSound(View(), DoRecv(op));
      StepLedger(View(), DoRecv(op));
      got := RecvFrom(op, false, false);
    }

    method RecvFuture(op: Op) returns (got: Slot)
      requires Valid() && Inv(View()) && Fresh(View(), op)
      modifies this
      ensures Valid() && View() == Apply(old(View()), DoRecvAsync(op)) && Inv(View())
      ensures got == if old(FreeValue()) then Full(old(Held())[0]) else Empty
    {
      StepSound(View(), DoRecvAsync(op));
      StepLedger(View(), DoRecvAsync(op));
      got := Empty;
      if FreeValue() {
        var msg := TakeValue(op);
        WakeOneSender();
        got := Full(msg);
      } else if closed {
        verdicts := verdicts[op := RecvThrew];
      } else {
        Park(op, PendingFuture);
      }
    }
  
    // --------------------------------------------------------------------- return from a wait

    method LeaveQueue(op: Op) returns (wasQueued: bool)
      requires Valid()
      modifies this`receivers, this`senders, this`waiters
      ensures Valid() && View() == Unpark(old(View()), op)
      ensures wasQueued == (op in old(receivers) || op in old(senders))
    {
      var rest, receiving := QueueRemove(receivers, op);
      receivers := rest;
      var rest', sending := QueueRemove(senders, op);
      senders := rest';
      waiters := waiters - {op};
      wasQueued := receiving || sending;
    }

    /** Gives the reservation of a waiter back. */
    method GiveBack(x: Waiter)
      requires Valid()
      requires x.reserved ==> if Receives(x.role) then reservedReceivers > 0 else reservedSenders > 0
      modifies this`reservedReceivers, this`reservedSenders
      ensures Valid() && View() == Release(old(View()), x)
    {
      if x.reserved {
        if Receives(x.role) {
          reservedReceivers := reservedReceivers - 1;
        } else {
          reservedSenders := reservedSenders - 1;
        }
      }
    }

    /** channel_wait_for() after its suspension. Answers whether the caller came back with a
        reservation to spend. */
    method WaitReturns(op: Op) returns (spent: bool)
      requires Valid() && ReadyToRun(View(), op)
      modifies this
      ensures Valid() && View() == WaitReturn(old(View()), op)
      ensures spent == (old(waiters[op]).reserved && !old(waiters[op]).wake.Failed?)
    {
      var x := waiters[op];
      var failed := x.wake.Failed?;
      var wasQueued := LeaveQueue(op);
      if x.role.Deliverer? && failed && wasQueued {
        RollBackSlot();
      }
      GiveBack(x);
      spent := x.reserved && !failed;
      if ((x.role.Deliverer? && wasQueued) || (x.reserved && !spent)) && !closed {
        if Receives(x.role) {
          var _ := WakeOneReceiver();
        } else {
          WakeOneSender();
        }
      }
    }

    /** The operation behind a wait goes on. */
    method Continue(op: Op, x: Waiter, reserved: bool, fired: bool) returns (got: Slot)
      requires Valid() && reservedReceivers >= 0 && reservedSenders >= 0 && !x.role.PendingFuture?
      requires reserved == (x.reserved && !x.wake.Failed?)
      requires reserved ==> if x.role.Receiver? then FreeValue() else if x.role.SpaceSender? then FreeSlot() else true
      modifies this
      ensures Valid() && View() == GoOn(old(View()), op, x, fired)
      ensures got.Full? ==> x.role.Receiver? && !x.wake.Failed? && op in verdicts && verdicts[op] == Got(got.msg)
      ensures x.role.Receiver? && reserved ==> got.Full?
    {
      got := Empty;
      if x.wake.Failed? {
        verdicts := verdicts[op := if Receives(x.role) then RecvThrew else SendThrew];
      } else if x.role.Receiver? {
        got := RecvFrom(op, reserved, fired);
      } else {
        ContinueSend(op, x, reserved, fired);
      }
    }

    /** A sender's wait ended without an exception: its value was taken, or it retries. */
    method ContinueSend(op: Op, x: Waiter, reserved: bool, fired: bool)
      requires Valid() && reservedReceivers >= 0 && reservedSenders >= 0
      requires !x.wake.Failed? && !Receives(x.role) && reserved == x.reserved
      requires reserved && x.role.SpaceSender? ==> FreeSlot()
      modifies this
      ensures Valid() && View() == GoOn(old(View()), op, x, fired)
    {
      match x.role
      case Deliverer(_) => verdicts := verdicts[op := Sent];
      case SpaceSender(msg) => SendFrom(msg, reserved, fired);
    }

    method RunOn(op: Op, fired: bool) returns (got: Slot)
      requires Valid() && ReadyToRun(View(), op)
      modifies this
      ensures Valid() && View() == Resume(old(View()), op, fired)
      ensures got.Full? ==> op in verdicts && verdicts[op] == Got(got.msg)
      ensures var x := old(waiters[op]);
              && (x.role.Receiver? && x.wake.Resumed? && x.reserved ==> got.Full?)
              && (got.Full? ==> x.role.Receiver? && !x.wake.Failed?)
    {
      var x := waiters[op];
      var reserved := WaitReturns(op);
      got := Continue(op, x, reserved, fired);
    }

    /** A woken coroutine runs on from its wait to its verdict or to its next wait: a receiver
        resumed without an exception comes back with the oldest value. */
    method Run(op: Op, fired: bool) returns (got: Slot)
      requires Valid() && Inv(View()) && Enabled(View(), DoResume(op, fired))
      modifies this
      ensures Valid() && View() == Apply(old(View()), DoResume(op, fired)) && Inv(View())
      ensures var x := old(waiters[op]);
              if x.role.Receiver? && x.wake.Resumed? then old(Held()) != [] && got == Full(old(Held())[0])
              else got == Empty
    {
      assert LifeOk(waiters[op], Queued(View(), op), closed);
      if waiters[op].role.Receiver? && waiters[op].wake.Resumed? {
        ReceiverPromise(View(), op, fired);
      }
      StepSound(View(), DoResume(op, fired));
      StepLedger(View(), DoResume(op, fired));
      WaiterIsReady(View(), op);
      got := RunOn(op, fired);
    }

    // ------------------------------------------------------------- cancellation, drop, close

    method CancelWaiter(op: Op)
      requires Valid() && Inv(View()) && Enabled(View(), DoCancel(op))
      modifies this`waiters
      ensures Valid() && View() == Apply(old(View()), DoCancel(op)) && Inv(View())
    {
      StepSound(View(), DoCancel(op));
      StepLedger(View(), DoCancel(op));
      FailWaiter(op);
    }

    method FailWaiter(op: Op)
      requires Valid() && op in waiters
      modifies this`waiters
      ensures Valid() && View() == Cancel(old(View()), op)
    {
      waiters := waiters[op := waiters[op].(wake := Failed)];
    }

    method RemoveFuture(op: Op)
      requires Valid()
      modifies this`receivers, this`waiters, this`verdicts
      ensures Valid() && View() == DropFuture(old(View()), op)
    {
      var rest, _ := QueueRemove(receivers, op);
      receivers, waiters := rest, waiters - {op};
      verdicts := verdicts[op := Dropped];
    }

    method DisposeFuture(op: Op)
      requires Valid() && Inv(View()) && Enabled(View(), DoDrop(op))
      modifies this`receivers, this`waiters, this`verdicts
      ensures Valid() && View() == Apply(old(View()), DoDrop(op)) && Inv(View())
    {
      StepSound(View(), DoDrop(op));
      StepLedger(View(), DoDrop(op));
      RemoveFuture(op);
    }

    /** Fails every receiver without a reservation, walking from the tail. */
    method WakeAllReceivers()
      requires Ordered(receivers, waiters)
      modifies this`receivers, this`waiters, this`verdicts
      ensures receivers == Kept(old(receivers), old(waiters))
      ensures waiters == FailReceivers(old(waiters), old(receivers))
      ensures verdicts == old(verdicts) + RejectFutures(old(waiters), old(receivers))
    {
      ghost var q, ws, vs := receivers, waiters, verdicts;
      var index: nat := |receivers|;
      ghost var tail: seq<Op> := [];
      assert q[..index] == q;
      while index > 0
        invariant index <= |q| && tail == q[index..]
        invariant receivers == q[..index] + Kept(tail, ws)
        invariant waiters == FailReceivers(ws, tail)
        invariant verdicts == vs + RejectFutures(ws, tail)
      {
        index := index - 1;
        StandsOnce(q, ws, index);
        FailLast(index, q[..index], q[index], tail, ws, vs);
        tail := [q[index]] + tail;
      }
      assert q[0..] == q;
    }

    /** The last receiver not gone through yet is kept, rejected or failed. */
    method FailLast(index: nat, ghost front: seq<Op>, ghost w: Op, ghost tail: seq<Op>,
                    ghost ws: map<Op, Waiter>, ghost vs: map<Op, Verdict>)
      requires |front| == index && w in ws && w !in tail
      requires receivers == front + [w] + Kept(tail, ws)
      requires waiters == FailReceivers(ws, tail) && verdicts == vs + RejectFutures(ws, tail)
      modifies this`receivers, this`waiters, this`verdicts
      ensures receivers == front + Kept([w] + tail, ws)
      ensures waiters == FailReceivers(ws, [w] + tail) && verdicts == vs + RejectFutures(ws, [w] + tail)
    {
      KeptStep(ws, w, tail);
      FailReceiversStep(ws, w, tail);
      RejectFuturesStep(ws, w, tail, vs);
      FailOneReceiver(index, front, receivers[index], Kept(tail, ws));
    }

    method FailOneReceiver(index: nat, ghost front: seq<Op>, w: Op, ghost back: seq<Op>)
      requires |front| == index && receivers == front + [w] + back && w in waiters
      modifies this`receivers, this`waiters, this`verdicts
      ensures receivers == if old(waiters)[w].reserved then front + ([w] + back) else front + back
      ensures waiters == if old(waiters)[w].reserved then old(waiters)
                         else if old(waiters)[w].role.PendingFuture? then old(waiters) - {w}
                         else old(waiters)[w := Fail(old(waiters)[w])]
      ensures verdicts == if old(waiters)[w].reserved || !old(waiters)[w].role.PendingFuture?
                          then old(verdicts) else old(verdicts)[w := RecvThrew]
    {
      if waiters[w].reserved {
        return;
      }
      receivers := receivers[..index] + receivers[index + 1..];
      if waiters[w].role.PendingFuture? {
        waiters, verdicts := waiters - {w}, verdicts[w := RecvThrew];
      } else {
        waiters := waiters[w := Fail(waiters[w])];
      }
    }

    method WakeAllSenders()
      requires forall w :: w in senders ==> w in waiters
      modifies this`senders, this`waiters
      ensures senders == []
      ensures waiters == FailSenders(old(waiters), old(senders))
    {
      var q := senders;
      ghost var ws := waiters;
      var index: nat := |q|;
      while index > 0
        invariant index <= |q| && senders == q[..index]
        invariant waiters == FailSenders(ws, q[index..])
      {
        index := index - 1;
        var w := senders[index];
        assert w == q[index] && w in q && q[index..] == [w] + q[index + 1..];
        senders := senders[..index];
        waiters := waiters[w := Fail(waiters[w])];
      }
      assert q[0..] == q;
    }

    /** Both queues are failed, receivers first, and their coroutines notified. */
    method FailBothQueues()
      requires Ordered(receivers, waiters)
      requires forall w :: w in senders ==> w in FailReceivers(waiters, receivers)
      modifies this`receivers, this`senders, this`waiters, this`verdicts
      ensures receivers == Kept(old(receivers), old(waiters)) && senders == []
      ensures waiters == Notified(FailSenders(FailReceivers(old(waiters), old(receivers)), old(senders)))
      ensures verdicts == old(verdicts) + RejectFutures(old(waiters), old(receivers))
    {
      WakeAllReceivers();
      WakeAllSenders();
      waiters := Notified(waiters);
    }

    method WakeAll()
      requires Valid() && Ordered(receivers, waiters)
      requires forall w :: w in senders ==> w in FailReceivers(waiters, receivers)
      modifies this`closed, this`receivers, this`senders, this`waiters, this`verdicts
      ensures Valid() && View() == Shut(old(View()))
    {
      ShutIs(View());
      closed := true;
      FailBothQueues();
    }

    method CloseChannel()
      requires Valid() && Inv(View())
      modifies this
      ensures Valid() && View() == Apply(old(View()), DoClose) && Inv(View())
    {
      StepSound(View(), DoClose);
      StepLedger(View(), DoClose);
      if !closed {
        assert forall w :: w in senders ==> w in FailReceivers(waiters, receivers);
        WakeAll();
        RollBackSlot();
      }
    }
  }
}
