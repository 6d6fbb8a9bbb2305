/**
 The shape invariant of the channel: what the queues, the waiter records, the reservation
 counters and the slot have to do with each other, and that every small state change of
 ChannelModel keeps it.
 */
module ChannelShape {
  import opened ChannelModel

  // ---------------------------------------------------------------------------- predicates

  /** A queue is in arrival order, and its members have records. */
  ghost predicate Ordered(q: seq<Op>, ws: map<Op, Waiter>) {
    && (forall w :: w in q ==> w in ws)
    && (forall i, j :: 0 <= i < j < |q| ==> ws[q[i]].ticket < ws[q[j]].ticket)
  }

  ghost predicate Queues(c: State) {
    && Ordered(c.receivers, c.waiters)
    && Ordered(c.senders, c.waiters)
    && (forall w :: w in c.receivers ==> Receives(c.waiters[w].role))
    && (forall w :: w in c.senders ==> !Receives(c.waiters[w].role))
    && (forall w :: w in c.waiters ==> c.waiters[w].ticket < c.arrivals)
    && (forall w :: w in c.waiters && !Receives(c.waiters[w].role) ==> c.waiters[w].role.msg.op == w)
  }

  /** The life of one waiter. Only close() takes a waiter that was promised nothing out of
      its queue, and only a delivery takes out a deliverer; a plain resume means a
      reservation or a delivery. */
  predicate LifeOk(x: Waiter, queued: bool, closed: bool) {
    && (x.subscribed ==> queued && !x.reserved)
    && match x.role
       case Receiver =>
         && (!queued ==> closed && !x.reserved && x.wake.Failed?)
         && (x.reserved ==> !x.wake.Parked?)
         && (x.wake.Resumed? ==> x.reserved)
       case PendingFuture => queued && !x.reserved && x.wake.Parked?
       case SpaceSender(_) =>
         && (!queued ==> closed && x.wake.Failed?)
         && (x.reserved ==> !x.wake.Parked?)
         && (x.wake.Resumed? ==> x.reserved)
       case Deliverer(_) =>
         && !x.reserved
         && (if queued then !x.wake.Resumed? else !x.wake.Parked?)
  }

  ghost predicate Lives(c: State) {
    forall w :: w in c.waiters ==> LifeOk(c.waiters[w], Queued(c, w), c.closed)
  }

  /** Reservations are handed out in arrival order: nobody behind an idle waiter holds one. */
  ghost predicate NoOvertaking(q: seq<Op>, ws: map<Op, Waiter>) {
    forall i, j :: 0 <= i < j < |q| && Idle(ws, q[i]) && q[j] in ws ==> !ws[q[j]].reserved
  }

  ghost function Reserved(ws: map<Op, Waiter>, receiving: bool): set<Op> {
    set w | w in ws && ws[w].reserved && Receives(ws[w].role) == receiving
  }

  ghost predicate Counts(c: State) {
    && c.reservedReceivers == |Reserved(c.waiters, true)|
    && c.reservedSenders == |Reserved(c.waiters, false)|
  }

  /** Promises never exceed what is there. */
  ghost predicate Slots(c: State) {
    && c.reservedReceivers <= |c.held|
    && c.reservedSenders <= Room(c)
    && (c.committed ==> !Buffered(c) && c.held != [])
  }

  /** At most one sender is parked for an answer, and no value but its own is in the slot. */
  ghost predicate Deliverers(c: State) {
    && (forall w :: w in c.senders && Delivering(c.waiters, w) ==>
          !Buffered(c) && !c.committed && (c.held == [] || c.held == [c.waiters[w].role.msg]))
    && (forall v, w ::
          v in c.senders && w in c.senders && Delivering(c.waiters, v) && Delivering(c.waiters, w)
          ==> v == w)
  }

  /** Nobody waits to hear about a value that has left the slot. */
  ghost predicate Answered(c: State) {
    c.held == [] ==> forall w :: w in c.senders ==> !Delivering(c.waiters, w)
  }

  ghost predicate ClosedShape(c: State) {
    c.closed ==>
      && c.senders == []
      && (forall w :: w in c.receivers && w in c.waiters ==> c.waiters[w].reserved)
  }

  ghost predicate Shape(c: State) {
    && Queues(c)
    && Lives(c)
    && NoOvertaking(c.receivers, c.waiters)
    && NoOvertaking(c.senders, c.waiters)
    && Counts(c)
    && Slots(c)
    && Deliverers(c)
    && ClosedShape(c)
    && !c.fault
  }

  // --------------------------------------------------------------------------- queue lemmas

  lemma OrderedDistinct(q: seq<Op>, ws: map<Op, Waiter>)
    requires Ordered(q, ws)
    ensures forall i, j :: 0 <= i < j < |q| ==> q[i] != q[j]
  {
  }

  /** Where the members of a queue are after one of them was removed. */
  lemma RemoveAtIndex(q: seq<Op>, i: nat)
    requires i < |q|
    ensures |RemoveAt(q, i)| == |q| - 1
    ensures forall k :: 0 <= k < |q| - 1 ==> RemoveAt(q, i)[k] == q[if k < i then k else k + 1]
  {
  }

  lemma RemoveIndex(q: seq<Op>, w: Op)
    requires w in q
    ensures |Remove(q, w)| == |q| - 1
    ensures forall k :: 0 <= k < |q| - 1 ==>
      Remove(q, w)[k] == q[if k < IndexOf(q, w) then k else k + 1]
  {
    RemoveAtIndex(q, IndexOf(q, w));
  }

  /** Removing one member of an ordered queue keeps the others. */
  lemma RemoveMembers(q: seq<Op>, ws: map<Op, Waiter>, w: Op)
    requires Ordered(q, ws)
    ensures forall v :: v in Remove(q, w) <==> v in q && v != w
  {
    if w in q {
      RemoveIndex(q, w);
      var i := IndexOf(q, w);
      forall v | v in q && v != w ensures v in Remove(q, w) {
        var k :| 0 <= k < |q| && q[k] == v;
        assert Remove(q, w)[if k < i then k else k - 1] == v;
      }
      OrderedDistinct(q, ws);
    }
  }

  /** ... and keeps their order. */
  lemma RemoveOrdered(q: seq<Op>, ws: map<Op, Waiter>, w: Op)
    requires Ordered(q, ws)
    ensures Ordered(Remove(q, w), ws)
    ensures NoOvertaking(q, ws) ==> NoOvertaking(Remove(q, w), ws)
  {
    RemoveMembers(q, ws, w);
    if w in q {
      RemoveIndex(q, w);
    }
  }

  // ----------------------------------------------------------- small state changes keep it

  /** Replacing the record of one waiter, role and ticket kept, does not disturb the queues. */
  lemma TouchQueues(c: State, w: Op, x: Waiter)
    requires Queues(c) && w in c.waiters
    requires x.role == c.waiters[w].role && x.ticket == c.waiters[w].ticket
    ensures Queues(c.(waiters := c.waiters[w := x]))
  {
  }

  lemma TouchLives(c: State, w: Op, x: Waiter)
    requires Lives(c) && LifeOk(x, Queued(c, w), c.closed)
    ensures Lives(c.(waiters := c.waiters[w := x]))
  {
    var d := c.(waiters := c.waiters[w := x]);
    forall v | v in d.waiters ensures LifeOk(d.waiters[v], Queued(d, v), d.closed) {
      assert v != w ==> LifeOk(c.waiters[v], Queued(c, v), c.closed);
    }
  }

  lemma TouchDeliverers(c: State, w: Op, x: Waiter)
    requires Deliverers(c) && w in c.waiters && x.role == c.waiters[w].role
    ensures var d := c.(waiters := c.waiters[w := x]);
      Deliverers(d) && (Answered(c) ==> Answered(d))
  {
    var ws := c.waiters[w := x];
    assert forall v :: Delivering(ws, v) <==> Delivering(c.waiters, v);
  }

  /** Replacing a record without touching its reservation. */
  lemma TouchPromises(c: State, w: Op, x: Waiter)
    requires NoOvertaking(c.receivers, c.waiters) && NoOvertaking(c.senders, c.waiters) && Counts(c)
    requires w in c.waiters && x.role == c.waiters[w].role && x.reserved == c.waiters[w].reserved
    ensures var d := c.(waiters := c.waiters[w := x]);
      NoOvertaking(d.receivers, d.waiters) && NoOvertaking(d.senders, d.waiters) && Counts(d)
  {
    var ws := c.waiters[w := x];
    TouchIdle(c.waiters, w, x);
    assert Reserved(ws, true) == Reserved(c.waiters, true);
    assert Reserved(ws, false) == Reserved(c.waiters, false);
  }

  lemma TouchIdle(ws: map<Op, Waiter>, w: Op, x: Waiter)
    requires w in ws && x.role == ws[w].role && x.reserved == ws[w].reserved
    ensures forall v :: Idle(ws[w := x], v) <==> Idle(ws, v)
  {
  }

  lemma ReserveOne(ws: map<Op, Waiter>, w: Op, x: Waiter)
    requires w in ws && !ws[w].reserved && x.reserved && x.role == ws[w].role
    ensures |Reserved(ws[w := x], Receives(x.role))| == |Reserved(ws, Receives(x.role))| + 1
    ensures Reserved(ws[w := x], !Receives(x.role)) == Reserved(ws, !Receives(x.role))
  {
    var before := Reserved(ws, Receives(x.role));
    assert Reserved(ws[w := x], Receives(x.role)) == before + {w};
  }

  /** Granting to the first idle member lets nobody overtake. */
  lemma GrantInOrder(q: seq<Op>, ws: map<Op, Waiter>, x: Waiter)
    requires Ordered(q, ws) && NoOvertaking(q, ws)
    requires FirstIdle(q, ws) < |q| && x.reserved
    ensures NoOvertaking(q, ws[q[FirstIdle(q, ws)] := x])
  {
  }

  lemma GrantElsewhere(q: seq<Op>, ws: map<Op, Waiter>, w: Op, x: Waiter)
    requires NoOvertaking(q, ws) && w !in q
    ensures NoOvertaking(q, ws[w := x])
  {
  }

  lemma GrantReceiverShape(c: State, w: Op)
    requires Shape(c) && CanWakeReceiver(c)
    requires w == c.receivers[FirstIdle(c.receivers, c.waiters)] && c.waiters[w].role.Receiver?
    ensures Shape(GrantReceiver(c, w))
    ensures Answered(c) ==> Answered(GrantReceiver(c, w))
  {
    var x := Woken(c.waiters[w]).(reserved := true);
    TouchQueues(c, w, x);
    ReserveOne(c.waiters, w, x);
    GrantInOrder(c.receivers, c.waiters, x);
    GrantElsewhere(c.senders, c.waiters, w, x);
  }

  lemma GrantSenderShape(c: State)
    requires Shape(c) && HasFreeSlot(c) && FirstIdle(c.senders, c.waiters) < |c.senders|
    ensures Shape(GrantSender(c, c.senders[FirstIdle(c.senders, c.waiters)]))
    ensures Answered(c) ==> Answered(GrantSender(c, c.senders[FirstIdle(c.senders, c.waiters)]))
  {
    var w := c.senders[FirstIdle(c.senders, c.waiters)];
    var x := Woken(c.waiters[w]).(reserved := true);
    TouchQueues(c, w, x);
    ReserveOne(c.waiters, w, x);
    GrantInOrder(c.senders, c.waiters, x);
    GrantElsewhere(c.receivers, c.waiters, w, x);
    assert LifeOk(c.waiters[w], Queued(c, w), c.closed);
    TouchLives(c, w, x);
    TouchDeliverers(c, w, x);
  }

  /** The deliverer whose value was taken is woken where it stands ... */
  lemma TouchDelivererShape(c: State, w: Op)
    requires Shape(c) && w in c.senders && Delivering(c.waiters, w)
    ensures var d := c.(waiters := c.waiters[w := Woken(c.waiters[w])]);
      && Queues(d)
      && NoOvertaking(d.receivers, d.waiters)
      && NoOvertaking(d.senders, d.waiters)
      && Counts(d)
  {
    TouchQueues(c, w, Woken(c.waiters[w]));
    TouchPromises(c, w, Woken(c.waiters[w]));
  }

  /** ... and leaves its queue. */
  lemma AnswerShape(c: State, w: Op, q: seq<Op>)
    requires Shape(c) && w in c.senders && Delivering(c.waiters, w) && c.held == []
    requires forall v :: v in q <==> v in c.senders && v != w
    requires Ordered(q, c.waiters[w := Woken(c.waiters[w])])
    requires NoOvertaking(q, c.waiters[w := Woken(c.waiters[w])])
    ensures var d := c.(senders := q, waiters := c.waiters[w := Woken(c.waiters[w])]);
      Shape(d) && Answered(d)
  {
    TouchDelivererShape(c, w);
  }

  lemma WakeDeliveredShape(c: State)
    requires Shape(c)
    ensures Shape(WakeDelivered(c)) && Answered(WakeDelivered(c))
  {
    var i := FirstDelivering(c.senders, c.waiters);
    if !Buffered(c) && c.held == [] && i < |c.senders| {
      var w := c.senders[i];
      var ws := c.waiters[w := Woken(c.waiters[w])];
      TouchDelivererShape(c, w);
      RemoveMembers(c.senders, ws, w);
      RemoveOrdered(c.senders, ws, w);
      AnswerShape(c, w, Remove(c.senders, w));
    }
  }

  lemma WakeSenderShape(c: State)
    requires Shape(c)
    ensures Shape(WakeSender(c)) && Answered(WakeSender(c))
  {
    WakeDeliveredShape(c);
    var d := WakeDelivered(c);
    if HasFreeSlot(d) && FirstIdle(d.senders, d.waiters) < |d.senders| {
      GrantSenderShape(d);
    }
  }

  lemma TakeShape(c: State, taker: Op)
    requires Shape(c) && HasFreeValue(c)
    ensures Shape(Take(c, taker))
  {
  }

  lemma PutShape(c: State, msg: Msg)
    requires Shape(c) && Answered(c) && HasFreeSlot(c)
    ensures Shape(Put(c, msg)) && Answered(Put(c, msg))
  {
  }

  lemma RollBackShape(c: State)
    requires Shape(c)
    requires !Buffered(c) && !c.committed ==> c.reservedReceivers == 0
    ensures Shape(RollBack(c))
  {
  }

  lemma ParkOrdered(q: seq<Op>, ws: map<Op, Waiter>, op: Op, x: Waiter)
    requires Ordered(q, ws) && NoOvertaking(q, ws) && op !in ws && !x.reserved
    requires forall w :: w in ws ==> ws[w].ticket < x.ticket
    ensures Ordered(q, ws[op := x]) && NoOvertaking(q, ws[op := x])
    ensures Ordered(q + [op], ws[op := x]) && NoOvertaking(q + [op], ws[op := x])
    ensures Reserved(ws[op := x], true) == Reserved(ws, true)
    ensures Reserved(ws[op := x], false) == Reserved(ws, false)
  {
  }

  lemma ParkPromises(c: State, d: State, op: Op, x: Waiter)
    requires Counts(c) && op !in c.waiters && !x.reserved && d.waiters == c.waiters[op := x]
    requires d.reservedReceivers == c.reservedReceivers && d.reservedSenders == c.reservedSenders
    ensures Counts(d)
  {
    assert Reserved(d.waiters, true) == Reserved(c.waiters, true);
    assert Reserved(d.waiters, false) == Reserved(c.waiters, false);
  }

  lemma ParkLives(c: State, d: State, op: Op, x: Waiter)
    requires Lives(c) && op !in c.waiters && d.waiters == c.waiters[op := x] && d.closed == c.closed
    requires forall v :: v != op ==> (Queued(d, v) <==> Queued(c, v))
    requires LifeOk(x, Queued(d, op), d.closed)
    ensures Lives(d)
  {
    forall v | v in d.waiters ensures LifeOk(d.waiters[v], Queued(d, v), d.closed) {
      assert v != op ==> LifeOk(c.waiters[v], Queued(c, v), c.closed);
    }
  }

  /** A new record at the end of one of the queues. */
  ghost predicate Parks(c: State, d: State, op: Op, x: Waiter) {
    && Shape(c) && op !in c.waiters && !c.closed
    && x == Waiter(x.role, false, Parked, !x.role.PendingFuture?, c.arrivals)
    && d == c.(receivers := d.receivers, senders := d.senders,
               waiters := c.waiters[op := x], arrivals := c.arrivals + 1)
    && (if Receives(x.role) then d.receivers == c.receivers + [op] && d.senders == c.senders
        else d.senders == c.senders + [op] && d.receivers == c.receivers && x.role.msg.op == op)
  }

  lemma ParkQueues(c: State, d: State, op: Op, x: Waiter)
    requires Parks(c, d, op, x)
    ensures Queues(d) && NoOvertaking(d.receivers, d.waiters) && NoOvertaking(d.senders, d.waiters)
  {
    ParkOrdered(c.receivers, c.waiters, op, x);
    ParkOrdered(c.senders, c.waiters, op, x);
  }

  lemma ParkDeliverers(c: State, d: State, op: Op, x: Waiter)
    requires Parks(c, d, op, x)
    requires x.role.Deliverer? ==> !Buffered(c) && c.held == [x.role.msg] && !c.committed
    requires x.role.Deliverer? ==> forall w :: w in c.senders ==> !Delivering(c.waiters, w)
    ensures Deliverers(d) && (Answered(c) ==> Answered(d))
  {
    assert forall w :: w in d.senders ==> w == op || w in c.senders;
    assert forall w :: w in c.senders ==> w in c.waiters && (Delivering(d.waiters, w) <==> Delivering(c.waiters, w));
  }

  lemma ParkShape(c: State, d: State, op: Op, x: Waiter)
    requires Parks(c, d, op, x)
    requires x.role.Deliverer? ==> !Buffered(c) && c.held == [x.role.msg] && !c.committed
    requires x.role.Deliverer? ==> forall w :: w in c.senders ==> !Delivering(c.waiters, w)
    ensures Shape(d) && (Answered(c) ==> Answered(d))
  {
    ParkQueues(c, d, op, x);
    ParkDeliverers(c, d, op, x);
    ParkPromises(c, d, op, x);
    ParkLives(c, d, op, x);
  }

  lemma ParkReceiverShape(c: State, op: Op, role: Role)
    requires Shape(c) && op !in c.waiters && Receives(role) && !c.closed
    ensures Shape(ParkReceiver(c, op, role))
    ensures Answered(c) ==> Answered(ParkReceiver(c, op, role))
  {
    ParkShape(c, ParkReceiver(c, op, role), op, ParkReceiver(c, op, role).waiters[op]);
  }

  lemma ParkSenderShape(c: State, op: Op, role: Role)
    requires Shape(c) && Answered(c) && op !in c.waiters && !c.closed
    requires !Receives(role) && role.msg.op == op
    requires role.Deliverer? ==> !Buffered(c) && c.held == [role.msg] && !c.committed
    requires role.Deliverer? ==> forall w :: w in c.senders ==> !Delivering(c.waiters, w)
    ensures Shape(ParkSender(c, op, role)) && Answered(ParkSender(c, op, role))
  {
    ParkShape(c, ParkSender(c, op, role), op, ParkSender(c, op, role).waiters[op]);
  }

  lemma UnreserveOne(ws: map<Op, Waiter>, w: Op)
    requires w in ws
    ensures var side := Receives(ws[w].role);
      && Reserved(ws - {w}, !side) == Reserved(ws, !side)
      && |Reserved(ws - {w}, side)| == |Reserved(ws, side)| - (if ws[w].reserved then 1 else 0)
  {
    var side := Receives(ws[w].role);
    assert Reserved(ws - {w}, !side) == Reserved(ws, !side);
    if ws[w].reserved {
      assert Reserved(ws, side) == Reserved(ws - {w}, side) + {w};
    } else {
      assert Reserved(ws - {w}, side) == Reserved(ws, side);
    }
  }

  ghost predicate QueueWithout(q: seq<Op>, r: seq<Op>, w: Op, ws: map<Op, Waiter>) {
    && (forall v :: v in r <==> v in q && v != w)
    && Ordered(r, ws)
    && NoOvertaking(r, ws)
  }

  lemma RemoveWithout(q: seq<Op>, w: Op, ws: map<Op, Waiter>)
    requires Ordered(q, ws) && NoOvertaking(q, ws)
    ensures QueueWithout(q, Remove(q, w), w, ws - {w})
  {
    RemoveMembers(q, ws, w);
    RemoveOrdered(q, ws, w);
    assert forall v :: Idle(ws - {w}, v) ==> Idle(ws, v);
  }

  function Leave(c: State, op: Op, rq: seq<Op>, sq: seq<Op>): State {
    c.(receivers := rq, senders := sq, waiters := c.waiters - {op})
  }

  lemma LeaveQueues(c: State, op: Op, rq: seq<Op>, sq: seq<Op>)
    requires Shape(c) && op in c.waiters
    requires QueueWithout(c.receivers, rq, op, c.waiters - {op})
    requires QueueWithout(c.senders, sq, op, c.waiters - {op})
    ensures var d := Release(Leave(c, op, rq, sq), c.waiters[op]);
      Queues(d) && ClosedShape(d)
  {
    assert c.senders == [] ==> sq == [] by { if |sq| > 0 { assert sq[0] in sq; } }
  }

  lemma LeaveDeliverers(c: State, op: Op, rq: seq<Op>, sq: seq<Op>)
    requires Deliverers(c) && op in c.waiters
    requires forall v :: v in sq <==> v in c.senders && v != op
    ensures Deliverers(Release(Leave(c, op, rq, sq), c.waiters[op]))
  {
    assert forall v :: Delivering(c.waiters - {op}, v) ==> Delivering(c.waiters, v);
  }

  lemma LeaveLives(c: State, op: Op, rq: seq<Op>, sq: seq<Op>)
    requires Shape(c) && op in c.waiters
    requires QueueWithout(c.receivers, rq, op, c.waiters - {op})
    requires QueueWithout(c.senders, sq, op, c.waiters - {op})
    ensures Lives(Release(Leave(c, op, rq, sq), c.waiters[op]))
  {
  }

  lemma LeaveCounts(c: State, op: Op, rq: seq<Op>, sq: seq<Op>)
    requires Counts(c) && Slots(c) && !c.fault && op in c.waiters
    ensures var d := Release(Leave(c, op, rq, sq), c.waiters[op]);
      Counts(d) && Slots(d) && !d.fault
  {
    UnreserveOne(c.waiters, op);
  }

  /** A waiter that leaves gives back exactly the reservation it held. */
  lemma UnparkShape(c: State, op: Op)
    requires Shape(c) && op in c.waiters
    ensures Shape(Release(Unpark(c, op), c.waiters[op]))
    ensures forall v :: v in Unpark(c, op).senders <==> v in c.senders && v != op
    ensures forall v :: v in Unpark(c, op).receivers <==> v in c.receivers && v != op
  {
    RemoveWithout(c.receivers, op, c.waiters);
    RemoveWithout(c.senders, op, c.waiters);
    LeaveQueues(c, op, Remove(c.receivers, op), Remove(c.senders, op));
    LeaveDeliverers(c, op, Remove(c.receivers, op), Remove(c.senders, op));
    LeaveLives(c, op, Remove(c.receivers, op), Remove(c.senders, op));
    LeaveCounts(c, op, Remove(c.receivers, op), Remove(c.senders, op));
  }

  lemma ServeFutureShape(c: State, w: Op)
    requires Shape(c) && CanWakeReceiver(c)
    requires w == c.receivers[FirstIdle(c.receivers, c.waiters)] && c.waiters[w].role.PendingFuture?
    ensures Shape(ServeFuture(c, w))
  {
    UnparkShape(c, w);
    assert Remove(c.senders, w) == c.senders;
    TakeShape(Unpark(c, w), w);
  }

  lemma WakeReceiverShape(c: State)
    requires Shape(c)
    ensures Shape(WakeReceiver(c))
    ensures Answered(c) ==> Answered(WakeReceiver(c))
  {
    if CanWakeReceiver(c) {
      var w := c.receivers[FirstIdle(c.receivers, c.waiters)];
      assert w in c.receivers;
      if c.waiters[w].role.PendingFuture? {
        ServeFutureShape(c, w);
        WakeSenderShape(ServeFuture(c, w));
      } else {
        GrantReceiverShape(c, w);
      }
    }
  }

  lemma CancelShape(c: State, op: Op)
    requires Shape(c) && op in c.waiters && !c.waiters[op].role.PendingFuture?
    ensures Shape(Cancel(c, op))
    ensures Answered(c) ==> Answered(Cancel(c, op))
  {
    var x := c.waiters[op].(wake := Failed);
    TouchQueues(c, op, x);
    TouchPromises(c, op, x);
    assert LifeOk(c.waiters[op], Queued(c, op), c.closed);
    TouchLives(c, op, x);
    TouchDeliverers(c, op, x);
  }

  lemma DropShape(c: State, op: Op)
    requires Shape(c) && op in c.waiters && c.waiters[op].role.PendingFuture?
    ensures Shape(DropFuture(c, op))
    ensures Answered(c) ==> Answered(DropFuture(c, op))
  {
    UnparkShape(c, op);
    assert Remove(c.senders, op) == c.senders;
  }
}
