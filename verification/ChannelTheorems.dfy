/**
 The promises of the channel, each stated of every run.
 */
module ChannelTheorems {
  import opened ChannelModel
  import opened ChannelShape
  import opened ChannelSteps
  import opened ChannelLedger
  import opened ChannelRuns

  /** No stranded waiter: a value nobody was promised means that every queued receiver has
      one promised to it, and the same for slots and the senders waiting for one. */
  lemma NoStrandedWaiter(run: seq<State>, i: nat)
    requires IsChannelRun(run) && i < |run|
    ensures var c := run[i];
      && (HasFreeValue(c) ==> forall w :: w in c.receivers ==> w in c.waiters && c.waiters[w].reserved)
      && (HasFreeSlot(c) ==> forall w :: w in c.senders ==>
            w in c.waiters && (c.waiters[w].reserved || c.waiters[w].role.Deliverer?))
  {
    RunInvariant(run, i);
    var c := run[i];
    forall w | w in c.receivers && HasFreeValue(c) ensures w in c.waiters && c.waiters[w].reserved {
      assert !Idle(c.waiters, w);
    }
    forall w | w in c.senders && HasFreeSlot(c)
      ensures w in c.waiters && (c.waiters[w].reserved || c.waiters[w].role.Deliverer?)
    {
      assert !Idle(c.waiters, w);
    }
  }

  /** Reservation accounting: the counters are the numbers of woken waiters that have not
      run yet, they never exceed the values and the free space, a promised rendezvous value
      is committed, and no assertion of the source ever fails. */
  lemma ReservationAccounting(run: seq<State>, i: nat)
    requires IsChannelRun(run) && i < |run|
    ensures var c := run[i];
      && c.reservedReceivers == |Reserved(c.waiters, true)| <= |c.held|
      && c.reservedSenders == |Reserved(c.waiters, false)| <= Room(c)
      && (!Buffered(c) && c.reservedReceivers > 0 ==> c.committed)
      && !c.fault
      && forall w :: w in c.waiters && c.waiters[w].reserved ==> !c.waiters[w].wake.Parked?
  {
    RunInvariant(run, i);
    var c := run[i];
    forall w | w in c.waiters && c.waiters[w].reserved ensures !c.waiters[w].wake.Parked? {
      assert LifeOk(c.waiters[w], Queued(c, w), c.closed);
    }
  }

  /** A waiter that runs without an exception gets what it was promised, even when the
      channel was closed in between: a receiver the oldest value, a sender a place for its
      value, a deliverer the news that its value was received. Nobody waits twice. */
  lemma PromisesKept(run: seq<State>, i: nat, op: Op, fired: bool)
    requires IsChannelRun(run) && i < |run| && Enabled(run[i], DoResume(op, fired))
    requires run[i].waiters[op].wake.Resumed?
    ensures var c := run[i];
      var d := Resume(c, op, fired);
      match c.waiters[op].role
      case Receiver =>
        c.held != [] && op in d.verdicts && d.verdicts[op] == Got(c.held[0])
      case SpaceSender(msg) =>
        && !c.closed && Room(c) > 0 && (!Buffered(c) ==> c.held == [])
        && msg.op in Ops(d.accepted)
      case Deliverer(msg) =>
        op in d.verdicts && d.verdicts[op] == Sent && op in Ops(Msgs(c.received))
      case PendingFuture => false
  {
    RunInvariant(run, i);
    var c := run[i];
    match c.waiters[op].role {
      case Receiver => ReceiverPromise(c, op, fired);
      case SpaceSender(msg) => SenderPromise(c, op, msg, fired);
      case Deliverer(_) => DelivererPromise(c, op, fired);
      case PendingFuture =>
    }
  }

  lemma ReceiverPromise(c: State, op: Op, fired: bool)
    requires Inv(c) && Enabled(c, DoResume(op, fired)) && c.waiters[op].wake.Resumed? && c.waiters[op].role.Receiver?
    ensures var d := Resume(c, op, fired);
      c.held != [] && op in d.verdicts && d.verdicts[op] == Got(c.held[0])
  {
    assert LifeOk(c.waiters[op], Queued(c, op), c.closed);
    ReceiverReturns(c, op);
    UnparkSlack(c, op);
    WakeSenderBooks(Take(WaitReturn(c, op), op));
  }

  lemma SenderPromise(c: State, op: Op, msg: Msg, fired: bool)
    requires Inv(c) && Enabled(c, DoResume(op, fired)) && c.waiters[op].wake.Resumed?
    requires c.waiters[op].role == SpaceSender(msg)
    ensures !c.closed && Room(c) > 0 && (!Buffered(c) ==> c.held == [])
    ensures msg.op in Ops(Resume(c, op, fired).accepted)
  {
    assert LifeOk(c.waiters[op], Queued(c, op), c.closed);
    SpaceSenderReturns(c, op);
    LedgerSpaceSenderReturns(c, op);
    UnparkSlack(c, op);
    LedgerDeposit(WaitReturn(c, op), msg);
  }

  lemma DelivererPromise(c: State, op: Op, fired: bool)
    requires Inv(c) && Enabled(c, DoResume(op, fired)) && c.waiters[op].wake.Resumed? && c.waiters[op].role.Deliverer?
    ensures var d := Resume(c, op, fired);
      op in d.verdicts && d.verdicts[op] == Sent && op in Ops(Msgs(c.received))
  {
    assert LifeOk(c.waiters[op], Queued(c, op), c.closed);
    assert DelivererOk(c, op);
  }

  // --------------------------------------------------------------------- conservation and order

  lemma SurvivingDistinct(s: seq<Msg>, gone: set<Op>)
    requires Distinct(s)
    ensures Distinct(Surviving(s, gone))
  {
    if s != [] {
      var front := s[..|s| - 1];
      SurvivingDistinct(front, gone);
      SurvivingMembers(front, gone);
      forall i | 0 <= i < |Surviving(front, gone)|
        ensures Surviving(front, gone)[i].op != s[|s| - 1].op
      {
        var m := Surviving(front, gone)[i];
        assert m in front;
      }
    }
  }

  /** Conservation and order: the received messages, in the order they were taken, followed
      by the held ones are the accepted messages in the order they were accepted, without
      those that were explicitly rolled back. No message is received twice, and every
      receive call gets one message. */
  lemma Conservation(run: seq<State>, i: nat)
    requires IsChannelRun(run) && i < |run|
    ensures var c := run[i];
      && Msgs(c.received) + c.held == Surviving(c.accepted, c.rolledBack)
      && (forall a, b :: 0 <= a < b < |c.received| ==>
            c.received[a].msg.op != c.received[b].msg.op && c.received[a].taker != c.received[b].taker)
      && (forall op :: op in c.verdicts && c.verdicts[op].Got? ==>
            Receipt(op, c.verdicts[op].msg) in c.received)
  {
    RunInvariant(run, i);
    var c := run[i];
    SurvivingDistinct(c.accepted, c.rolledBack);
    var all := Msgs(c.received) + c.held;
    forall a, b | 0 <= a < b < |c.received| ensures c.received[a].msg.op != c.received[b].msg.op {
      assert all[a] == c.received[a].msg && all[b] == c.received[b].msg;
    }
  }

  // -------------------------------------------------------------------------------- verdicts

  lemma AcceptedIsSomewhere(c: State, op: Op)
    requires Books(c) && op in Ops(c.accepted) && op !in c.rolledBack
    ensures op in Ops(Msgs(c.received)) || op in Ops(c.held)
  {
    SurvivingMembers(c.accepted, c.rolledBack);
    var m :| m in c.accepted && m.op == op;
    assert m in Msgs(c.received) + c.held;
  }

  /** A send that returned is never undone, by close() or by anybody's cancellation: from
      then on its message is received or held, and if held in the slot it is committed. */
  lemma SuccessIsFinal(run: seq<State>, i: nat, j: nat, op: Op)
    requires IsChannelRun(run) && i <= j < |run|
    requires op in run[i].verdicts && run[i].verdicts[op] == Sent
    ensures var d := run[j];
      && op !in d.rolledBack
      && (op in Ops(Msgs(d.received)) || (op in Ops(d.held) && (Buffered(d) || d.committed)))
  {
    RunGrows(run, i, j);
    RunInvariant(run, j);
    assert VerdictOk(run[j], op);
    AcceptedIsSomewhere(run[j], op);
  }

  lemma AcceptedGrows(c: State, d: State, op: Op)
    requires Grows(c, d) && op in c.verdicts
    ensures op in Ops(d.accepted) ==> op in Ops(c.accepted)
  {
    if op in Ops(d.accepted) {
      var m :| m in d.accepted && m.op == op;
      var k :| 0 <= k < |d.accepted| && d.accepted[k] == m;
      assert k < |c.accepted| && c.accepted[k] == m;
    }
  }

  /** A send that threw before its value was taken never reaches a receiver, unless its
      token had fired when the delivery wait began. */
  lemma FailureIsFinal(run: seq<State>, i: nat, j: nat, op: Op)
    requires IsChannelRun(run) && i <= j < |run|
    requires op in run[i].verdicts && run[i].verdicts[op] == SendThrew
    requires op !in Ops(Msgs(run[i].received)) && op !in run[i].orphans
    ensures op !in Ops(Msgs(run[j].received)) && op !in Ops(run[j].held)
  {
    RunInvariant(run, i);
    RunInvariant(run, j);
    RunGrows(run, i, j);
    assert VerdictOk(run[i], op);
    AcceptedGrows(run[i], run[j], op);
    OpsHeld(run[j]);
    if op in Ops(run[i].accepted) && op !in run[i].rolledBack {
      AcceptedIsSomewhere(run[i], op);
    }
  }

  /** The call resumes with the slot promised to it, on a rendezvous channel where no
      receiver is left to match, and its token fired after it was woken: the check at the
      start of the delivery wait throws with the value already in the slot. */
  predicate ThrowsOverItsValue(c: State, s: Step, op: Op) {
    && s.DoResume? && s.op == op && s.fired && !Buffered(c)
    && op in c.waiters && c.waiters[op].role.SpaceSender? && c.waiters[op].wake.Resumed?
    && forall w :: w in c.receivers ==> !Idle(c.waiters, w)
  }

  lemma DepositOrphans(c: State, msg: Msg)
    requires Shape(c) && Answered(c) && HasFreeSlot(c)
    ensures Deposit(c, msg).orphans == c.orphans
  {
    PutShape(c, msg);
    WakeReceiverHistory(Put(c, msg));
  }

  lemma WaitReturnOrphans(c: State, op: Op)
    requires Sound(c) && op in c.waiters
    ensures WaitReturn(c, op).orphans == c.orphans
  {
    UnparkShape(c, op);
    CleanUpOrphans(c, op);
    HandOnOrphans(CleanUp(c, op), c.waiters[op], Queued(c, op));
  }

  lemma CleanUpOrphans(c: State, op: Op)
    requires op in c.waiters
    ensures CleanUp(c, op).orphans == c.orphans
    ensures !c.waiters[op].role.Deliverer? ==> CleanUp(c, op) == Release(Unpark(c, op), c.waiters[op])
  {
  }

  lemma HandOnOrphans(r: State, x: Waiter, wasQueued: bool)
    requires Receives(x.role) ==> Queues(r)
    ensures HandOn(r, x, wasQueued).orphans == r.orphans
  {
    WakeSenderBooks(r);
    if Receives(x.role) {
      WakeReceiverHistory(r);
    }
  }

  lemma SpaceSenderComesBack(c: State, op: Op)
    requires Sound(c) && op in c.waiters && c.waiters[op].role.SpaceSender?
    requires c.waiters[op].wake.Resumed?
    ensures var r := WaitReturn(c, op);
      && Returned(r, op, c.waiters[op]) && c.waiters[op].reserved && !c.closed && !r.closed
      && r.held == c.held && r.capacity == c.capacity && r.orphans == c.orphans
      && r.receivers == c.receivers
      && (forall w :: w in c.receivers ==> (Idle(r.waiters, w) <==> Idle(c.waiters, w)))
  {
    assert LifeOk(c.waiters[op], Queued(c, op), c.closed);
    SpaceSenderReturns(c, op);
    UnparkSlack(c, op);
    assert op !in c.receivers;
    assert Remove(c.receivers, op) == c.receivers;
  }

  lemma IdleIffFirst(q: seq<Op>, ws: map<Op, Waiter>)
    ensures FirstIdle(q, ws) == |q| <==> forall w :: w in q ==> !Idle(ws, w)
  {
    if FirstIdle(q, ws) == |q| {
      NoIdleBefore(q, ws);
    } else {
      assert q[FirstIdle(q, ws)] in q;
    }
  }

  lemma ResumedOrphanIff(c: State, op: Op, fired: bool)
    requires Inv(c) && Enabled(c, DoResume(op, fired)) && c.waiters[op].role.SpaceSender?
    requires c.waiters[op].wake.Resumed?
    ensures var d := Resume(c, op, fired);
      d.orphans == if ThrowsOverItsValue(c, DoResume(op, fired), op) then c.orphans + {op} else c.orphans
  {
    SpaceSenderComesBack(c, op);
    RetryOrphans(WaitReturn(c, op), c.waiters[op].role.msg, fired);
    assert c.waiters[op].role.msg.op == op;
  }

  /** A retry with a slot to spend leaves its value behind exactly if the token has fired and no
      receiver waits for it. */
  lemma RetryOrphans(r: State, msg: Msg, fired: bool)
    requires Shape(r) && Answered(r) && HasFreeSlot(r) && !r.closed
    ensures TrySend(r, msg, true, fired).orphans ==
      if fired && !Buffered(r) && (forall w :: w in r.receivers ==> !Idle(r.waiters, w))
      then r.orphans + {msg.op} else r.orphans
  {
    DepositOrphans(r, msg);
    UnmatchedIff(r, msg);
  }

  lemma UnmatchedIff(r: State, msg: Msg)
    requires Shape(r)
    ensures Unmatched(r, msg) <==> !Buffered(r) && forall w :: w in r.receivers ==> !Idle(r.waiters, w)
  {
    IdleIffFirst(r.receivers, r.waiters);
  }

  lemma ResumeOrphans(c: State, op: Op, fired: bool)
    requires Inv(c) && Enabled(c, DoResume(op, fired))
    ensures var d := Resume(c, op, fired);
      d.orphans == if ThrowsOverItsValue(c, DoResume(op, fired), op) then c.orphans + {op} else c.orphans
  {
    var x := c.waiters[op];
    if x.role.SpaceSender? && x.wake.Resumed? {
      ResumedOrphanIff(c, op, fired);
    } else {
      WaitReturnOrphans(c, op);
      GoOnOrphans(WaitReturn(c, op), op, x, fired);
    }
  }

  lemma GoOnOrphans(r: State, op: Op, x: Waiter, fired: bool)
    requires x.role.SpaceSender? ==> x.wake.Failed?
    ensures GoOn(r, op, x, fired).orphans == r.orphans
  {
    match x.role {
      case Deliverer(_) =>
      case SpaceSender(_) =>
      case _ => TryRecvOrphans(r, op, x.reserved, fired);
    }
  }

  lemma TryRecvOrphans(r: State, op: Op, reserved: bool, fired: bool)
    ensures TryRecv(r, op, reserved, fired).orphans == r.orphans
  {
    WakeSenderBooks(Take(r, op));
  }

  lemma StepOrphans(c: State, s: Step, op: Op)
    requires Inv(c) && Enabled(c, s)
    ensures op in Apply(c, s).orphans <==> op in c.orphans || ThrowsOverItsValue(c, s, op)
  {
    match s {
      case DoSend(msg) => SendOrphans(c, msg);
      case DoSendAsync(msg) => SendOrphans(c, msg);
      case DoRecv(o) => WakeSenderBooks(Take(c, o));
      case DoRecvAsync(o) => WakeSenderBooks(Take(c, o));
      case DoResume(o, fired) => ResumeOrphans(c, o, fired);
      case _ =>
    }
  }

  lemma SendOrphans(c: State, msg: Msg)
    requires Inv(c)
    ensures TrySend(c, msg, false, false).orphans == c.orphans && SendAsync(c, msg).orphans == c.orphans
  {
    if !c.closed && HasFreeSlot(c) {
      DepositOrphans(c, msg);
    }
  }

  lemma OrphanIsHeld(c: State, s: Step, op: Op)
    requires Inv(c) && Enabled(c, s) && ThrowsOverItsValue(c, s, op)
    ensures var d := Apply(c, s);
      op in d.verdicts && d.verdicts[op] == SendThrew && op in Ops(d.held)
  {
    var msg := c.waiters[op].role.msg;
    var r := WaitReturn(c, op);
    SpaceSenderComesBack(c, op);
    IdleIffFirst(r.receivers, r.waiters);
    DepositSound(r, msg);
    assert msg in Deposit(r, msg).held;
  }

  /** Exactly when a send throws and leaves its value where a receiver can take it. */
  lemma ThrowLeavesValueIff(run: seq<State>, i: nat, s: Step, op: Op)
    requires IsChannelRun(run) && i < |run| && Enabled(run[i], s) && op !in run[i].verdicts
    ensures var d := Apply(run[i], s);
      (op in d.verdicts && d.verdicts[op] == SendThrew && op in Ops(d.held))
      <==> ThrowsOverItsValue(run[i], s, op)
  {
    var c := run[i];
    var d := Apply(c, s);
    RunInvariant(run, i);
    StepLedger(c, s);
    StepOrphans(c, s, op);
    if ThrowsOverItsValue(c, s, op) {
      OrphanIsHeld(c, s, op);
    } else if op in d.verdicts && d.verdicts[op] == SendThrew {
      assert VerdictOk(d, op);
      assert op !in c.orphans;
    }
  }

  /** A rendezvous channel with one sender parked on its value and one behind it. */
  function TwoSenders(a: Msg, b: Msg): State {
    State(0, [a], false, false, [], [0, 1],
          map[0 := Waiter(Deliverer(a), false, Parked, true, 0),
              1 := Waiter(SpaceSender(b), false, Parked, true, 1)],
          0, 0, 2, false, [a], [], {}, {}, map[])
  }

  /** ... after a receiver took the first value: the second sender is woken for the slot. */
  function SecondWoken(a: Msg, b: Msg): State {
    State(0, [], false, false, [], [1],
          map[0 := Waiter(Deliverer(a), false, Resumed, false, 0),
              1 := Waiter(SpaceSender(b), true, Resumed, false, 1)],
          0, 1, 2, false, [a], [Receipt(2, a)], {}, {}, map[2 := Got(a)])
  }

  /** ... after the second sender ran with its token fired. */
  function SecondThrew(a: Msg, b: Msg): State {
    State(0, [b], false, false, [], [],
          map[0 := Waiter(Deliverer(a), false, Resumed, false, 0)],
          0, 0, 2, false, [a, b], [Receipt(2, a)], {}, {1}, map[2 := Got(a), 1 := SendThrew])
  }

  lemma ReachTwoSenders(a: Msg, b: Msg)
    requires a.op == 0 && b.op == 1
    ensures Apply(Apply(Init(0), DoSend(a)), DoSend(b)) == TwoSenders(a, b)
  {
    var c := Apply(Init(0), DoSend(a));
    assert c.held == [a] && c.senders == [0] && c.accepted == [a];
  }

  lemma ReachSecondWoken(a: Msg, b: Msg)
    requires a.op == 0 && b.op == 1
    ensures Apply(TwoSenders(a, b), DoRecv(2)) == SecondWoken(a, b)
  {
    var t := Take(TwoSenders(a, b), 2);
    assert t.held == [] && FirstDelivering(t.senders, t.waiters) == 0;
    assert IndexOf([0, 1], 0) == 0;
    var d := WakeDelivered(t);
    assert d.senders == [1] && FirstIdle(d.senders, d.waiters) == 0;
  }

  lemma ReachSecondThrew(a: Msg, b: Msg)
    requires a.op == 0 && b.op == 1
    ensures Apply(SecondWoken(a, b), DoResume(1, true)) == SecondThrew(a, b)
  {
    var c := SecondWoken(a, b);
    assert IndexOf([1], 1) == 0 && Remove([1], 1) == [];
    var r := WaitReturn(c, 1);
    assert r.senders == [] && r.held == [] && r.reservedSenders == 0;
    var d := Deposit(r, b);
    assert d.held == [b] && d.accepted == [a, b];
  }

  /** The run that shows it happens: a second sender is woken for the slot the first one
      freed, its token fires, its send throws, and the next receiver still gets its value. */
  lemma ThrownValueIsReceived(a: Msg, b: Msg)
    requires a.op == 0 && b.op == 1
    ensures var c := SecondThrew(a, b);
      && Reachable(c)
      && c.verdicts[1] == SendThrew && 1 !in Ops(Msgs(c.received))
      && 1 in Ops(Msgs(Apply(c, DoRecv(3)).received))
  {
    SecondThrewReachable(a, b);
    ReceivedNext(a, b);
  }

  lemma SecondThrewReachable(a: Msg, b: Msg)
    requires a.op == 0 && b.op == 1
    ensures Reachable(SecondThrew(a, b))
  {
    InitReachable(0);
    StepReachable(Init(0), DoSend(a));
    StepReachable(Apply(Init(0), DoSend(a)), DoSend(b));
    ReachTwoSenders(a, b);
    StepReachable(TwoSenders(a, b), DoRecv(2));
    ReachSecondWoken(a, b);
    StepReachable(SecondWoken(a, b), DoResume(1, true));
    ReachSecondThrew(a, b);
  }

  lemma ReceivedNext(a: Msg, b: Msg)
    requires a.op == 0 && b.op == 1
    ensures 1 in Ops(Msgs(Apply(SecondThrew(a, b), DoRecv(3)).received))
  {
    WakeSenderBooks(Take(SecondThrew(a, b), 3));
    var d := Apply(SecondThrew(a, b), DoRecv(3));
    assert Msgs(d.received) == [a, b] && b in Msgs(d.received);
  }

  // ---------------------------------------------------------------------------- arrival order

  /** A queue is in arrival order, and a waiter holds a promise only if everybody before it
      in the queue holds one or waits for an answer instead. */
  ghost predicate ServedInOrder(q: seq<Op>, ws: map<Op, Waiter>) {
    forall i, j :: 0 <= i < j < |q| ==>
      && q[i] in ws && q[j] in ws
      && ws[q[i]].ticket < ws[q[j]].ticket
      && (ws[q[j]].reserved ==> ws[q[i]].reserved || ws[q[i]].role.Deliverer?)
  }

  lemma PromisesInArrivalOrder(run: seq<State>, n: nat)
    requires IsChannelRun(run) && n < |run|
    ensures ServedInOrder(run[n].receivers, run[n].waiters)
    ensures ServedInOrder(run[n].senders, run[n].waiters)
  {
    RunInvariant(run, n);
  }

  /** No barging: a new call gets its value in or out at once only when nobody on its side
      is waiting without a promise. */
  lemma NewcomersQueueUp(run: seq<State>, i: nat, s: Step)
    requires IsChannelRun(run) && i < |run| && Enabled(run[i], s)
    ensures var c := run[i];
      var d := Apply(c, s);
      && ((s.DoSend? || s.DoSendAsync?) && |d.accepted| > |c.accepted| ==>
            forall w :: w in c.senders ==> !Idle(c.waiters, w))
      && ((s.DoRecv? || s.DoRecvAsync?) && |d.received| > |c.received| ==>
            forall w :: w in c.receivers ==> !Idle(c.waiters, w))
  {
    RunInvariant(run, i);
    var c := run[i];
    match s {
      case DoSend(msg) =>
        if c.closed || !HasFreeSlot(c) {
          assert Apply(c, s).accepted == c.accepted;
        }
      case DoSendAsync(msg) =>
        if c.closed || !HasFreeSlot(c) {
          assert Apply(c, s).accepted == c.accepted;
        }
      case DoRecv(op) =>
        if !HasFreeValue(c) {
          assert Apply(c, s).received == c.received;
        }
      case DoRecvAsync(op) =>
        if !HasFreeValue(c) {
          assert Apply(c, s).received == c.received;
        }
      case _ =>
    }
  }
}
