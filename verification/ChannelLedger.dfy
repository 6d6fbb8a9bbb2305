/**
 The books of the channel: what was accepted is, in order, what was received followed by
 what is held, except for rendezvous values that were explicitly taken back; and what each
 call was told agrees with where its message is.
 */
module ChannelLedger {
  import opened ChannelModel
  import opened ChannelShape
  import opened ChannelSteps

  function Ops(s: seq<Msg>): set<Op> { set m | m in s :: m.op }

  function Msgs(r: seq<Receipt>): (s: seq<Msg>)
    ensures |s| == |r| && forall i :: 0 <= i < |r| ==> s[i] == r[i].msg
  {
    seq(|r|, i requires 0 <= i < |r| => r[i].msg)
  }

  /** The messages of `s`, in order, without those of the calls in `gone`. */
  function Surviving(s: seq<Msg>, gone: set<Op>): seq<Msg> {
    if s == [] then []
    else
      var rest := Surviving(s[..|s| - 1], gone);
      if s[|s| - 1].op in gone then rest else rest + [s[|s| - 1]]
  }

  ghost predicate Distinct(s: seq<Msg>) {
    forall i, j :: 0 <= i < j < |s| ==> s[i].op != s[j].op
  }

  /** What the verdict of a call says about its message. */
  ghost predicate VerdictOk(c: State, op: Op)
    requires op in c.verdicts
  {
    match c.verdicts[op]
    case Sent =>
      && op in Ops(c.accepted) && op !in c.rolledBack
      && (!Buffered(c) && op in Ops(c.held) ==> c.committed)
    case SendThrew => op in Ops(c.held) ==> op in c.orphans
    case SentAsync => op in Ops(c.accepted)
    case _ => op !in Ops(c.accepted)
  }

  ghost predicate Receipts(c: State) {
    && (forall i :: 0 <= i < |c.received| ==>
          && c.received[i].taker in c.verdicts
          && c.verdicts[c.received[i].taker] == Got(c.received[i].msg))
    && (forall i, j :: 0 <= i < j < |c.received| ==> c.received[i].taker != c.received[j].taker)
    && (forall op :: op in c.verdicts && c.verdicts[op].Got? ==>
          Receipt(op, c.verdicts[op].msg) in c.received)
  }

  ghost predicate Books(c: State) {
    && Distinct(c.accepted)
    && c.rolledBack <= Ops(c.accepted)
    && Msgs(c.received) + c.held == Surviving(c.accepted, c.rolledBack)
    && Receipts(c)
    && (forall op :: op in c.verdicts ==> VerdictOk(c, op))
    && (forall op :: op in c.orphans ==> op in c.verdicts && c.verdicts[op].SendThrew?)
  }

  /** Where the message of a parked deliverer is. */
  ghost predicate DelivererOk(c: State, w: Op)
    requires w in c.waiters && c.waiters[w].role.Deliverer?
  {
    || (w in c.senders && c.held == [c.waiters[w].role.msg])
    || (w !in Ops(c.held) && w in Ops(Msgs(c.received)))
    || (w !in Ops(c.held) && w !in c.senders && c.waiters[w].wake.Failed?)
  }

  /** Every accepted message belongs to a call that was told something or still waits for
      its answer; `pending` is the call the current step is about to settle. */
  ghost predicate Debts(c: State, pending: set<Op>) {
    && c.waiters.Keys !! c.verdicts.Keys
    && (forall w :: w in c.waiters && c.waiters[w].role.Deliverer? ==> DelivererOk(c, w))
    && (forall op :: op in Ops(c.accepted) ==>
          op in c.verdicts || Delivering(c.waiters, op) || op in pending)
  }

  ghost predicate Ledger(c: State) { Books(c) && Debts(c, {}) }

  // --------------------------------------------------------------------------------- lists

  lemma OpsAppend(s: seq<Msg>, m: Msg)
    ensures Ops(s + [m]) == Ops(s) + {m.op}
  {
    assert forall x :: x in s + [m] <==> x in s || x == m;
  }

  lemma OpsTail(s: seq<Msg>)
    requires s != []
    ensures Ops(s) == Ops(s[1..]) + {s[0].op}
  {
    assert s == [s[0]] + s[1..];
  }

  lemma SurvivingAppend(s: seq<Msg>, m: Msg, gone: set<Op>)
    requires m.op !in gone
    ensures Surviving(s + [m], gone) == Surviving(s, gone) + [m]
  {
    assert (s + [m])[..|s|] == s;
  }

  lemma SurvivingMembers(s: seq<Msg>, gone: set<Op>)
    ensures forall m :: m in Surviving(s, gone) <==> m in s && m.op !in gone
  {
    if s != [] {
      SurvivingMembers(s[..|s| - 1], gone);
      assert s == s[..|s| - 1] + [s[|s| - 1]];
    }
  }

  lemma {:induction false} SurvivingSame(s: seq<Msg>, gone: set<Op>, op: Op)
    requires forall i :: 0 <= i < |s| ==> s[i].op != op
    ensures Surviving(s, gone + {op}) == Surviving(s, gone)
  {
    if s != [] {
      SurvivingSame(s[..|s| - 1], gone, op);
    }
  }

  /** Taking back the last surviving message. */
  lemma {:induction false} SurvivingDrop(s: seq<Msg>, gone: set<Op>, kept: seq<Msg>, m: Msg)
    requires Distinct(s) && Surviving(s, gone) == kept + [m]
    ensures Surviving(s, gone + {m.op}) == kept
  {
    var last := s[|s| - 1];
    var front := s[..|s| - 1];
    if last.op in gone {
      SurvivingDrop(front, gone, kept, m);
    } else {
      var rest := Surviving(front, gone);
      assert rest + [last] == kept + [m];
      assert (rest + [last])[|rest|] == last && (kept + [m])[|kept|] == m;
      assert (rest + [last])[..|rest|] == rest && (kept + [m])[..|kept|] == kept;
      SurvivingSame(front, gone, m.op);
    }
  }

  // ------------------------------------------------------------------------ books, change by change

  /** Values and history are the same; only queues, records and counters may differ. */
  ghost predicate SameBooks(c: State, d: State) {
    && d.held == c.held && d.accepted == c.accepted && d.received == c.received
    && d.rolledBack == c.rolledBack && d.orphans == c.orphans && d.verdicts == c.verdicts
    && d.capacity == c.capacity && (c.committed ==> d.committed)
  }

  lemma BooksSame(c: State, d: State)
    requires Books(c) && SameBooks(c, d)
    ensures Books(d)
  {
  }

  lemma BooksPut(c: State, msg: Msg)
    requires Books(c) && msg.op !in Ops(c.accepted) && msg.op !in c.verdicts
    requires !Buffered(c) ==> c.held == []
    ensures Books(Put(c, msg))
  {
    var d := Put(c, msg);
    OpsAppend(c.accepted, msg);
    OpsAppend(c.held, msg);
    SurvivingAppend(c.accepted, msg, c.rolledBack);
    assert Msgs(c.received) + d.held == Msgs(c.received) + c.held + [msg];
    forall i | 0 <= i < |c.accepted| ensures c.accepted[i].op != msg.op {
      assert c.accepted[i] in c.accepted;
    }
    forall op | op in d.verdicts ensures VerdictOk(d, op) {
      VerdictPut(c, msg, op);
    }
  }

  lemma VerdictPut(c: State, msg: Msg, op: Op)
    requires op in c.verdicts && VerdictOk(c, op) && op != msg.op && (!Buffered(c) ==> c.held == [])
    ensures VerdictOk(Put(c, msg), op)
  {
    OpsAppend(c.accepted, msg);
    OpsAppend(c.held, msg);
  }

  lemma ReceiptsTake(c: State, taker: Op)
    requires Receipts(c) && c.held != [] && taker !in c.verdicts
    ensures Receipts(Take(c, taker))
  {
    var d := Take(c, taker);
    assert d.received[|c.received|] == Receipt(taker, c.held[0]);
    forall op | op in d.verdicts && d.verdicts[op].Got?
      ensures Receipt(op, d.verdicts[op].msg) in d.received
    {
      if op != taker {
        assert Receipt(op, c.verdicts[op].msg) in c.received;
      }
    }
  }

  lemma BooksTake(c: State, taker: Op)
    requires Books(c) && c.held != [] && taker !in c.verdicts && taker !in Ops(c.accepted)
    requires |c.held| == 1 || Buffered(c)
    ensures Books(Take(c, taker))
  {
    var d := Take(c, taker);
    OpsTail(c.held);
    ReceiptsTake(c, taker);
    assert Msgs(d.received) == Msgs(c.received) + [c.held[0]];
    assert [c.held[0]] + c.held[1..] == c.held;
    assert Msgs(d.received) + d.held == Msgs(c.received) + c.held;
  }

  lemma BooksRollBack(c: State)
    requires Books(c) && (!Buffered(c) ==> |c.held| <= 1)
    ensures Books(RollBack(c))
  {
    if !Buffered(c) && c.held != [] && !c.committed {
      var m := c.held[0];
      assert c.held == [m];
      SurvivingDrop(c.accepted, c.rolledBack, Msgs(c.received), m);
      SurvivingMembers(c.accepted, c.rolledBack);
      assert (Msgs(c.received) + c.held)[|c.received|] == m;
      assert Msgs(c.received) + [] == Msgs(c.received);
      assert m in c.held && m.op in Ops(c.held) && m.op in Ops(c.accepted);
    }
  }

  lemma BooksJudge(c: State, op: Op, v: Verdict)
    requires Books(c) && op !in c.verdicts && !v.Got? && VerdictOk(Judge(c, op, v), op)
    ensures Books(Judge(c, op, v))
  {
    var d := Judge(c, op, v);
    forall i | 0 <= i < |c.received| ensures c.received[i].taker != op {}
  }

  // ------------------------------------------------------------------------ debts, change by change

  lemma DebtsWakeDelivered(c: State, pending: set<Op>)
    requires Shape(c) && Debts(c, pending)
    ensures Debts(WakeDelivered(c), pending)
  {
    WakeDeliveredFrame(c);
    var i := FirstDelivering(c.senders, c.waiters);
    if !Buffered(c) && c.held == [] && i < |c.senders| {
      var w := c.senders[i];
      RemoveMembers(c.senders, c.waiters, w);
      assert DelivererOk(c, w);
    }
  }

  /** A waiter that is not a deliverer is granted its reservation. */
  lemma DebtsTouch(c: State, d: State, w: Op, x: Waiter, pending: set<Op>)
    requires Debts(c, pending) && SameBooks(c, d) && d.senders == c.senders
    requires w in c.waiters && x.role == c.waiters[w].role && !x.role.Deliverer?
    requires d.waiters == c.waiters[w := x]
    ensures Debts(d, pending)
  {
    forall v | v in d.waiters && d.waiters[v].role.Deliverer? ensures DelivererOk(d, v) {
      assert DelivererOk(c, v);
    }
  }

  lemma WakeSenderBooks(c: State)
    ensures SameBooks(c, WakeSender(c))
  {
    var d := WakeDelivered(c);
    assert SameBooks(c, d);
    var i := FirstIdle(d.senders, d.waiters);
    if HasFreeSlot(d) && i < |d.senders| {
      assert SameBooks(d, GrantSender(d, d.senders[i]));
    }
  }

  lemma LedgerWakeSender(c: State, pending: set<Op>)
    requires Shape(c) && Books(c) && Debts(c, pending)
    ensures Books(WakeSender(c)) && Debts(WakeSender(c), pending)
  {
    WakeSenderBooks(c);
    BooksSame(c, WakeSender(c));
    DebtsWakeDelivered(c, pending);
    var d := WakeDelivered(c);
    var i := FirstIdle(d.senders, d.waiters);
    if HasFreeSlot(d) && i < |d.senders| {
      var w := d.senders[i];
      DebtsTouch(d, GrantSender(d, w), w, GrantSender(d, w).waiters[w], pending);
    }
  }

  /** A receive call takes the oldest value: the books and the debts follow. */
  lemma LedgerTake(c: State, taker: Op, pending: set<Op>)
    requires Shape(c) && Books(c) && Debts(c, pending) && c.held != []
    requires taker !in c.verdicts && taker !in c.waiters && taker !in pending
    ensures Books(Take(c, taker)) && Debts(Take(c, taker), pending)
  {
    BooksTake(c, taker);
    var d := Take(c, taker);
    OpsTail(c.held);
    assert Msgs(d.received) == Msgs(c.received) + [c.held[0]];
    OpsAppend(Msgs(c.received), c.held[0]);
    forall w | w in d.waiters && d.waiters[w].role.Deliverer? ensures DelivererOk(d, w) {
      assert DelivererOk(c, w);
      if w in c.senders && c.held == [c.waiters[w].role.msg] {
        assert d.held == [];
      }
    }
  }

  /** A waiter record is gone; a deliverer's message is what the step now settles. */
  lemma DebtsLeave(c: State, d: State, op: Op, pending: set<Op>)
    requires Debts(c, pending) && op in c.waiters
    requires d.waiters == c.waiters - {op} && d.verdicts == c.verdicts && d.accepted == c.accepted
    requires d.held == c.held && d.received == c.received
    requires forall w :: w != op ==> (w in d.senders <==> w in c.senders)
    ensures Debts(d, if c.waiters[op].role.Deliverer? then pending + {op} else pending)
  {
    forall w | w in d.waiters && d.waiters[w].role.Deliverer? ensures DelivererOk(d, w) {
      assert DelivererOk(c, w);
    }
  }

  lemma LedgerServeFuture(c: State, w: Op, pending: set<Op>)
    requires Shape(c) && Books(c) && Debts(c, pending) && w !in pending && CanWakeReceiver(c)
    requires w == c.receivers[FirstIdle(c.receivers, c.waiters)] && c.waiters[w].role.PendingFuture?
    ensures Books(ServeFuture(c, w)) && Debts(ServeFuture(c, w), pending)
  {
    UnparkShape(c, w);
    assert Remove(c.senders, w) == c.senders;
    var u := Unpark(c, w);
    BooksSame(c, u);
    DebtsLeave(c, u, w, pending);
    LedgerTake(u, w, pending);
  }

  lemma LedgerWakeReceiver(c: State, pending: set<Op>)
    requires Shape(c) && Books(c) && Debts(c, pending) && pending !! c.waiters.Keys
    ensures Books(WakeReceiver(c)) && Debts(WakeReceiver(c), pending)
  {
    if CanWakeReceiver(c) {
      var w := c.receivers[FirstIdle(c.receivers, c.waiters)];
      assert w in c.receivers;
      if c.waiters[w].role.PendingFuture? {
        ServeFutureShape(c, w);
        LedgerServeFuture(c, w, pending);
        LedgerWakeSender(ServeFuture(c, w), pending);
      } else {
        var d := GrantReceiver(c, w);
        BooksSame(c, d);
        DebtsTouch(c, d, w, d.waiters[w], pending);
      }
    }
  }

  lemma LedgerPut(c: State, msg: Msg)
    requires Shape(c) && Answered(c) && Ledger(c) && HasFreeSlot(c) && Fresh(c, msg.op)
    ensures Books(Put(c, msg)) && Debts(Put(c, msg), {msg.op})
  {
    BooksPut(c, msg);
    var d := Put(c, msg);
    OpsAppend(c.accepted, msg);
    OpsAppend(c.held, msg);
    forall w | w in d.waiters && d.waiters[w].role.Deliverer? ensures DelivererOk(d, w) {
      assert DelivererOk(c, w);
    }
  }

  /** A wakeup of one receiver completes at most one waiting future. */
  ghost predicate Settles(c: State, d: State) {
    && d.accepted == c.accepted && d.rolledBack == c.rolledBack && d.orphans == c.orphans
    && c.received <= d.received
    && c.verdicts.Keys <= d.verdicts.Keys <= c.verdicts.Keys + c.waiters.Keys
    && (forall op :: op in c.verdicts && op !in c.waiters ==> d.verdicts[op] == c.verdicts[op])
  }

  lemma WakeReceiverHistory(c: State)
    requires Queues(c)
    ensures Settles(c, WakeReceiver(c))
  {
    if CanWakeReceiver(c) {
      var w := c.receivers[FirstIdle(c.receivers, c.waiters)];
      assert w in c.receivers;
      if c.waiters[w].role.PendingFuture? {
        WakeSenderBooks(ServeFuture(c, w));
      }
    }
  }

  lemma DebtsCommit(c: State, pending: set<Op>)
    requires Debts(c, pending)
    ensures Debts(c.(committed := c.held != []), pending)
  {
    assert forall v :: v in c.waiters && c.waiters[v].role.Deliverer? ==> DelivererOk(c, v);
  }

  lemma LedgerDeposit(c: State, msg: Msg)
    requires Shape(c) && Answered(c) && Ledger(c) && HasFreeSlot(c) && Fresh(c, msg.op)
    ensures Books(Deposit(c, msg)) && Debts(Deposit(c, msg), {msg.op})
    ensures msg.op !in Deposit(c, msg).verdicts
    ensures msg.op in Ops(Deposit(c, msg).accepted) && msg.op !in Deposit(c, msg).rolledBack
  {
    DepositRecorded(c, msg);
    PutWakes(c, msg, WakeReceiver(Put(c, msg)));
    if !Buffered(c) && CanWakeReceiver(Put(c, msg)) {
      CommitBooks(WakeReceiver(Put(c, msg)), {msg.op});
    }
  }

  lemma PutWakes(c: State, msg: Msg, d: State)
    requires Shape(c) && Answered(c) && Ledger(c) && HasFreeSlot(c) && Fresh(c, msg.op)
    requires d == WakeReceiver(Put(c, msg))
    ensures Books(d) && Debts(d, {msg.op})
    ensures !Buffered(c) && CanWakeReceiver(Put(c, msg)) && d.committed ==> d.held != []
  {
    PutShape(c, msg);
    LedgerPut(c, msg);
    LedgerWakeReceiver(Put(c, msg), {msg.op});
    WakeReceiverFrame(Put(c, msg));
  }

  lemma DepositRecorded(c: State, msg: Msg)
    requires Shape(c) && Answered(c) && Ledger(c) && HasFreeSlot(c) && Fresh(c, msg.op)
    ensures msg.op !in Deposit(c, msg).verdicts
    ensures msg.op in Ops(Deposit(c, msg).accepted) && msg.op !in Deposit(c, msg).rolledBack
  {
    FreshIsNew(c, msg.op);
    PutShape(c, msg);
    DepositSettles(c, msg);
    OpsAppend(c.accepted, msg);
  }

  lemma FreshIsNew(c: State, op: Op)
    requires Ledger(c) && Fresh(c, op)
    ensures op !in Ops(c.accepted) && op !in c.rolledBack
  {
  }

  lemma DepositSettles(c: State, msg: Msg)
    requires Queues(Put(c, msg))
    ensures Settles(Put(c, msg), Deposit(c, msg))
  {
    WakeReceiverHistory(Put(c, msg));
  }

  lemma CommitBooks(d: State, pending: set<Op>)
    requires Books(d) && Debts(d, pending) && (d.committed ==> d.held != [])
    ensures var k := d.(committed := d.held != []); Books(k) && Debts(k, pending)
  {
    BooksSame(d, d.(committed := d.held != []));
    DebtsCommit(d, pending);
  }

  // ------------------------------------------------------------------------------ send and recv

  lemma LedgerJudge(c: State, op: Op, v: Verdict, pending: set<Op>)
    requires Books(c) && Debts(c, pending) && pending <= {op}
    requires op !in c.verdicts && op !in c.waiters && !v.Got? && VerdictOk(Judge(c, op, v), op)
    ensures Ledger(Judge(c, op, v))
  {
    BooksJudge(c, op, v);
    assert forall w :: w in c.waiters && c.waiters[w].role.Deliverer? ==> DelivererOk(c, w);
  }

  lemma LedgerPark(c: State, d: State, op: Op, x: Waiter, pending: set<Op>)
    requires Books(c) && Debts(c, pending) && pending <= {op} && op !in c.verdicts && op !in c.waiters
    requires SameBooks(c, d) && d.waiters == c.waiters[op := x]
    requires forall w :: w != op ==> (w in d.senders <==> w in c.senders)
    requires pending == {} || x.role.Deliverer?
    requires x.role.Deliverer? ==> op in d.senders && c.held == [x.role.msg]
    ensures Ledger(d)
  {
    BooksSame(c, d);
    forall w | w in d.waiters && d.waiters[w].role.Deliverer? ensures DelivererOk(d, w) {
      if w != op {
        assert DelivererOk(c, w);
      }
    }
  }

  lemma LedgerSend(c: State, msg: Msg, fired: bool)
    requires Shape(c) && Answered(c) && Committed(c) && Ledger(c) && Fresh(c, msg.op) && !c.closed
    requires SlackReceivers(c, 0) && SlackSenders(c, 1) && HasFreeSlot(c)
    ensures Ledger(TrySend(c, msg, true, fired))
  {
    if Unmatched(c, msg) {
      if fired {
        LedgerSendOrphan(c, msg);
      } else {
        LedgerSendParks(c, msg);
      }
    } else {
      LedgerSendMatched(c, msg);
    }
  }

  lemma LedgerSendMatched(c: State, msg: Msg)
    requires Shape(c) && Answered(c) && Committed(c) && Ledger(c) && Fresh(c, msg.op) && !c.closed
    requires SlackReceivers(c, 0) && SlackSenders(c, 1) && HasFreeSlot(c) && !Unmatched(c, msg)
    ensures Ledger(Judge(Deposit(c, msg), msg.op, Sent))
  {
    LedgerDeposit(c, msg);
    DepositSound(c, msg);
    LedgerJudge(Deposit(c, msg), msg.op, Sent, {msg.op});
  }

  lemma LedgerSendOrphan(c: State, msg: Msg)
    requires Shape(c) && Answered(c) && Committed(c) && Ledger(c) && Fresh(c, msg.op) && !c.closed
    requires SlackReceivers(c, 0) && SlackSenders(c, 1) && HasFreeSlot(c) && Unmatched(c, msg)
    ensures var d := Deposit(c, msg);
      Ledger(Judge(d.(orphans := d.orphans + {msg.op}), msg.op, SendThrew))
  {
    LedgerDeposit(c, msg);
    DepositSound(c, msg);
    LedgerOrphan(Deposit(c, msg), msg.op);
  }

  lemma LedgerSendParks(c: State, msg: Msg)
    requires Shape(c) && Answered(c) && Committed(c) && Ledger(c) && Fresh(c, msg.op) && !c.closed
    requires SlackReceivers(c, 0) && SlackSenders(c, 1) && HasFreeSlot(c) && Unmatched(c, msg)
    ensures Ledger(ParkSender(Deposit(c, msg), msg.op, Deliverer(msg)))
  {
    LedgerDeposit(c, msg);
    DepositSound(c, msg);
    LedgerParks(Deposit(c, msg), msg);
  }

  lemma LedgerParks(d: State, msg: Msg)
    requires Books(d) && Debts(d, {msg.op}) && msg.op !in d.verdicts && msg.op !in d.waiters && d.held == [msg]
    ensures Ledger(ParkSender(d, msg.op, Deliverer(msg)))
  {
    var k := ParkSender(d, msg.op, Deliverer(msg));
    LedgerPark(d, k, msg.op, k.waiters[msg.op], {msg.op});
  }

  lemma LedgerNoSend(c: State, msg: Msg, fired: bool)
    requires Ledger(c) && Fresh(c, msg.op) && (c.closed || !HasFreeSlot(c))
    ensures Ledger(TrySend(c, msg, false, fired))
  {
    assert msg.op !in Ops(c.accepted);
    if c.closed || fired {
      OpsHeld(c);
      LedgerJudge(c, msg.op, SendThrew, {});
    } else {
      var k := ParkSender(c, msg.op, SpaceSender(msg));
      LedgerPark(c, k, msg.op, k.waiters[msg.op], {});
    }
  }

  lemma LedgerTrySend(c: State, msg: Msg, hasReservation: bool, fired: bool)
    requires Shape(c) && Answered(c) && Committed(c) && Ledger(c) && Fresh(c, msg.op)
    requires SlackReceivers(c, 0) && SlackSenders(c, if hasReservation then 1 else 0)
    requires hasReservation ==> HasFreeSlot(c)
    ensures Ledger(TrySend(c, msg, hasReservation, fired))
  {
    if !c.closed && HasFreeSlot(c) {
      LedgerSend(c, msg, fired);
    } else {
      LedgerNoSend(c, msg, fired);
    }
  }

  lemma LedgerOrphan(c: State, op: Op)
    requires Books(c) && Debts(c, {op}) && op !in c.verdicts && op !in c.waiters
    ensures Ledger(Judge(c.(orphans := c.orphans + {op}), op, SendThrew))
  {
    assert forall w :: w in c.waiters && c.waiters[w].role.Deliverer? ==> DelivererOk(c, w);
    forall i | 0 <= i < |c.received| ensures c.received[i].taker != op {}
  }

  /** What is held or was received was accepted and not taken back. */
  lemma OpsHeld(c: State)
    requires Books(c)
    ensures Ops(c.held) <= Ops(c.accepted) && Ops(Msgs(c.received)) <= Ops(c.accepted)
    ensures Ops(c.held) !! c.rolledBack && Ops(Msgs(c.received)) !! c.rolledBack
  {
    SurvivingMembers(c.accepted, c.rolledBack);
    var all := Msgs(c.received) + c.held;
    assert forall m :: m in all <==> m in Msgs(c.received) || m in c.held;
  }

  lemma LedgerSendAsync(c: State, msg: Msg)
    requires Sound(c) && Ledger(c) && Fresh(c, msg.op)
    ensures Ledger(SendAsync(c, msg))
  {
    if c.closed || !HasFreeSlot(c) {
      LedgerJudge(c, msg.op, RefusedAsync, {});
    } else {
      LedgerDeposit(c, msg);
      DepositSound(c, msg);
      LedgerJudge(Deposit(c, msg), msg.op, SentAsync, {msg.op});
    }
  }

  lemma LedgerTakeStep(c: State, op: Op)
    requires Shape(c) && Ledger(c) && HasFreeValue(c) && Fresh(c, op)
    ensures Ledger(WakeSender(Take(c, op)))
  {
    LedgerTake(c, op, {});
    TakeShape(c, op);
    LedgerWakeSender(Take(c, op), {});
  }

  lemma LedgerTryRecv(c: State, op: Op, hasReservation: bool, fired: bool)
    requires Shape(c) && Ledger(c) && Fresh(c, op)
    requires hasReservation ==> HasFreeValue(c)
    ensures Ledger(TryRecv(c, op, hasReservation, fired))
  {
    if HasFreeValue(c) {
      LedgerTakeStep(c, op);
    } else if c.closed || fired {
      LedgerJudge(c, op, RecvThrew, {});
    } else {
      var k := ParkReceiver(c, op, Receiver);
      LedgerPark(c, k, op, k.waiters[op], {});
    }
  }

  lemma LedgerRecvAsync(c: State, op: Op)
    requires Shape(c) && Ledger(c) && Fresh(c, op)
    ensures Ledger(RecvAsync(c, op))
  {
    if HasFreeValue(c) {
      LedgerTakeStep(c, op);
    } else if c.closed {
      LedgerJudge(c, op, RecvThrew, {});
    } else {
      var k := ParkReceiver(c, op, PendingFuture);
      LedgerPark(c, k, op, k.waiters[op], {});
    }
  }

  // ------------------------------------------------------------------------- return from a wait

  lemma ReleaseFrame(u: State, x: Waiter)
    ensures var r := Release(u, x);
      SameBooks(u, r) && r.waiters == u.waiters && r.senders == u.senders
  {
  }

  lemma UnparkFrame(c: State, op: Op)
    requires Queues(c) && op in c.waiters
    ensures var r := Release(Unpark(c, op), c.waiters[op]);
      && SameBooks(c, r) && r.waiters == c.waiters - {op}
      && forall w :: w in r.senders <==> w in c.senders && w != op
  {
    ReleaseFrame(Unpark(c, op), c.waiters[op]);
    RemoveMembers(c.senders, c.waiters, op);
  }

  lemma LedgerUnpark(c: State, op: Op)
    requires Queues(c) && Ledger(c) && op in c.waiters
    ensures var r := Release(Unpark(c, op), c.waiters[op]);
      Books(r) && Debts(r, if c.waiters[op].role.Deliverer? then {op} else {}) && SameBooks(c, r)
  {
    UnparkFrame(c, op);
    var r := Release(Unpark(c, op), c.waiters[op]);
    BooksSame(c, r);
    DebtsLeave(c, r, op, {});
  }

  /** The wait of a receiver returns. */
  lemma LedgerReceiverReturns(c: State, op: Op)
    requires Sound(c) && Ledger(c) && op in c.waiters && c.waiters[op].role.Receiver?
    ensures Ledger(WaitReturn(c, op)) && op !in WaitReturn(c, op).verdicts
  {
    var r := Release(Unpark(c, op), c.waiters[op]);
    UnparkShape(c, op);
    UnparkFrame(c, op);
    LedgerUnpark(c, op);
    if WaitReturn(c, op) != r {
      WakeReceiverHistory(r);
      LedgerWakeReceiver(r, {});
    }
  }

  /** The wait of a sender waiting for space returns. */
  lemma LedgerSpaceSenderReturns(c: State, op: Op)
    requires Sound(c) && Ledger(c) && op in c.waiters && c.waiters[op].role.SpaceSender?
    ensures Ledger(WaitReturn(c, op)) && op !in WaitReturn(c, op).verdicts
  {
    var r := Release(Unpark(c, op), c.waiters[op]);
    UnparkShape(c, op);
    UnparkFrame(c, op);
    LedgerUnpark(c, op);
    if WaitReturn(c, op) != r {
      LedgerWakeSender(r, {});
      WakeSenderBooks(r);
    }
  }

  lemma LedgerRollBack(c: State, op: Op)
    requires Shape(c) && Books(c) && Debts(c, {op}) && op !in c.waiters
    requires !Buffered(c) && !c.committed && c.held != [] && c.held[0].op == op
    ensures Books(RollBack(c)) && Debts(RollBack(c), {op})
  {
    BooksRollBack(c);
    var d := RollBack(c);
    forall w | w in d.waiters && d.waiters[w].role.Deliverer? ensures DelivererOk(d, w) {
      assert DelivererOk(c, w);
      assert c.waiters[w].role.msg.op == w;
    }
  }

  /** A deliverer hears: it was taken, and stays taken; or it throws, and is not held. */
  ghost predicate Heard(r: State, op: Op, wake: Wake) {
    && Books(r) && Debts(r, {op}) && op !in r.verdicts && op !in Ops(r.held)
    && (wake.Resumed? ==> op in Ops(r.accepted) && op !in r.rolledBack)
  }

  lemma LedgerCancelledDeliverer(c: State, op: Op)
    requires Sound(c) && Ledger(c) && Delivering(c.waiters, op) && op in c.senders
    requires c.waiters[op].wake.Failed?
    ensures Heard(WaitReturn(c, op), op, Failed)
  {
    var u := Unpark(c, op);
    assert Release(u, c.waiters[op]) == u;
    UnparkShape(c, op);
    UnparkFrame(c, op);
    LedgerUnpark(c, op);
    assert c.held == [c.waiters[op].role.msg];
    LedgerRollBack(u, op);
    RollBackShape(u);
    LedgerWakeSender(RollBack(u), {op});
    WakeSenderBooks(RollBack(u));
  }

  lemma LedgerDelivererReturns(c: State, op: Op)
    requires Sound(c) && Ledger(c) && Delivering(c.waiters, op) && !c.waiters[op].wake.Parked?
    ensures Heard(WaitReturn(c, op), op, c.waiters[op].wake)
  {
    if op in c.senders {
      LedgerCancelledDeliverer(c, op);
    } else {
      var u := Unpark(c, op);
      assert Release(u, c.waiters[op]) == u;
      UnparkFrame(c, op);
      LedgerUnpark(c, op);
      assert DelivererOk(c, op);
      OpsHeld(c);
    }
  }

  /** From the return of the wait to the verdict or the next wait. */
  lemma LedgerReceiverGoesOn(r: State, op: Op, x: Waiter, fired: bool)
    requires Returned(r, op, x) && Ledger(r) && op !in r.verdicts && x.role.Receiver?
    requires x.wake.Resumed? ==> x.reserved
    ensures x.wake.Failed? ==> Ledger(Judge(r, op, RecvThrew))
    ensures x.wake.Resumed? ==> Ledger(TryRecv(r, op, x.reserved, fired))
  {
    if x.wake.Failed? {
      LedgerJudge(r, op, RecvThrew, {});
    } else if x.wake.Resumed? {
      LedgerTryRecv(r, op, x.reserved, fired);
    }
  }

  lemma LedgerSenderGoesOn(r: State, op: Op, x: Waiter, fired: bool)
    requires Returned(r, op, x) && Ledger(r) && op !in r.verdicts
    requires x.role.SpaceSender? && x.role.msg.op == op && (x.wake.Resumed? ==> x.reserved)
    ensures x.wake.Failed? ==> Ledger(Judge(r, op, SendThrew))
    ensures x.wake.Resumed? ==> Ledger(TrySend(r, x.role.msg, x.reserved, fired))
  {
    if x.wake.Failed? {
      OpsHeld(r);
      LedgerJudge(r, op, SendThrew, {});
    } else if x.wake.Resumed? {
      LedgerTrySend(r, x.role.msg, x.reserved, fired);
    }
  }

  lemma LedgerResume(c: State, op: Op, fired: bool)
    requires Sound(c) && Ledger(c) && Enabled(c, DoResume(op, fired))
    ensures Ledger(Resume(c, op, fired))
  {
    var x := c.waiters[op];
    var r := WaitReturn(c, op);
    match x.role {
      case Receiver =>
        ReceiverReturns(c, op);
        LedgerReceiverReturns(c, op);
        LedgerReceiverGoesOn(r, op, x, fired);
      case SpaceSender(msg) =>
        SpaceSenderReturns(c, op);
        LedgerSpaceSenderReturns(c, op);
        LedgerSenderGoesOn(r, op, x, fired);
      case Deliverer(_) =>
        DelivererReturns(c, op);
        LedgerDelivererReturns(c, op);
        LedgerJudge(r, op, if x.wake.Failed? then SendThrew else Sent, {op});
      case PendingFuture =>
    }
  }

  // --------------------------------------------------------------- cancellation, drop, close

  lemma LedgerCancel(c: State, op: Op)
    requires Ledger(c) && op in c.waiters
    ensures Ledger(Cancel(c, op))
  {
    var d := Cancel(c, op);
    BooksSame(c, d);
    forall w | w in d.waiters && d.waiters[w].role.Deliverer? ensures DelivererOk(d, w) {
      assert DelivererOk(c, w);
    }
  }

  lemma LedgerDrop(c: State, op: Op)
    requires Queues(c) && Ledger(c) && op in c.waiters && c.waiters[op].role.PendingFuture?
    ensures Ledger(DropFuture(c, op))
  {
    var d := c.(receivers := Remove(c.receivers, op), waiters := c.waiters - {op});
    BooksSame(c, d);
    DebtsLeave(c, d, op, {});
    LedgerJudge(d, op, Dropped, {});
  }

  /** The books when close() has rejected its futures, before its rollback. */
  lemma BooksReject(c: State, d: State, rejected: set<Op>)
    requires Books(c) && Debts(c, {}) && rejected <= c.waiters.Keys
    requires forall w :: w in rejected ==> !c.waiters[w].role.Deliverer?
    requires SameBooks(c, d.(verdicts := c.verdicts))
    requires d.verdicts == c.verdicts + (map w | w in rejected :: RecvThrew)
    ensures Books(d)
  {
    forall op | op in d.verdicts ensures VerdictOk(d, op) {
      if op !in rejected {
        assert VerdictOk(c, op);
      }
    }
    assert Receipts(d) by {
      forall i | 0 <= i < |c.received| ensures c.received[i].taker !in rejected {}
    }
  }

  lemma DebtsClose(c: State)
    requires Sound(c) && Ledger(c) && !c.closed
    ensures Debts(Close(c), {})
  {
    var d := Close(c);
    CloseKeeps(c);
    forall w | w in d.waiters && d.waiters[w].role.Deliverer? ensures DelivererOk(d, w) {
      CloseDeliverer(c, w);
    }
    CloseAnswers(c);
  }

  lemma CloseDeliverer(c: State, w: Op)
    requires Sound(c) && !c.closed && w in c.waiters && c.waiters[w].role.Deliverer? && DelivererOk(c, w)
    ensures w in Close(c).waiters ==> Close(c).waiters[w].role.Deliverer? && DelivererOk(Close(c), w)
  {
    var d := Close(c);
    assert d.held == [] || d.held == c.held;
    if w in c.senders {
      assert c.held == [c.waiters[w].role.msg] && d.held == [];
    }
  }

  lemma CloseAnswers(c: State)
    requires Queues(c) && Debts(c, {}) && !c.closed
    ensures var d := Close(c);
      && d.waiters.Keys !! d.verdicts.Keys
      && (forall op :: op in Ops(d.accepted) ==> op in d.verdicts || Delivering(d.waiters, op))
  {
  }

  lemma LedgerClose(c: State)
    requires Sound(c) && Ledger(c)
    ensures Ledger(Close(c))
  {
    if !c.closed {
      CloseBooks(c);
      DebtsClose(c);
    }
  }

  lemma CloseBooks(c: State)
    requires Sound(c) && Ledger(c) && !c.closed
    ensures Books(Close(c))
  {
    var rejected := set w | w in c.waiters && RejectedByClose(c, w);
    var d := c.(verdicts := c.verdicts + (map w | w in rejected :: RecvThrew));
    BooksReject(c, d, rejected);
    BooksRollBack(d);
    BooksSame(RollBack(d), Close(c));
  }

  lemma StepLedger(c: State, s: Step)
    requires Sound(c) && Ledger(c) && Enabled(c, s)
    ensures Ledger(Apply(c, s))
  {
    match s {
      case DoSend(msg) => LedgerTrySend(c, msg, false, false);
      case DoSendAsync(msg) => LedgerSendAsync(c, msg);
      case DoRecv(op) => LedgerTryRecv(c, op, false, false);
      case DoRecvAsync(op) => LedgerRecvAsync(c, op);
      case DoDrop(op) => LedgerDrop(c, op);
      case DoCancel(op) => LedgerCancel(c, op);
      case DoResume(op, fired) => LedgerResume(c, op, fired);
      case DoClose => LedgerClose(c);
    }
  }
}
