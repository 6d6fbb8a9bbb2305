/**
 What holds of every run of a channel, whatever the order of sends, receives, resumes,
 cancellations, dropped futures and close.
 */
module ChannelRuns {
  import opened ChannelModel
  import opened ChannelShape
  import opened ChannelSteps
  import opened ChannelLedger

  ghost predicate Inv(c: State) { Sound(c) && Ledger(c) }

  /** What happened stays: nothing is taken out of the logs, and no verdict changes. */
  ghost predicate Grows(c: State, d: State) {
    && d.capacity == c.capacity && (c.closed ==> d.closed)
    && c.accepted <= d.accepted && c.received <= d.received
    && c.rolledBack <= d.rolledBack && c.orphans <= d.orphans
    && (forall op :: op in c.verdicts ==> op in d.verdicts && d.verdicts[op] == c.verdicts[op])
    && (forall k :: |c.accepted| <= k < |d.accepted| ==> d.accepted[k].op !in c.verdicts)
  }

  ghost predicate IsChannelRun(run: seq<State>) {
    IsRun(run) && run[0] == Init(run[0].capacity)
  }

  // --------------------------------------------------------------------------- every step grows

  lemma WakeReceiverGrows(c: State)
    requires Shape(c) && c.waiters.Keys !! c.verdicts.Keys
    ensures Grows(c, WakeReceiver(c))
  {
    WakeReceiverHistory(c);
    WakeReceiverFrame(c);
  }

  lemma DepositGrows(c: State, msg: Msg)
    requires Shape(c) && Answered(c) && HasFreeSlot(c) && c.waiters.Keys !! c.verdicts.Keys
    requires msg.op !in c.verdicts
    ensures Grows(c, Deposit(c, msg))
  {
    PutShape(c, msg);
    WakeReceiverGrows(Put(c, msg));
  }

  lemma TrySendGrows(c: State, msg: Msg, hasReservation: bool, fired: bool)
    requires Shape(c) && Answered(c) && Ledger(c) && Fresh(c, msg.op)
    requires hasReservation ==> HasFreeSlot(c)
    ensures Grows(c, TrySend(c, msg, hasReservation, fired))
  {
    if !c.closed && HasFreeSlot(c) {
      DepositGrows(c, msg);
      LedgerDeposit(c, msg);
    }
  }

  lemma TakeGrows(c: State, op: Op)
    requires Fresh(c, op) && c.held != []
    ensures Grows(c, WakeSender(Take(c, op)))
  {
    WakeSenderBooks(Take(c, op));
  }

  lemma WakeSenderGrows(c: State)
    requires Queues(c)
    ensures Grows(c, WakeSender(c))
  {
    WakeSenderBooks(c);
    WakeSenderFrame(c);
  }

  lemma UnparkGrows(c: State, op: Op)
    requires Inv(c) && op in c.waiters
    ensures var r := Release(Unpark(c, op), c.waiters[op]);
      Grows(c, r) && Shape(r) && r.waiters.Keys !! r.verdicts.Keys
  {
    UnparkShape(c, op);
    UnparkFrame(c, op);
  }

  lemma GrowsTrans(a: State, b: State, c: State)
    requires Grows(a, b) && Grows(b, c)
    ensures Grows(a, c)
  {
  }

  lemma RollBackGrows(c: State)
    requires Queues(c)
    ensures Grows(c, WakeSender(RollBack(c))) && Grows(c, RollBack(c))
  {
    WakeSenderGrows(RollBack(c));
  }

  lemma DelivererUnreserved(c: State, op: Op)
    requires Inv(c) && Delivering(c.waiters, op)
    ensures var u, d := Unpark(c, op), WaitReturn(c, op);
      && Release(u, c.waiters[op]) == u
      && (d == u || d == RollBack(u) || d == WakeSender(u) || d == WakeSender(RollBack(u)))
  {
    var u := Unpark(c, op);
    assert Release(u, c.waiters[op]) == u && Release(RollBack(u), c.waiters[op]) == RollBack(u);
  }

  lemma DelivererReturnGrows(c: State, op: Op)
    requires Inv(c) && Delivering(c.waiters, op)
    ensures Grows(c, WaitReturn(c, op))
  {
    var u := Unpark(c, op);
    DelivererUnreserved(c, op);
    UnparkGrows(c, op);
    RollBackGrows(u);
    WakeSenderGrows(u);
    var d := WaitReturn(c, op);
    if d != u {
      GrowsTrans(c, u, d);
    }
  }

  lemma WaitReturnGrows(c: State, op: Op)
    requires Inv(c) && op in c.waiters
    ensures Grows(c, WaitReturn(c, op))
  {
    if c.waiters[op].role.Deliverer? {
      DelivererReturnGrows(c, op);
    } else {
      var r := Release(Unpark(c, op), c.waiters[op]);
      UnparkGrows(c, op);
      WakeReceiverGrows(r);
      WakeSenderGrows(r);
    }
  }

  lemma JudgeGrows(c: State, op: Op, v: Verdict)
    requires op !in c.verdicts
    ensures Grows(c, Judge(c, op, v))
  {
  }

  lemma ResumeGrows(c: State, op: Op, fired: bool)
    requires Inv(c) && Enabled(c, DoResume(op, fired))
    ensures Grows(c, Resume(c, op, fired))
  {
    WaitReturnGrows(c, op);
    var x := c.waiters[op];
    var r := WaitReturn(c, op);
    var d := Resume(c, op, fired);
    assert LifeOk(x, Queued(c, op), c.closed);
    match x.role {
      case Receiver =>
        ReceiverReturns(c, op);
        LedgerReceiverReturns(c, op);
        if x.wake.Resumed? {
          TakeGrows(r, op);
        } else {
          JudgeGrows(r, op, RecvThrew);
        }
      case SpaceSender(msg) =>
        SpaceSenderReturns(c, op);
        LedgerSpaceSenderReturns(c, op);
        if x.wake.Resumed? {
          TrySendGrows(r, msg, x.reserved, fired);
        } else {
          JudgeGrows(r, op, SendThrew);
        }
      case Deliverer(_) =>
        LedgerDelivererReturns(c, op);
        JudgeGrows(r, op, if x.wake.Failed? then SendThrew else Sent);
      case PendingFuture =>
    }
    GrowsTrans(c, r, d);
  }

  lemma SendAsyncGrows(c: State, msg: Msg)
    requires Inv(c) && Fresh(c, msg.op)
    ensures Grows(c, SendAsync(c, msg))
  {
    if !c.closed && HasFreeSlot(c) {
      DepositGrows(c, msg);
      LedgerDeposit(c, msg);
    }
  }

  lemma RecvGrows(c: State, op: Op)
    requires Inv(c) && Fresh(c, op)
    ensures Grows(c, TryRecv(c, op, false, false)) && Grows(c, RecvAsync(c, op))
  {
    if HasFreeValue(c) {
      TakeGrows(c, op);
    }
  }

  lemma CloseGrows(c: State)
    requires Inv(c)
    ensures Grows(c, Close(c))
  {
  }

  lemma InitInv(capacity: nat)
    ensures Inv(Init(capacity))
  {
    InitSound(capacity);
  }

  lemma StepGrows(c: State, s: Step)
    requires Inv(c) && Enabled(c, s)
    ensures Grows(c, Apply(c, s))
  {
    match s {
      case DoSend(msg) => TrySendGrows(c, msg, false, false);
      case DoSendAsync(msg) => SendAsyncGrows(c, msg);
      case DoRecv(op) => RecvGrows(c, op);
      case DoRecvAsync(op) => RecvGrows(c, op);
      case DoDrop(op) =>
      case DoCancel(op) =>
      case DoResume(op, fired) => ResumeGrows(c, op, fired);
      case DoClose => CloseGrows(c);
    }
  }

  // ---------------------------------------------------------------------------------- runs

  /** The invariant of every reachable state. */
  lemma {:induction false} RunInvariant(run: seq<State>, i: nat)
    requires IsChannelRun(run) && i < |run|
    ensures Inv(run[i])
  {
    if i == 0 {
      InitInv(run[0].capacity);
    } else {
      RunInvariant(run, i - 1);
      assert Follows(run[i - 1], run[i]);
      var s :| Enabled(run[i - 1], s) && run[i] == Apply(run[i - 1], s);
      StepSound(run[i - 1], s);
      StepLedger(run[i - 1], s);
    }
  }

  lemma RunStepGrows(run: seq<State>, j: nat)
    requires IsChannelRun(run) && 0 < j < |run|
    ensures Grows(run[j - 1], run[j])
  {
    RunInvariant(run, j - 1);
    assert Follows(run[j - 1], run[j]);
    var s :| Enabled(run[j - 1], s) && run[j] == Apply(run[j - 1], s);
    StepGrows(run[j - 1], s);
  }

  lemma {:induction false} ChainGrows(run: seq<State>, i: nat, j: nat)
    requires i <= j < |run|
    requires forall k :: 0 < k < |run| ==> Grows(run[k - 1], run[k])
    ensures Grows(run[i], run[j])
    decreases j - i
  {
    if i < j {
      ChainGrows(run, i, j - 1);
      GrowsTrans(run[i], run[j - 1], run[j]);
    }
  }

  lemma RunGrows(run: seq<State>, i: nat, j: nat)
    requires IsChannelRun(run) && i <= j < |run|
    ensures Grows(run[i], run[j])
  {
    forall k | 0 < k < |run| ensures Grows(run[k - 1], run[k]) {
      RunStepGrows(run, k);
    }
    ChainGrows(run, i, j);
  }

  ghost predicate Reachable(c: State) {
    exists run :: IsChannelRun(run) && run[|run| - 1] == c
  }

  lemma InitReachable(capacity: nat)
    ensures Reachable(Init(capacity))
  {
    var run := [Init(capacity)];
    assert IsChannelRun(run);
  }

  lemma StepReachable(c: State, s: Step)
    requires Reachable(c) && Enabled(c, s)
    ensures Reachable(Apply(c, s))
  {
    var run :| IsChannelRun(run) && run[|run| - 1] == c;
    var d := Apply(c, s);
    assert Follows(c, d);
    var longer := run + [d];
    forall i | 0 < i < |longer| ensures Follows(longer[i - 1], longer[i]) {
      if i < |run| {
        assert Follows(run[i - 1], run[i]);
      }
    }
    assert IsChannelRun(longer);
  }
}
