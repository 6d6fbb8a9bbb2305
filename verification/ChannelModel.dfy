/**
 The CSP channel of channel.c as a transition system. A state is one channel between
 two scheduler steps: its values, its two waiter queues, its reservation counters, and
 the waiter records of every parked coroutine and pending future. Each public operation
 (and each return from a wait) is one atomic step, because nothing suspends inside it.

 `accepted`, `received`, `rolledBack`, `orphans` and `verdicts` are history: the source
 keeps none of them, and no step reads them.
 */
module ChannelModel {

  /** One call of send(), sendAsync(), recv() or recvAsync(). */
  type Op = nat

  type Payload(==, !new)

  /** A payload together with the send call that brought it. */
  datatype Msg = Msg(op: Op, payload: Payload)

  /** A message together with the receive call that took it. */
  datatype Receipt = Receipt(taker: Op, msg: Msg)

  /** What the scheduler has in store for a waiter: nothing yet, a plain resume, or a
      resume with an exception. */
  datatype Wake = Parked | Resumed | Failed

  datatype Role =
    | Receiver
    | PendingFuture
    | SpaceSender(msg: Msg)
    | Deliverer(msg: Msg)

  /** `subscribed` is the registration on the channel's own event, which close() notifies.
      `ticket` is the arrival number of the waiter. */
  datatype Waiter = Waiter(role: Role, reserved: bool, wake: Wake, subscribed: bool, ticket: nat)

  datatype Verdict =
    | Sent               // send() returned
    | SendThrew          // send() threw
    | SentAsync          // sendAsync() returned true
    | RefusedAsync       // sendAsync() returned false
    | Got(msg: Msg)      // recv() returned, or a future completed
    | RecvThrew          // recv() threw, or a future was rejected
    | Dropped            // a pending future was disposed of by its owner

  datatype State = State(
    capacity: nat,
    held: seq<Msg>,            // the buffer, or the rendezvous slot
    committed: bool,
    closed: bool,
    receivers: seq<Op>,
    senders: seq<Op>,
    waiters: map<Op, Waiter>,
    reservedReceivers: int,
    reservedSenders: int,
    arrivals: nat,
    fault: bool,               // a ZEND_ASSERT of the source has failed
    accepted: seq<Msg>,
    received: seq<Receipt>,
    rolledBack: set<Op>,
    orphans: set<Op>,
    verdicts: map<Op, Verdict>)

  function Init(capacity: nat): State {
    State(capacity, [], false, false, [], [], map[], 0, 0, 0, false, [], [], {}, {}, map[])
  }

  predicate Buffered(c: State) { c.capacity > 0 }

  function Room(c: State): int { (if Buffered(c) then c.capacity else 1) - |c.held| }

  predicate HasFreeValue(c: State) { |c.held| > c.reservedReceivers }

  predicate HasFreeSlot(c: State) { Room(c) > c.reservedSenders }

  predicate Fresh(c: State, op: Op) { op !in c.waiters && op !in c.verdicts }

  predicate Receives(role: Role) { role.Receiver? || role.PendingFuture? }

  // ---------------------------------------------------------------- queue operations

  function IndexOf(q: seq<Op>, w: Op): (i: nat)
    ensures i <= |q|
    ensures i < |q| ==> q[i] == w
    ensures w !in q[..i]
    ensures i < |q| <==> w in q
  {
    if q == [] || q[0] == w then 0 else 1 + IndexOf(q[1..], w)
  }

  function RemoveAt(q: seq<Op>, i: nat): seq<Op> {
    if i < |q| then q[..i] + q[i + 1..] else q
  }

  function Remove(q: seq<Op>, w: Op): seq<Op> { RemoveAt(q, IndexOf(q, w)) }

  /** A waiter with nothing promised to it that is not parked for an answer. */
  predicate Idle(ws: map<Op, Waiter>, w: Op) {
    w in ws && !ws[w].reserved && !ws[w].role.Deliverer?
  }

  predicate Delivering(ws: map<Op, Waiter>, w: Op) { w in ws && ws[w].role.Deliverer? }

  /** Position of the oldest idle waiter, |q| when there is none. */
  function FirstIdle(q: seq<Op>, ws: map<Op, Waiter>): (i: nat)
    ensures i <= |q|
    ensures i < |q| ==> Idle(ws, q[i])
    ensures forall j :: 0 <= j < i ==> !Idle(ws, q[j])
  {
    if q == [] || Idle(ws, q[0]) then 0 else 1 + FirstIdle(q[1..], ws)
  }

  function FirstDelivering(q: seq<Op>, ws: map<Op, Waiter>): (i: nat)
    ensures i <= |q|
    ensures i < |q| ==> Delivering(ws, q[i])
    ensures forall j :: 0 <= j < i ==> !Delivering(ws, q[j])
  {
    if q == [] || Delivering(ws, q[0]) then 0 else 1 + FirstDelivering(q[1..], ws)
  }

  // ----------------------------------------------------------------- small state changes

  /** A plain wakeup: an exception already pending stays. */
  function Woken(x: Waiter): Waiter {
    x.(wake := if x.wake.Failed? then Failed else Resumed, subscribed := false)
  }

  function Judge(c: State, op: Op, v: Verdict): State { c.(verdicts := c.verdicts[op := v]) }

  function Put(c: State, msg: Msg): State {
    c.(held := c.held + [msg], accepted := c.accepted + [msg],
       committed := if Buffered(c) then c.committed else false)
  }

  function Take(c: State, taker: Op): State {
    if c.held == [] then c.(fault := true) else
      c.(held := c.held[1..],
         received := c.received + [Receipt(taker, c.held[0])],
         verdicts := c.verdicts[taker := Got(c.held[0])],
         committed := if Buffered(c) then c.committed else false)
  }

  /** Drops the rendezvous value, unless its delivery was already reported. */
  function RollBack(c: State): State {
    if !Buffered(c) && c.held != [] && !c.committed then
      c.(held := [], rolledBack := c.rolledBack + {c.held[0].op})
    else c
  }

  function ParkReceiver(c: State, op: Op, role: Role): State {
    c.(receivers := c.receivers + [op], arrivals := c.arrivals + 1,
       waiters := c.waiters[op := Waiter(role, false, Parked, role.Receiver?, c.arrivals)])
  }

  function ParkSender(c: State, op: Op, role: Role): State {
    c.(senders := c.senders + [op], arrivals := c.arrivals + 1,
       waiters := c.waiters[op := Waiter(role, false, Parked, true, c.arrivals)])
  }

  function GrantReceiver(c: State, w: Op): State
    requires w in c.waiters
  {
    c.(waiters := c.waiters[w := Woken(c.waiters[w]).(reserved := true)],
       reservedReceivers := c.reservedReceivers + 1)
  }

  function GrantSender(c: State, w: Op): State
    requires w in c.waiters
  {
    c.(waiters := c.waiters[w := Woken(c.waiters[w]).(reserved := true)],
       reservedSenders := c.reservedSenders + 1)
  }

  // ----------------------------------------------------------------------- wake operations

  function WakeDelivered(c: State): State {
    var i := FirstDelivering(c.senders, c.waiters);
    if Buffered(c) || c.held != [] || i == |c.senders| then c
    else
      var w := c.senders[i];
      c.(senders := Remove(c.senders, w), waiters := c.waiters[w := Woken(c.waiters[w])])
  }

  function WakeSender(c: State): State {
    var d := WakeDelivered(c);
    var i := FirstIdle(d.senders, d.waiters);
    if !HasFreeSlot(d) || i == |d.senders| then d else GrantSender(d, d.senders[i])
  }

  predicate CanWakeReceiver(c: State) {
    HasFreeValue(c) && FirstIdle(c.receivers, c.waiters) < |c.receivers|
  }

  /** A pending future takes the value out of the channel at once. */
  function ServeFuture(c: State, w: Op): State {
    Take(c.(receivers := Remove(c.receivers, w), waiters := c.waiters - {w}), w)
  }

  function WakeReceiver(c: State): State {
    if !CanWakeReceiver(c) then c
    else
      var w := c.receivers[FirstIdle(c.receivers, c.waiters)];
      if c.waiters[w].role.PendingFuture? then WakeSender(ServeFuture(c, w))
      else GrantReceiver(c, w)
  }

  // --------------------------------------------------------------------------------- send

  /** The deposit branch of send() and sendAsync(): the rendezvous is committed when a
      receiver was matched and the value is still in the slot. */
  function Deposit(c: State, msg: Msg): State {
    var p := Put(c, msg);
    var woke := WakeReceiver(p);
    if Buffered(c) || !CanWakeReceiver(p) then woke else woke.(committed := woke.held != [])
  }

  /** True when the deposit leaves a rendezvous value that no receiver was matched with. */
  predicate Unmatched(c: State, msg: Msg) { !Buffered(c) && !CanWakeReceiver(Put(c, msg)) }

  /** The body of send() from its retry label to its next suspension or return. `fired` is
      the answer of the token check at the start of a wait. */
  function TrySend(c: State, msg: Msg, hasReservation: bool, fired: bool): State {
    if c.closed then Judge(c, msg.op, SendThrew)
    else if hasReservation || HasFreeSlot(c) then
      var c' := if !Buffered(c) && c.held != [] then c.(fault := true) else c;
      var d := Deposit(c', msg);
      if !Unmatched(c', msg) then Judge(d, msg.op, Sent)
      else if fired then Judge(d.(orphans := d.orphans + {msg.op}), msg.op, SendThrew)
      else ParkSender(d, msg.op, Deliverer(msg))
    else if fired then Judge(c, msg.op, SendThrew)
    else ParkSender(c, msg.op, SpaceSender(msg))
  }

  function SendAsync(c: State, msg: Msg): State {
    if c.closed || !HasFreeSlot(c) then Judge(c, msg.op, RefusedAsync)
    else Judge(Deposit(c, msg), msg.op, SentAsync)
  }

  // --------------------------------------------------------------------------------- recv

  function TryRecv(c: State, op: Op, hasReservation: bool, fired: bool): State {
    if hasReservation || HasFreeValue(c) then WakeSender(Take(c, op))
    else if c.closed || fired then Judge(c, op, RecvThrew)
    else ParkReceiver(c, op, Receiver)
  }

  function RecvAsync(c: State, op: Op): State {
    if HasFreeValue(c) then WakeSender(Take(c, op))
    else if c.closed then Judge(c, op, RecvThrew)
    else ParkReceiver(c, op, PendingFuture)
  }

  // ------------------------------------------------------------------- return from a wait

  /** The waiter leaves its queue and its record is freed. */
  function Unpark(c: State, op: Op): State {
    c.(receivers := Remove(c.receivers, op), senders := Remove(c.senders, op),
       waiters := c.waiters - {op})
  }

  function Release(c: State, x: Waiter): State {
    if !x.reserved then c
    else if Receives(x.role) then
      c.(reservedReceivers := c.reservedReceivers - 1, fault := c.fault || c.reservedReceivers <= 0)
    else
      c.(reservedSenders := c.reservedSenders - 1, fault := c.fault || c.reservedSenders <= 0)
  }

  /** channel_wait_for() after its suspension: clean up, take back a value nobody took, and
      give the reservation back; ... */
  function CleanUp(c: State, op: Op): State
    requires op in c.waiters
  {
    var x, u := c.waiters[op], Unpark(c, op);
    Release(if x.role.Deliverer? && x.wake.Failed? && Queued(c, op) then RollBack(u) else u, x)
  }

  /** ... then pass on what the caller will not spend. */
  function HandOn(r: State, x: Waiter, wasQueued: bool): State {
    if ((x.role.Deliverer? && wasQueued) || (x.reserved && x.wake.Failed?)) && !r.closed then
      if Receives(x.role) then WakeReceiver(r) else WakeSender(r)
    else r
  }

  predicate Queued(c: State, w: Op) { w in c.receivers || w in c.senders }

  function WaitReturn(c: State, op: Op): State
    requires op in c.waiters
  {
    HandOn(CleanUp(c, op), c.waiters[op], Queued(c, op))
  }

  /** The operation behind a wait goes on: it throws, returns or retries. */
  function GoOn(r: State, op: Op, x: Waiter, fired: bool): State {
    match x.role
    case Deliverer(_) => Judge(r, op, if x.wake.Failed? then SendThrew else Sent)
    case SpaceSender(msg) =>
      if x.wake.Failed? then Judge(r, op, SendThrew) else TrySend(r, msg, x.reserved, fired)
    case _ =>
      if x.wake.Failed? then Judge(r, op, RecvThrew) else TryRecv(r, op, x.reserved, fired)
  }

  /** A woken coroutine runs: its wait returns, and its operation goes on. */
  function Resume(c: State, op: Op, fired: bool): State
    requires op in c.waiters
  {
    GoOn(WaitReturn(c, op), op, c.waiters[op], fired)
  }

  // ------------------------------------------------------------- cancellation, drop, close

  function Cancel(c: State, op: Op): State
    requires op in c.waiters
  {
    c.(waiters := c.waiters[op := c.waiters[op].(wake := Failed)])
  }

  function DropFuture(c: State, op: Op): State {
    Judge(c.(receivers := Remove(c.receivers, op), waiters := c.waiters - {op}), op, Dropped)
  }

  /** The waiters that close() leaves in the receiver queue. */
  function Kept(q: seq<Op>, ws: map<Op, Waiter>): (k: seq<Op>) {
    if q == [] then []
    else if q[0] in ws && ws[q[0]].reserved then [q[0]] + Kept(q[1..], ws)
    else Kept(q[1..], ws)
  }

  /** Whether close() wakes `w` with the close exception: it is drained from a queue, or
      still registered on the event when the event is notified. */
  predicate FailedByClose(c: State, w: Op)
    requires w in c.waiters
  {
    || (w in c.receivers && !c.waiters[w].reserved)
    || w in c.senders
    || c.waiters[w].subscribed
  }

  predicate RejectedByClose(c: State, w: Op)
    requires w in c.waiters
  {
    w in c.receivers && !c.waiters[w].reserved && c.waiters[w].role.PendingFuture?
  }

  /** close() before its rollback: every waiter but a reserved receiver is failed. */
  function Shut(c: State): State {
    var rejected := set w | w in c.waiters && RejectedByClose(c, w);
    c.(closed := true,
       receivers := Kept(c.receivers, c.waiters),
       senders := [],
       waiters := map w | w in c.waiters && w !in rejected ::
         if FailedByClose(c, w) then c.waiters[w].(wake := Failed, subscribed := false)
         else c.waiters[w],
       verdicts := c.verdicts + (map w | w in rejected :: RecvThrew))
  }

  function Close(c: State): State {
    if c.closed then c else RollBack(Shut(c))
  }

  // --------------------------------------------------------------------------------- runs

  datatype Step =
    | DoSend(msg: Msg)
    | DoSendAsync(msg: Msg)
    | DoRecv(op: Op)
    | DoRecvAsync(op: Op)
    | DoDrop(op: Op)
    | DoCancel(op: Op)
    | DoResume(op: Op, fired: bool)
    | DoClose

  /** What the environment may do: start a new call, drop a future nobody has completed,
      cancel a parked coroutine, run a woken one, close. A token that has already fired
      when a call starts makes the call throw before it reaches the channel. */
  predicate Enabled(c: State, s: Step) {
    match s
    case DoSend(msg) => Fresh(c, msg.op)
    case DoSendAsync(msg) => Fresh(c, msg.op)
    case DoRecv(op) => Fresh(c, op)
    case DoRecvAsync(op) => Fresh(c, op)
    case DoDrop(op) => op in c.waiters && c.waiters[op].role.PendingFuture?
    case DoCancel(op) => op in c.waiters && !c.waiters[op].role.PendingFuture?
    case DoResume(op, _) =>
      op in c.waiters && !c.waiters[op].role.PendingFuture? && !c.waiters[op].wake.Parked?
    case DoClose => true
  }

  function Apply(c: State, s: Step): State
    requires Enabled(c, s)
  {
    match s
    case DoSend(msg) => TrySend(c, msg, false, false)
    case DoSendAsync(msg) => SendAsync(c, msg)
    case DoRecv(op) => TryRecv(c, op, false, false)
    case DoRecvAsync(op) => RecvAsync(c, op)
    case DoDrop(op) => DropFuture(c, op)
    case DoCancel(op) => Cancel(c, op)
    case DoResume(op, fired) => Resume(c, op, fired)
    case DoClose => Close(c)
  }

  /** `run` is a run of the channel: each state follows from the one before it. */
  ghost predicate IsRun(run: seq<State>) {
    && |run| > 0
    && forall i :: 0 < i < |run| ==> Follows(run[i - 1], run[i])
  }

  ghost predicate Follows(c: State, d: State) {
    exists s: Step :: Enabled(c, s) && d == Apply(c, s)
  }
}
