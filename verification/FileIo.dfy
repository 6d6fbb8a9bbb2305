/**
 One file handle of the reactor and the requests made on it: the read and write queues, the
 operations in the thread pool, disposal of requests whose caller went away, the position
 of the descriptor and its close. Requests are numbered in the order they were made. The
 thread pool and libuv's answers are the environment.
 */
module FileIo {
  import opened Basics

  /** `forget`: a write whose buffer was given away; nobody waits for it. */
  datatype Kind = Read | Write(forget: bool) | Flush | Stat

  /** What the worker did: a read took `size` bytes at `at`, a write wrote `size`. */
  datatype Got = Took(at: nat, size: nat) | Wrote(size: nat) | Did | Failed

  datatype Phase = Queued | Flying(got: Option<Got>) | Over | Freed

  /** `held`: the caller has not disposed of it; `pending`: it did so in mid-flight. */
  datatype Req = Req(kind: Kind, phase: Phase, held: bool, pending: bool)

  /** A queue, whether an operation of its kind is under way, and those started so far. */
  datatype Lane = Lane(queue: seq<nat>, busy: bool, launched: seq<nat>)

  /** Bytes the position has moved over for good. */
  datatype Segment = Segment(at: nat, size: nat, delivered: bool)

  datatype State = State(
    reqs: map<nat, Req>,
    next: nat,
    readLane: Lane,
    writeLane: Lane,
    inFlight: int,
    closed: bool,
    owns: bool,
    open: bool,
    position: int,
    // history
    notified: seq<nat>,
    freed: seq<nat>,
    closes: nat,
    passed: seq<Segment>,
    fault: bool)        // an assertion, a buffer of a caller that left, or a closed descriptor

  function Init(owns: bool, start: nat): State {
    State(map[], 0, Lane([], false, []), Lane([], false, []), 0, false, owns, true, start, [], [], 0, [], false)
  }

  // ------------------------------------------------------------------------------ small parts

  function LaneOf(s: State, write: bool): Lane { if write then s.writeLane else s.readLane }

  function WithLane(s: State, write: bool, lane: Lane): State {
    if write then s.(writeLane := lane) else s.(readLane := lane)
  }

  function SetReq(s: State, id: nat, r: Req): State { s.(reqs := s.reqs[id := r]) }

  function SetPhase(s: State, id: nat, phase: Phase): State
    requires id in s.reqs
  {
    SetReq(s, id, s.reqs[id].(phase := phase))
  }

  /** Hands a request to the thread pool. */
  function Launch(s: State, id: nat): State
    requires id in s.reqs
  {
    SetPhase(s, id, Flying(None)).(inFlight := s.inFlight + 1, fault := s.fault || !s.open)
  }

  function Free(s: State, id: nat): State
    requires id in s.reqs
  {
    SetReq(s, id, s.reqs[id].(phase := Freed, held := false, pending := false)).(freed := s.freed + [id])
  }

  function Notify(s: State, id: nat): State { s.(notified := s.notified + [id]) }

  /** Closes the descriptor once nobody uses it. */
  function ReleaseFd(s: State): State {
    if s.open && s.inFlight <= 0 && s.closed && s.owns then s.(open := false, closes := s.closes + 1) else s
  }

  function Without(q: seq<nat>, id: nat): seq<nat> {
    if q == [] then [] else if q[0] == id then q[1..] else [q[0]] + Without(q[1..], id)
  }

  // ------------------------------------------------------------------------------- operations

  /** A new read or write: it waits behind one under way, or starts; `ok` is libuv's answer. */
  function Enter(s: State, id: nat, write: bool, ok: bool): State
    requires id in s.reqs
  {
    var lane := LaneOf(s, write);
    if lane.busy then WithLane(s, write, lane.(queue := lane.queue + [id]))
    else if ok then Launch(WithLane(s, write, lane.(busy := true, launched := lane.launched + [id])), id)
    else SetReq(s, id, s.reqs[id].(phase := Over, held := true))
  }

  function Make(s: State, kind: Kind): State {
    SetReq(s, s.next, Req(kind, Queued, !(kind.Write? && kind.forget), false)).(next := s.next + 1)
  }

  function Submit(s: State, kind: Kind, ok: bool): State {
    if s.closed then s
    else
      match kind
      case Read => Enter(Make(s, kind), s.next, false, ok)
      case Write(_) => Enter(Make(s, kind), s.next, true, ok)
      case _ => if ok then Launch(Make(s, kind), s.next) else Free(Make(s, kind), s.next)
  }

  /** The worker does its part. */
  function Work(s: State, id: nat, got: Got): State
    requires id in s.reqs
  {
    SetPhase(s, id, Flying(Some(got))).(position := s.position + if got.Took? || got.Wrote? then got.size else 0)
  }

  /** The first queued request goes to the pool, or libuv refuses it and its caller is told. */
  function LaunchHead(s: State, write: bool): State
    requires LaneOf(s, write).queue != [] && LaneOf(s, write).queue[0] in s.reqs
  {
    var lane := LaneOf(s, write);
    Launch(WithLane(s, write, Lane(lane.queue[1..], true, lane.launched + [lane.queue[0]])), lane.queue[0])
  }

  function RefuseHead(s: State, write: bool): State
    requires LaneOf(s, write).queue != [] && LaneOf(s, write).queue[0] in s.reqs
  {
    var lane := LaneOf(s, write);
    Notify(SetPhase(WithLane(s, write, lane.(queue := lane.queue[1..])), lane.queue[0], Over), lane.queue[0])
  }

  /** Starts the first queued request that libuv takes; it refuses the first `refusals`. */
  function Drain(s: State, write: bool, refusals: nat): (t: State)
    requires forall i :: 0 <= i < |LaneOf(s, write).queue| ==> LaneOf(s, write).queue[i] in s.reqs
    ensures t.reqs.Keys == s.reqs.Keys
    decreases |LaneOf(s, write).queue|
  {
    if LaneOf(s, write).queue == [] then WithLane(s, write, LaneOf(s, write).(busy := false))
    else if refusals == 0 then LaunchHead(s, write)
    else Drain(RefuseHead(s, write), write, refusals - 1)
  }

  /** The bytes of a completed read: copied for a caller who is there, otherwise the position
      is put back, unless another operation is in the pool. */
  function Settle(s: State, id: nat, got: Got): State
    requires id in s.reqs
  {
    var r := s.reqs[id];
    if !got.Took? || got.size == 0 then s
    else if !r.pending then
      s.(passed := s.passed + [Segment(got.at, got.size, true)], fault := s.fault || !r.held)
    else if s.inFlight == 0 && s.open then s.(position := s.position - got.size)
    else s.(passed := s.passed + [Segment(got.at, got.size, false)])
  }

  /** The request leaves the pool. */
  function Back(s: State, id: nat): State
    requires id in s.reqs
  {
    SetPhase(s, id, Over).(inFlight := s.inFlight - 1, fault := s.fault || s.inFlight <= 0)
  }

  /** A stat copies its answer to a caller who is there. */
  function Answer(s: State, id: nat, got: Got): State
    requires id in s.reqs
  {
    s.(fault := s.fault || (got.Did? && !s.reqs[id].pending && !s.reqs[id].held))
  }

  function Land(s: State, id: nat, got: Got): (t: State)
    requires id in s.reqs
    ensures t.reqs.Keys == s.reqs.Keys && t.readLane == s.readLane && t.writeLane == s.writeLane
  {
    match s.reqs[id].kind
    case Read => Settle(Back(s, id), id, got)
    case Stat => Answer(Back(s, id), id, got)
    case _ => Back(s, id)
  }

  /** After the queue has moved on: the descriptor may go, and the request's caller is told or,
      where there is none any more, the request is freed. */
  function Conclude(s: State, id: nat): State
    requires id in s.reqs
  {
    var t := ReleaseFd(s);
    var r := s.reqs[id];
    if r.pending || (r.kind.Write? && r.kind.forget) then Free(t, id) else Notify(t, id)
  }

  /** The queue of the completed operation moves on. */
  function HandOver(s: State, kind: Kind, refusals: nat): (t: State)
    requires QueuesKnown(s)
    ensures t.reqs.Keys == s.reqs.Keys
  {
    match kind
    case Read => Drain(s, false, refusals)
    case Write(_) => Drain(s, true, refusals)
    case _ => s
  }

  function Complete(s: State, id: nat, refusals: nat): State
    requires Enabled(s, Completed(id, refusals))
  {
    Conclude(HandOver(Land(s, id, s.reqs[id].phase.got.value), s.reqs[id].kind, refusals), id)
  }

  function OutOfLane(s: State, write: bool, id: nat): State {
    WithLane(s, write, LaneOf(s, write).(queue := Without(LaneOf(s, write).queue, id)))
  }

  /** The caller lets go of its request. */
  function Dispose(s: State, id: nat): State
    requires id in s.reqs
  {
    if s.reqs[id].phase.Flying? then SetReq(s, id, s.reqs[id].(held := false, pending := true))
    else if id in s.readLane.queue then Free(OutOfLane(s, false, id), id)
    else if id in s.writeLane.queue then Free(OutOfLane(s, true, id), id)
    else Free(s, id)
  }

  function Close(s: State): State { if s.closed then s else ReleaseFd(s.(closed := true)) }

  // ------------------------------------------------------------------------------------- runs

  datatype Step =
    | Submitted(kind: Kind, ok: bool)
    | Worked(id: nat, got: Got)
    | Completed(id: nat, refusals: nat)
    | Disposed(id: nat)
    | Closed

  ghost predicate QueuesKnown(s: State) {
    && (forall i :: 0 <= i < |s.readLane.queue| ==> s.readLane.queue[i] in s.reqs)
    && (forall i :: 0 <= i < |s.writeLane.queue| ==> s.writeLane.queue[i] in s.reqs)
  }

  /** Only a read takes bytes, at the position; only a write writes. */
  predicate MayGet(s: State, r: Req, got: Got) {
    (got.Took? ==> r.kind.Read? && got.at == s.position) && (got.Wrote? ==> r.kind.Write?)
  }

  ghost predicate Enabled(s: State, step: Step) {
    match step
    case Submitted(_, _) => true
    case Worked(id, got) => id in s.reqs && s.reqs[id].phase == Flying(None) && MayGet(s, s.reqs[id], got)
    case Completed(id, _) => id in s.reqs && s.reqs[id].phase.Flying? && s.reqs[id].phase.got.Some? && QueuesKnown(s)
    case Disposed(id) => id in s.reqs && s.reqs[id].held
    case Closed => true
  }

  ghost function Apply(s: State, step: Step): State
    requires Enabled(s, step)
  {
    match step
    case Submitted(kind, ok) => Submit(s, kind, ok)
    case Worked(id, got) => Work(s, id, got)
    case Completed(id, refusals) => Complete(s, id, refusals)
    case Disposed(id) => Dispose(s, id)
    case Closed => Close(s)
  }
}
