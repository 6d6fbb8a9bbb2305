/**
 Concurrent iteration over an array: coroutines that share one position, each of which takes
 the next element whenever its handler returns. A coroutine runs without interruption from one
 handler call to the next; between them any other may run. Who runs next, what handlers
 return and which coroutines are cancelled before they start is up to the environment.
 */
module IteratorModel {

  datatype Co = Spawned | Handling(element: nat) | Left

  /** What a handler call came to: go on, stop without error, or an exception. */
  datatype Verdict = GoOn | Stop | Throw

  datatype State = State(
    total: nat,
    limit: nat,              // 0: no limit
    finished: bool,
    cancelled: bool,         // the microtask is
    active: int,             // slots in use
    position: nat,
    cos: seq<Co>,
    queued: nat,             // entries of the microtask in the scheduler's queue
    refs: int,
    event: bool,             // the completion event is still to be notified
    // history
    handed: seq<nat>,        // which coroutine got which element
    started: nat,
    stops: nat,              // handler calls that ended the iteration
    stopAt: nat,             // the position at the first of them
    notified: nat,
    freed: nat)

  /** The iterator in a coroutine of its own, which takes a slot like every other. */
  function Init(total: nat, limit: nat): State {
    State(total, limit, false, false, 1, 0, [Spawned], 0, 1, true, [], 0, 0, 0, 0, 0)
  }

  function SetCo(s: State, k: nat, co: Co): State
    requires k < |s.cos|
  {
    s.(cos := s.cos[k := co])
  }

  /** A slot is given back; the last one out completes the iteration. */
  function Release(s: State): State {
    if s.active > 1 then s.(active := s.active - 1)
    else s.(active := 0, finished := true, event := false, notified := s.notified + if s.event then 1 else 0)
  }

  /** A reference is given back; the last one frees the iterator. */
  function Unref(s: State): State {
    if s.refs > 1 then s.(refs := s.refs - 1)
    else s.(refs := 0, freed := s.freed + 1, event := false, notified := s.notified + if s.event then 1 else 0)
  }

  function Leave(s: State, k: nat): State
    requires k < |s.cos|
  {
    Unref(Release(SetCo(s, k, Left)))
  }

  function Finish(s: State): State { s.(finished := true, cancelled := true) }

  /** The loop of a coroutine up to its next handler call. */
  function Loop(s: State, k: nat): State
    requires k < |s.cos|
  {
    if s.finished then Leave(s, k)
    else if s.position >= s.total then Leave(Finish(s), k)
    else SetCo(s, k, Handling(s.position)).(position := s.position + 1, handed := s.handed + [k])
  }

  /** Queues the microtask that may spawn a further coroutine. */
  function Queue(s: State): State {
    if s.cancelled then s else s.(queued := s.queued + 1, refs := s.refs + 1)
  }

  function Start(s: State, k: nat): State
    requires k < |s.cos|
  {
    Loop(Queue(s.(started := s.started + 1)), k)
  }

  function Ended(s: State): State {
    Finish(s.(stops := s.stops + 1, stopAt := if s.stops == 0 then s.position else s.stopAt))
  }

  function Return(s: State, k: nat, verdict: Verdict): State
    requires k < |s.cos|
  {
    Loop(if verdict.GoOn? then s else Ended(s), k)
  }

  /** The microtask: one more coroutine unless the slots are taken or the iteration is over. */
  function Spawn(s: State, ok: bool): State {
    if s.finished || (s.limit > 0 && s.active >= s.limit) || !ok then s
    else s.(refs := s.refs + 1, active := s.active + 1, cos := s.cos + [Spawned])
  }

  /** The scheduler takes one entry off its queue. */
  function Microtask(s: State, ok: bool): State
    requires s.queued > 0
  {
    Unref((if s.cancelled then s else Spawn(s, ok)).(queued := s.queued - 1))
  }

  datatype Step =
    | Starts(k: nat)
    | Returns(k: nat, verdict: Verdict)
    | CancelledFirst(k: nat)           // before it ever ran
    | RunsMicrotask(ok: bool)

  predicate Enabled(s: State, step: Step) {
    match step
    case Starts(k) => k < |s.cos| && s.cos[k].Spawned?
    case Returns(k, _) => k < |s.cos| && s.cos[k].Handling?
    case CancelledFirst(k) => k < |s.cos| && s.cos[k].Spawned?
    case RunsMicrotask(_) => s.queued > 0
  }

  function Apply(s: State, step: Step): State
    requires Enabled(s, step)
  {
    match step
    case Starts(k) => Start(s, k)
    case Returns(k, verdict) => Return(s, k, verdict)
    case CancelledFirst(k) => Leave(s, k)
    case RunsMicrotask(ok) => Microtask(s, ok)
  }
}
