/**
 The cross-thread future state of future.c, one instance of it, as a machine of interleaved
 atomic steps: every load, store, lock and compare-and-swap of every thread is a step of its
 own. An actor is an object that holds one reference to the state (the source FutureState or
 the remote future, a copy in transit, the destination FutureState, a source callback, a
 queued task); its program counter says where in a call it stands.
 */
module SharedFuture {
  import opened Basics

  type Actor = nat
  type Payload(==, !new)

  /** The actor that owns the result trigger, and the one that may bind a cancel trigger. */
  const OWNER: Actor := 0
  const PRODUCER: Actor := 1

  datatype Outcome = Result(value: Payload) | Exception(error: Payload)

  datatype Call =
    | Settle(outcome: Outcome)     // complete() and reject()
    | RequestCancel
    | BindCancel
    | UnbindCancel
    | TearDown                     // the owner detaches the trigger and lets go

  datatype Goal = AddRef | DelRef

  /** The statements under the mutex, call by call. */
  datatype Section =
    | Recheck(outcome: Outcome)              // complete() and reject()
    | SetCompleted(outcome: Outcome)
    | Store(outcome: Outcome)
    | ReadTrigger
    | Fire(trigger: bool)
    | RecheckCancel                          // request_cancel()
    | SetCancel
    | ReadCancelTrigger
    | FireCancel(binding: Option<nat>)
    | TestCancel                             // bind_cancel()
    | Bind(bound: bool)
    | Unbind                                 // unbind_cancel()
    | Detach                                 // the owner's teardown
    | SetSevered
    | ClearTarget(detached: bool)
    | Unlock
    | UnlockAndDispose(detached: bool)

  datatype Pc =
    | Idle
    | InTransit
    | AtFastPath(call: Call)                 // the unlocked read of `completed`
    | AtLock(call: Call)
    | Holding(at: Section)
    | AtDispose(detached: bool)
    | AtLoad(goal: Goal)
    | AtCas(goal: Goal, seen: int)
    | AtDestroy

  datatype State = State(
    refs: int,
    completed: bool,
    mutex: Option<Actor>,
    outcome: Option<Outcome>,
    trigger: bool,                 // the result trigger is attached
    target: bool,                  // the target future is attached
    cancelRequested: bool,
    cancelTrigger: Option<nat>,    // the binding in force, numbered
    actors: map<Actor, Pc>,
    alive: bool,
    // history
    stored: seq<Outcome>,
    fired: nat,
    disposed: nat,                 // how often the result trigger was disposed of
    delivered: seq<Outcome>,
    bindings: nat,
    cancelFired: set<nat>,
    unbound: set<nat>,             // those unbound or replaced
    leftBound: bool,               // the producer let go with a trigger bound
    destroyed: nat,
    tripped: bool,                 // the assertion at destruction failed
    fault: bool)                   // a dead trigger was fired, or an outcome was not there

  /** After create, bind and the two addrefs of a transfer: the owner holds one reference,
      the copy in transit another. create() itself starts the count at zero. `bound` is
      whether the trigger could be created. */
  function Init(bound: bool): State {
    State(2, false, None, None, bound, true, false, None,
          map[OWNER := Idle, PRODUCER := InTransit],
          true, [], 0, 0, [], 0, {}, {}, false, 0, false, false)
  }

  function Go(s: State, a: Actor, pc: Pc): State { s.(actors := s.actors[a := pc]) }

  /** Where a call goes once it holds the mutex. */
  function Enter(call: Call): Section {
    match call
    case Settle(outcome) => Recheck(outcome)
    case RequestCancel => RecheckCancel
    case BindCancel => TestCancel
    case UnbindCancel => Unbind
    case TearDown => Detach
  }

  datatype Step =
    | Begin(a: Actor, call: Call)
    | BeginAddRef(a: Actor)
    | BeginDelRef(a: Actor)
    | Arrive(a: Actor)                        // a copy in transit is loaded
    | Advance(a: Actor, stale: bool, b: Actor)
    | Deliver                                 // the owner's loop runs the trigger callback

  /** Who may start what: only the owner tears down, only the producer binds and unbinds. */
  predicate MayBegin(a: Actor, call: Call) {
    && (call.TearDown? ==> a == OWNER)
    && (call.BindCancel? || call.UnbindCancel? ==> a == PRODUCER)
  }

  predicate Enabled(s: State, step: Step) {
    match step
    case Begin(a, call) => a in s.actors && s.actors[a].Idle? && MayBegin(a, call)
    case BeginAddRef(a) => a in s.actors && s.actors[a].Idle?
    case BeginDelRef(a) => a in s.actors && s.actors[a].Idle? && a != OWNER
    case Arrive(a) => a in s.actors && s.actors[a].InTransit?
    case Advance(a, stale, b) =>
      && a in s.actors && !s.actors[a].Idle? && !s.actors[a].InTransit?
      && (s.actors[a].AtLock? ==> s.mutex.None?)
      && b !in s.actors && b > PRODUCER
    case Deliver =>
      && OWNER in s.actors && s.actors[OWNER].Idle? && s.trigger
      && |s.delivered| < s.fired
  }

  /** Where the holder of the mutex goes from a statement ... */
  function Next(s: State, at: Section): Pc {
    match at
    case Recheck(outcome) => Holding(if s.completed then Unlock else SetCompleted(outcome))
    case SetCompleted(outcome) => Holding(Store(outcome))
    case Store(outcome) => Holding(ReadTrigger)
    case ReadTrigger => Holding(Fire(s.trigger))
    case Fire(_) => Holding(Unlock)
    case RecheckCancel => Holding(if s.completed then Unlock else SetCancel)
    case SetCancel => Holding(ReadCancelTrigger)
    case ReadCancelTrigger => Holding(FireCancel(s.cancelTrigger))
    case FireCancel(_) => Holding(Unlock)
    case TestCancel => Holding(Bind(!s.cancelRequested))
    case Bind(_) => Holding(Unlock)
    case Unbind => Holding(Unlock)
    case Detach => Holding(if s.trigger then SetSevered else ClearTarget(false))
    case SetSevered => Holding(ClearTarget(true))
    case ClearTarget(detached) => Holding(UnlockAndDispose(detached))
    case Unlock => Idle
    case UnlockAndDispose(detached) => AtDispose(detached)
  }

  /** The binding in force, if any, is not in force any more. */
  function Dropped(s: State): set<nat> {
    s.unbound + if s.cancelTrigger.Some? then {s.cancelTrigger.value} else {}
  }

  /** ... and what the statement does to the shared state. */
  function Effect(s: State, at: Section): (t: State)
    ensures t.actors == s.actors && t.refs == s.refs && t.alive == s.alive && t.destroyed == s.destroyed
    ensures t.leftBound == s.leftBound && t.tripped == s.tripped
  {
    match at
    case Recheck(_) => s
    case SetCompleted(_) => s.(completed := true)
    case Store(outcome) => s.(outcome := Some(outcome), stored := s.stored + [outcome])
    case ReadTrigger => s
    case Fire(trigger) => if trigger then s.(fired := s.fired + 1, fault := s.fault || s.disposed > 0) else s
    case RecheckCancel => s
    case SetCancel => s.(cancelRequested := true)
    case ReadCancelTrigger => s
    case FireCancel(binding) => FireBinding(s, binding)
    case TestCancel => s
    case Bind(bound) =>
      if bound then s.(cancelTrigger := Some(s.bindings), bindings := s.bindings + 1, unbound := Dropped(s)) else s
    case Unbind => s.(cancelTrigger := None, unbound := Dropped(s))
    case Detach => s.(trigger := false)
    case SetSevered => s.(completed := true)
    case ClearTarget(_) => s.(target := false)
    case Unlock => s.(mutex := None)
    case UnlockAndDispose(_) => s.(mutex := None)
  }

  function FireBinding(s: State, binding: Option<nat>): State {
    match binding
    case None => s
    case Some(t) => s.(cancelFired := s.cancelFired + {t}, fault := s.fault || t in s.unbound)
  }

  /** One atomic step of actor `a` inside a call. A stale fast-path read may miss a
      completion, but never invents one. `b` is the new holder if an addref succeeds here. */
  function Move(s: State, a: Actor, stale: bool, b: Actor): State
    requires a in s.actors
  {
    match s.actors[a]
    case Idle => s
    case InTransit => s
    case AtFastPath(call) =>
      if s.completed && !stale then Go(s, a, Idle) else Go(s, a, AtLock(call))
    case AtLock(call) => Go(s.(mutex := Some(a)), a, Holding(Enter(call)))
    case Holding(at) => Go(Effect(s, at), a, Next(s, at))
    case AtDispose(detached) => Go(Disposing(s, detached), a, AtLoad(DelRef))
    case AtLoad(goal) => Go(s, a, AtCas(goal, s.refs))
    case AtCas(goal, seen) => Swap(s, a, goal, seen, b)
    case AtDestroy => Destroy(s, a)
  }

  function Disposing(s: State, detached: bool): State { s.(disposed := s.disposed + One(detached)) }

  /** A new holder, and a holder less. */
  function Join(s: State, b: Actor): State { s.(refs := s.refs + 1, actors := s.actors[b := Idle]) }

  function Part(s: State, a: Actor): State { s.(refs := s.refs - 1, actors := s.actors - {a}) }

  /** The compare-and-swap of addref and delref, and what follows when it succeeds. */
  function Swap(s: State, a: Actor, goal: Goal, seen: int, b: Actor): (t: State)
    ensures t == s.(refs := t.refs, actors := t.actors)
  {
    if s.refs != seen then Go(s, a, AtLoad(goal))
    else if goal.AddRef? then Join(Go(s, a, Idle), b)
    else if seen == 1 then Go(s.(refs := s.refs - 1), a, AtDestroy)
    else Part(s, a)
  }

  /** The last reference is gone: what is left is released, and the memory freed. */
  function Destroy(s: State, a: Actor): State {
    s.(actors := s.actors - {a}, alive := false, destroyed := s.destroyed + 1, outcome := None,
       disposed := s.disposed + (if s.trigger then 1 else 0), trigger := false,
       tripped := s.tripped || s.cancelTrigger.Some?, fault := s.fault || !s.alive)
  }

  /** The trigger callback on the owner's thread: the outcome moves to the target future. */
  function RunTrigger(s: State): State {
    s.(delivered := s.delivered + (if s.outcome.Some? then [s.outcome.value] else []),
       outcome := None, fault := s.fault || s.outcome.None? || !s.target)
  }

  /** Noted when the producer lets go. */
  function LettingGo(s: State, a: Actor): State {
    s.(leftBound := s.leftBound || (a == PRODUCER && s.cancelTrigger.Some?))
  }

  function Apply(s: State, step: Step): State
    requires Enabled(s, step)
  {
    match step
    case Begin(a, call) =>
      Go(s, a, if call.Settle? || call.RequestCancel? then AtFastPath(call) else AtLock(call))
    case BeginAddRef(a) => Go(s, a, AtLoad(AddRef))
    case BeginDelRef(a) => Go(LettingGo(s, a), a, AtLoad(DelRef))
    case Arrive(a) => Go(s, a, Idle)
    case Advance(a, stale, b) => Move(s, a, stale, b)
    case Deliver => RunTrigger(s)
  }
}
