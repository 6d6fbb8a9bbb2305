/**
 Safety of the cross-thread future state over every interleaving.
 */
module SharedFutureProofs {
  import opened Basics
  import opened SharedFuture

  // ------------------------------------------------------------------------------- invariant

  predicate Settles(at: Section) {
    at.Recheck? || at.SetCompleted? || at.Store? || at.ReadTrigger? || at.Fire?
  }

  predicate Requests(at: Section) {
    at.RecheckCancel? || at.SetCancel? || at.ReadCancelTrigger? || at.FireCancel?
  }

  predicate Binds(at: Section) { at.TestCancel? || at.Bind? || at.Unbind? }

  predicate Severs(at: Section) {
    at.Detach? || at.SetSevered? || at.ClearTarget? || at.UnlockAndDispose?
  }

  predicate OfOwner(pc: Pc) {
    (pc.AtLock? && pc.call.TearDown?) || (pc.Holding? && Severs(pc.at)) || pc.AtDispose?
  }

  predicate Binding(pc: Pc) {
    (pc.AtLock? && (pc.call.BindCancel? || pc.call.UnbindCancel?)) || (pc.Holding? && Binds(pc.at))
  }

  predicate Leaving(pc: Pc) { ((pc.AtLoad? || pc.AtCas?) && pc.goal.DelRef?) || pc.AtDestroy? }

  /** Who may stand where: only the holder of the mutex is inside, only the owner severs and
      only the producer binds; the owner leaves nothing attached, and it is noted if the
      producer does. */
  predicate PlaceOk(s: State, a: Actor, pc: Pc) {
    && (pc.Holding? <==> s.mutex == Some(a))
    && (OfOwner(pc) ==> a == OWNER)
    && (Binding(pc) ==> a == PRODUCER)
    && (pc.AtFastPath? ==> pc.call.Settle? || pc.call.RequestCancel?)
    && (a == OWNER ==> !pc.InTransit? && (Leaving(pc) ==> !s.trigger))
    && (a == PRODUCER ==> (s.leftBound <==> Leaving(pc) && s.cancelTrigger.Some?))
  }

  ghost predicate Places(s: State) {
    && (forall a :: a in s.actors ==> PlaceOk(s, a, s.actors[a]))
    && (s.mutex.Some? ==> s.mutex.value in s.actors)
    && (s.trigger ==> OWNER in s.actors)
    && (PRODUCER !in s.actors ==> (s.leftBound <==> s.cancelTrigger.Some?))
  }

  /** The statement the holder of the mutex is at; Unlock when nobody holds it. */
  function Inside(s: State): Section {
    if s.mutex.Some? && s.mutex.value in s.actors && s.actors[s.mutex.value].Holding?
    then s.actors[s.mutex.value].at else Unlock
  }

  /** The result side, with the holder of the mutex at `at`: what has been stored, fired,
      delivered and disposed of. */
  predicate ResultsAt(s: State, at: Section) {
    && |s.stored| <= 1 && s.fired <= |s.stored| && |s.delivered| <= s.fired
    && (!s.completed ==> s.stored == [])
    && s.delivered <= s.stored
    && (s.stored != [] && s.delivered == [] && s.alive ==> s.outcome == Some(s.stored[0]))
    && s.disposed <= 1
    && (s.trigger ==> s.disposed == 0 && s.target)
    && (s.trigger && s.completed && !at.Store? ==> s.stored != [])
    && (s.trigger && s.stored != [] && !at.ReadTrigger? && !at.Fire? ==> s.fired == 1)
    && match at
       case SetCompleted(_) => !s.completed
       case Store(_) => s.completed && s.stored == []
       case ReadTrigger => s.completed && s.stored != [] && s.fired == 0
       case Fire(trigger) => s.completed && s.stored != [] && s.fired == 0 && trigger == s.trigger
       case SetSevered => !s.trigger && s.disposed == 0
       case ClearTarget(detached) => !s.trigger && (detached ==> s.disposed == 0)
       case UnlockAndDispose(detached) => !s.trigger && (detached ==> s.disposed == 0)
       case _ => true
  }

  /** The owner about to dispose of the trigger it detached. */
  predicate DisposeOk(s: State, pc: Pc) {
    pc.AtDispose? ==> !s.trigger && (pc.detached ==> s.disposed == 0)
  }

  ghost predicate Results(s: State) {
    ResultsAt(s, Inside(s)) && (OWNER in s.actors ==> DisposeOk(s, s.actors[OWNER]))
  }

  /** The cancellation side: a trigger that was unbound is not the one in force; once
      cancellation was requested, the one in force has been fired or is about to be. */
  ghost predicate CancelsAt(s: State, at: Section) {
    && (forall t :: t in s.unbound ==> t < s.bindings)
    && (s.cancelTrigger.Some? ==>
          s.cancelTrigger.value < s.bindings && s.cancelTrigger.value !in s.unbound)
    && (s.cancelTrigger.Some? && s.cancelRequested ==>
          s.cancelTrigger.value in s.cancelFired || at.ReadCancelTrigger? || at == FireCancel(s.cancelTrigger))
    && match at
       case ReadCancelTrigger => s.cancelRequested
       case FireCancel(binding) => s.cancelRequested && binding == s.cancelTrigger
       case Bind(bound) => bound == !s.cancelRequested
       case _ => true
  }

  ghost predicate Cancels(s: State) { CancelsAt(s, Inside(s)) }

  ghost function Holders(s: State): set<Actor> {
    set a | a in s.actors && !s.actors[a].AtDestroy?
  }

  /** The count is the number of live holders; whoever took it to zero is alone. */
  ghost predicate Counted(s: State) {
    && s.refs == |Holders(s)|
    && (forall a :: a in s.actors && s.actors[a].AtDestroy? ==> s.actors.Keys == {a})
    && (s.actors.Keys == {} <==> !s.alive)
    && s.destroyed == (if s.alive then 0 else 1)
  }

  /** The assertion at destruction fails exactly if the producer let go with a trigger bound. */
  predicate Trips(s: State) { s.tripped <==> !s.alive && s.leftBound }

  ghost predicate Inv(s: State) {
    Places(s) && Results(s) && Cancels(s) && Counted(s) && Trips(s) && !s.fault
  }

  // ------------------------------------------------------------------------------ every step

  lemma InitInv(bound: bool)
    ensures Inv(Init(bound))
  {
    assert Holders(Init(bound)) == {OWNER, PRODUCER};
  }

  /** A change of the shared fields that is fine with every place but `a`'s. */
  predicate ChangeOk(s: State, a: Actor, t: State) {
    && t.actors == s.actors
    && (s.mutex != t.mutex ==> (s.mutex == Some(a) || s.mutex.None?) && (t.mutex == Some(a) || t.mutex.None?))
    && (t.trigger ==> s.trigger)
    && (t.cancelTrigger != s.cancelTrigger || t.leftBound != s.leftBound ==> a == PRODUCER)
  }

  lemma MovePlaces(s: State, a: Actor, t: State, pc: Pc)
    requires Places(s) && a in s.actors && ChangeOk(s, a, t) && PlaceOk(t, a, pc)
    ensures Places(Go(t, a, pc))
  {
    var u := Go(t, a, pc);
    forall x | x in u.actors ensures PlaceOk(u, x, u.actors[x]) {
      assert PlaceOk(s, x, s.actors[x]);
    }
  }

  lemma InsideChanges(s: State, a: Actor, at: Section)
    requires PlaceOk(s, a, Holding(at))
    ensures ChangeOk(s, a, Effect(s, at))
  {
  }

  lemma InsideMoves(s: State, a: Actor, at: Section)
    requires PlaceOk(s, a, Holding(at))
    ensures PlaceOk(Effect(s, at), a, Next(s, at))
  {
  }

  lemma JoinPlaces(s: State, b: Actor)
    requires Places(s) && b !in s.actors && b > PRODUCER
    ensures Places(Join(s, b))
  {
    forall x | x in s.actors ensures PlaceOk(Join(s, b), x, s.actors[x]) {
      assert PlaceOk(s, x, s.actors[x]);
    }
  }

  lemma PartPlaces(s: State, a: Actor)
    requires Places(s) && a in s.actors && Leaving(s.actors[a])
    ensures Places(Part(s, a))
  {
    var t := Part(s, a);
    assert PlaceOk(s, a, s.actors[a]);
    forall x | x in t.actors ensures PlaceOk(t, x, t.actors[x]) {
      PlaceSame(s, t, x, s.actors[x]);
    }
  }

  lemma PlaceSame(s: State, t: State, x: Actor, pc: Pc)
    requires PlaceOk(s, x, pc) && t.mutex == s.mutex && t.trigger == s.trigger
    requires t.cancelTrigger == s.cancelTrigger && t.leftBound == s.leftBound
    ensures PlaceOk(t, x, pc)
  {
  }

  lemma AddRefPlaces(s: State, a: Actor, b: Actor)
    requires Places(s) && a in s.actors && PlaceOk(s, a, Idle) && b !in s.actors && b > PRODUCER
    ensures Places(Join(Go(s, a, Idle), b))
  {
    MovePlaces(s, a, s, Idle);
    JoinPlaces(Go(s, a, Idle), b);
  }

  lemma RetryPlaces(s: State, a: Actor, goal: Goal, seen: int)
    requires Places(s) && a in s.actors && s.actors[a] == AtCas(goal, seen)
    ensures Places(Go(s, a, AtLoad(goal)))
  {
    assert PlaceOk(s, a, s.actors[a]);
    MovePlaces(s, a, s, AtLoad(goal));
  }

  lemma DelRefPlaces(s: State, a: Actor, seen: int)
    requires Places(s) && a in s.actors && s.actors[a] == AtCas(DelRef, seen)
    ensures Places(Go(s.(refs := s.refs - 1), a, AtDestroy)) && Places(Part(s, a))
  {
    assert PlaceOk(s, a, s.actors[a]);
    MovePlaces(s, a, s.(refs := s.refs - 1), AtDestroy);
    PartPlaces(s, a);
  }

  lemma SwapPlaces(s: State, a: Actor, goal: Goal, seen: int, b: Actor)
    requires Places(s) && a in s.actors && s.actors[a] == AtCas(goal, seen) && b !in s.actors && b > PRODUCER
    ensures Places(Swap(s, a, goal, seen, b))
  {
    if s.refs != seen {
      RetryPlaces(s, a, goal, seen);
    } else if goal.AddRef? {
      assert PlaceOk(s, a, s.actors[a]);
      AddRefPlaces(s, a, b);
    } else {
      DelRefPlaces(s, a, seen);
    }
  }

  lemma DestroyPlaces(s: State, a: Actor)
    requires Places(s) && s.actors.Keys == {a} && s.actors[a].AtDestroy?
    ensures Places(Destroy(s, a)) && (s.leftBound <==> s.cancelTrigger.Some?) && !s.trigger
  {
    assert PlaceOk(s, a, s.actors[a]);
  }

  lemma InsidePlaces(s: State, a: Actor, at: Section)
    requires Places(s) && a in s.actors && s.actors[a] == Holding(at)
    ensures Places(Go(Effect(s, at), a, Next(s, at)))
  {
    assert PlaceOk(s, a, Holding(at));
    InsideChanges(s, a, at);
    InsideMoves(s, a, at);
    MovePlaces(s, a, Effect(s, at), Next(s, at));
  }

  lemma LockPlaces(s: State, a: Actor, call: Call)
    requires Places(s) && a in s.actors && s.actors[a] == AtLock(call) && s.mutex.None?
    ensures Places(Go(s.(mutex := Some(a)), a, Holding(Enter(call))))
  {
    assert PlaceOk(s, a, AtLock(call));
    MovePlaces(s, a, s.(mutex := Some(a)), Holding(Enter(call)));
  }

  lemma DisposePlaces(s: State, a: Actor, detached: bool)
    requires Places(s) && a in s.actors && s.actors[a].AtDispose? && !s.trigger
    ensures Places(Go(Disposing(s, detached), a, AtLoad(DelRef)))
  {
    assert PlaceOk(s, a, s.actors[a]);
    MovePlaces(s, a, Disposing(s, detached), AtLoad(DelRef));
  }

  lemma FastPathPlaces(s: State, a: Actor, call: Call, pc: Pc)
    requires Places(s) && a in s.actors && s.actors[a] == AtFastPath(call) && (pc.Idle? || pc == AtLock(call))
    ensures Places(Go(s, a, pc))
  {
    assert PlaceOk(s, a, s.actors[a]);
    MovePlaces(s, a, s, pc);
  }

  lemma LoadPlaces(s: State, a: Actor, goal: Goal)
    requires Places(s) && a in s.actors && s.actors[a] == AtLoad(goal)
    ensures Places(Go(s, a, AtCas(goal, s.refs)))
  {
    assert PlaceOk(s, a, s.actors[a]);
    MovePlaces(s, a, s, AtCas(goal, s.refs));
  }

  lemma CallPlaces(s: State, a: Actor, stale: bool, b: Actor)
    requires Places(s) && Enabled(s, Advance(a, stale, b))
    requires s.actors[a].AtFastPath? || s.actors[a].AtLock? || s.actors[a].AtLoad?
    ensures Places(Move(s, a, stale, b))
  {
    match s.actors[a] {
      case AtFastPath(call) => FastPathPlaces(s, a, call, if s.completed && !stale then Idle else AtLock(call));
      case AtLock(call) => LockPlaces(s, a, call);
      case AtLoad(goal) => LoadPlaces(s, a, goal);
    }
  }

  lemma ReleasePlaces(s: State, a: Actor, stale: bool, b: Actor)
    requires Places(s) && Enabled(s, Advance(a, stale, b))
    requires s.actors[a].AtDispose? || s.actors[a].AtCas? || s.actors[a].AtDestroy?
    requires s.actors[a].AtDispose? ==> !s.trigger
    requires s.actors[a].AtDestroy? ==> s.actors.Keys == {a}
    ensures Places(Move(s, a, stale, b))
  {
    match s.actors[a] {
      case AtDispose(detached) => DisposePlaces(s, a, detached);
      case AtCas(goal, seen) => SwapPlaces(s, a, goal, seen, b);
      case AtDestroy => DestroyPlaces(s, a);
    }
  }

  lemma StepPlaces(s: State, step: Step)
    requires Inv(s) && Enabled(s, step)
    ensures Places(Apply(s, step))
  {
    match step {
      case Begin(a, call) =>
        assert PlaceOk(s, a, s.actors[a]);
        MovePlaces(s, a, s, Apply(s, step).actors[a]);
      case BeginAddRef(a) => assert PlaceOk(s, a, s.actors[a]); MovePlaces(s, a, s, AtLoad(AddRef));
      case BeginDelRef(a) => assert PlaceOk(s, a, s.actors[a]); MovePlaces(s, a, LettingGo(s, a), AtLoad(DelRef));
      case Arrive(a) => assert PlaceOk(s, a, s.actors[a]); MovePlaces(s, a, s, Idle);
      case Advance(a, stale, b) =>
        if s.actors[a].Holding? {
          InsidePlaces(s, a, s.actors[a].at);
        } else if s.actors[a].AtFastPath? || s.actors[a].AtLock? || s.actors[a].AtLoad? {
          CallPlaces(s, a, stale, b);
        } else {
          assert PlaceOk(s, a, s.actors[a]);
          ReleasePlaces(s, a, stale, b);
        }
      case Deliver => assert forall x :: x in s.actors ==> PlaceOk(s, x, s.actors[x]);
    }
  }

  /** Where the mutex holder stands after a statement. */
  function After(s: State, at: Section): Section {
    if Next(s, at).Holding? then Next(s, at).at else Unlock
  }

  lemma InsideNow(s: State, a: Actor)
    requires Places(s) && a in s.actors && s.actors[a].Holding?
    ensures Inside(s) == s.actors[a].at
  {
    assert PlaceOk(s, a, s.actors[a]);
  }

  lemma InsideAfter(s: State, a: Actor, at: Section)
    requires s.mutex == Some(a) && a in s.actors
    ensures Inside(Go(Effect(s, at), a, Next(s, at))) == After(s, at)
  {
  }

  /** Whoever does not hold the mutex, before or after, leaves the holder where it is. */
  lemma InsideSame(s: State, a: Actor, t: State, pc: Pc)
    requires Places(s) && a in s.actors && !s.actors[a].Holding? && !pc.Holding?
    requires t.actors == s.actors && t.mutex == s.mutex
    ensures Inside(Go(t, a, pc)) == Inside(s)
  {
    assert PlaceOk(s, a, s.actors[a]);
  }

  lemma SettlingResults(s: State, at: Section)
    requires ResultsAt(s, at) && Settles(at)
    ensures ResultsAt(Effect(s, at), After(s, at)) && Effect(s, at).fault == s.fault
  {
  }

  lemma SeveringResults(s: State, at: Section)
    requires ResultsAt(s, at) && Severs(at)
    ensures ResultsAt(Effect(s, at), After(s, at)) && DisposeOk(Effect(s, at), Next(s, at))
    ensures Effect(s, at).fault == s.fault
  {
  }

  /** A statement that is not about results, and what it leaves alone. */
  predicate Neutral(at: Section) { !Settles(at) && !Severs(at) }

  predicate SameResults(s: State, t: State) {
    && t.completed == s.completed && t.outcome == s.outcome && t.trigger == s.trigger && t.target == s.target
    && t.stored == s.stored && t.fired == s.fired && t.delivered == s.delivered && t.disposed == s.disposed
    && t.alive == s.alive
  }

  lemma NeutralKeeps(s: State, at: Section)
    requires Neutral(at)
    ensures SameResults(s, Effect(s, at))
  {
    if Requests(at) {
      RequestKeeps(s, at);
    } else if Binds(at) {
      BindKeeps(s, at);
    }
  }

  lemma RequestKeeps(s: State, at: Section)
    requires Requests(at)
    ensures SameResults(s, Effect(s, at))
  {
    match at {
      case RecheckCancel =>
      case SetCancel =>
      case ReadCancelTrigger =>
      case FireCancel(_) =>
    }
  }

  lemma BindKeeps(s: State, at: Section)
    requires Binds(at)
    ensures SameResults(s, Effect(s, at))
  {
    match at {
      case TestCancel =>
      case Bind(_) =>
      case Unbind =>
    }
  }

  lemma NeutralNext(s: State, at: Section)
    requires Neutral(at)
    ensures Neutral(After(s, at))
  {
  }

  lemma ResultsFrame(s: State, t: State, at: Section, at': Section)
    requires ResultsAt(s, at) && SameResults(s, t) && Neutral(at) && Neutral(at')
    ensures ResultsAt(t, at')
  {
  }

  lemma OtherResults(s: State, at: Section)
    requires ResultsAt(s, at) && Neutral(at)
    ensures ResultsAt(Effect(s, at), After(s, at))
  {
    NeutralKeeps(s, at);
    NeutralNext(s, at);
    ResultsFrame(s, Effect(s, at), at, After(s, at));
  }

  lemma InsideResults(s: State, at: Section)
    requires ResultsAt(s, at)
    ensures ResultsAt(Effect(s, at), After(s, at))
    ensures DisposeOk(Effect(s, at), Next(s, at))
  {
    if Settles(at) {
      SettlingResults(s, at);
    } else if Severs(at) {
      SeveringResults(s, at);
    } else {
      OtherResults(s, at);
    }
  }

  lemma InsideKeepsDispose(s: State, at: Section, pc: Pc)
    requires DisposeOk(s, pc)
    ensures DisposeOk(Effect(s, at), pc)
  {
  }

  /** What a statement about results leaves alone on the cancellation side. */
  predicate SameCancels(s: State, t: State) {
    && t.cancelTrigger == s.cancelTrigger && t.cancelRequested == s.cancelRequested
    && t.bindings == s.bindings && t.unbound == s.unbound && t.cancelFired == s.cancelFired
  }

  lemma ResultsKeepCancels(s: State, at: Section)
    requires !Requests(at) && !Binds(at)
    ensures SameCancels(s, Effect(s, at)) && !Requests(After(s, at)) && !Binds(After(s, at))
  {
  }

  lemma RequestCancels(s: State, at: Section)
    requires CancelsAt(s, at) && Requests(at)
    ensures CancelsAt(Effect(s, at), After(s, at))
  {
    match at {
      case RecheckCancel =>
      case SetCancel =>
      case ReadCancelTrigger =>
      case FireCancel(_) =>
    }
  }

  lemma BindCancels(s: State, at: Section)
    requires CancelsAt(s, at) && Binds(at)
    ensures CancelsAt(Effect(s, at), After(s, at))
  {
    match at {
      case TestCancel =>
      case Bind(_) =>
      case Unbind =>
    }
  }

  lemma InsideCancels(s: State, at: Section)
    requires CancelsAt(s, at)
    ensures CancelsAt(Effect(s, at), After(s, at))
  {
    if Requests(at) {
      RequestCancels(s, at);
    } else if Binds(at) {
      BindCancels(s, at);
    } else {
      ResultsKeepCancels(s, at);
    }
  }

  lemma InsideFault(s: State, at: Section)
    requires ResultsAt(s, at) && CancelsAt(s, at)
    ensures Effect(s, at).fault == s.fault
  {
    if Settles(at) {
      SettlingResults(s, at);
    } else if Severs(at) {
      SeveringResults(s, at);
    }
  }

  // ------------------------------------------------------------------------------- the count

  lemma GoCounted(s: State, a: Actor, t: State, pc: Pc)
    requires Counted(s) && a in s.actors && !s.actors[a].AtDestroy? && !pc.AtDestroy?
    requires t.actors == s.actors && t.refs == s.refs && t.alive == s.alive && t.destroyed == s.destroyed
    ensures Counted(Go(t, a, pc))
  {
    var u := Go(t, a, pc);
    assert Holders(u) == Holders(s);
    assert u.actors.Keys == s.actors.Keys;
  }

  lemma NobodyDestroys(s: State, a: Actor)
    requires Counted(s) && a in s.actors && !s.actors[a].AtDestroy?
    ensures forall x :: x in s.actors ==> !s.actors[x].AtDestroy?
  {
    forall x | x in s.actors ensures !s.actors[x].AtDestroy? {
      assert s.actors.Keys == {x} ==> a == x by { assert a in s.actors.Keys; }
    }
  }

  lemma JoinCounted(s: State, a: Actor, b: Actor)
    requires Counted(s) && a in s.actors && !s.actors[a].AtDestroy? && b !in s.actors
    ensures Counted(Join(s, b))
  {
    assert Holders(Join(s, b)) == Holders(s) + {b};
    assert a in Holders(s);
    NobodyDestroys(s, a);
    assert a in Join(s, b).actors.Keys;
  }

  lemma PartCounted(s: State, a: Actor)
    requires Counted(s) && a in s.actors && !s.actors[a].AtDestroy? && s.refs != 1
    ensures Counted(Part(s, a))
  {
    assert a in Holders(s);
    var rest := Holders(s) - {a};
    assert Holders(Part(s, a)) == rest;
    assert |rest| == s.refs - 1 != 0;
    var x :| x in rest;
    assert x in Part(s, a).actors.Keys;
    NobodyDestroys(s, a);
  }

  lemma LastCounted(s: State, a: Actor)
    requires Counted(s) && a in s.actors && !s.actors[a].AtDestroy? && s.refs == 1
    ensures Counted(Go(s.(refs := s.refs - 1), a, AtDestroy))
  {
    var t := Go(s.(refs := s.refs - 1), a, AtDestroy);
    assert a in Holders(s);
    assert |Holders(s) - {a}| == 0;
    assert Holders(t) == Holders(s) - {a};
    NobodyDestroys(s, a);
    forall y | y in s.actors ensures y == a {
      assert y in Holders(s) && y !in Holders(s) - {a};
    }
    assert t.actors.Keys == {a};
  }

  lemma SwapCounted(s: State, a: Actor, goal: Goal, seen: int, b: Actor)
    requires Counted(s) && a in s.actors && s.actors[a] == AtCas(goal, seen) && b !in s.actors
    ensures Counted(Swap(s, a, goal, seen, b))
  {
    if s.refs != seen {
      GoCounted(s, a, s, AtLoad(goal));
    } else if goal.AddRef? {
      GoCounted(s, a, s, Idle);
      JoinCounted(Go(s, a, Idle), a, b);
    } else if seen == 1 {
      LastCounted(s, a);
    } else {
      PartCounted(s, a);
    }
  }

  lemma DestroyCounted(s: State, a: Actor)
    requires Counted(s) && a in s.actors && s.actors[a].AtDestroy?
    ensures s.actors.Keys == {a} && Counted(Destroy(s, a))
  {
    assert Holders(s) == {};
    assert Holders(Destroy(s, a)) == {};
    assert Destroy(s, a).actors.Keys == {};
  }

  // ------------------------------------------------------------------------- the other fields

  /** All of the invariant that is not about places or the count. */
  ghost predicate Rest(s: State) { Results(s) && Cancels(s) && !s.fault }

  /** A step of somebody outside the critical section that changes nothing shared. */
  lemma QuietRest(s: State, t: State, a: Actor, pc: Pc)
    requires Places(s) && Rest(s) && a in s.actors && !s.actors[a].Holding? && !pc.Holding? && !pc.AtDispose?
    requires t == s.(refs := t.refs, leftBound := t.leftBound)
    ensures Rest(Go(t, a, pc))
  {
    InsideSame(s, a, t, pc);
    GoRest(t, a, pc, Inside(s));
  }

  lemma LockRest(s: State, a: Actor, call: Call)
    requires Places(s) && Rest(s) && a in s.actors && s.actors[a] == AtLock(call) && s.mutex.None?
    ensures Rest(Go(s.(mutex := Some(a)), a, Holding(Enter(call))))
  {
    var t := Go(s.(mutex := Some(a)), a, Holding(Enter(call)));
    assert Inside(t) == Enter(call);
  }

  /** While the owner is out to dispose of its trigger, nobody severs the state. */
  lemma OnlyOwnerSevers(s: State)
    requires Places(s) && OWNER in s.actors && !s.actors[OWNER].Holding?
    ensures !Severs(Inside(s))
  {
    assert s.mutex.Some? ==> PlaceOk(s, s.mutex.value, s.actors[s.mutex.value]);
    assert PlaceOk(s, OWNER, s.actors[OWNER]);
  }

  lemma DisposeRest(s: State, a: Actor)
    requires Places(s) && Rest(s) && a in s.actors && s.actors[a].AtDispose?
    ensures !s.trigger
    ensures Rest(Go(Disposing(s, s.actors[a].detached), a, AtLoad(DelRef)))
  {
    assert PlaceOk(s, a, s.actors[a]);
    OnlyOwnerSevers(s);
    var t := Disposing(s, s.actors[a].detached);
    InsideSame(s, a, t, AtLoad(DelRef));
    GoRest(t, a, AtLoad(DelRef), Inside(s));
  }

  lemma JoinRest(s: State, b: Actor)
    requires Places(s) && Rest(s) && b !in s.actors && b > PRODUCER
    ensures Rest(Join(s, b))
  {
    assert Inside(Join(s, b)) == Inside(s);
  }

  lemma PartRest(s: State, a: Actor)
    requires Places(s) && Rest(s) && a in s.actors && !s.actors[a].Holding?
    ensures Rest(Part(s, a))
  {
    assert PlaceOk(s, a, s.actors[a]);
    assert Inside(Part(s, a)) == Inside(s);
  }

  lemma AddRefRest(s: State, a: Actor, b: Actor)
    requires Places(s) && Rest(s) && a in s.actors && !s.actors[a].Holding? && PlaceOk(s, a, Idle)
    requires b !in s.actors && b > PRODUCER
    ensures Rest(Join(Go(s, a, Idle), b))
  {
    QuietRest(s, s, a, Idle);
    MovePlaces(s, a, s, Idle);
    JoinRest(Go(s, a, Idle), b);
  }

  lemma SwapRest(s: State, a: Actor, goal: Goal, seen: int, b: Actor)
    requires Places(s) && Rest(s) && a in s.actors && s.actors[a] == AtCas(goal, seen)
    requires b !in s.actors && b > PRODUCER
    ensures Rest(Swap(s, a, goal, seen, b))
  {
    assert PlaceOk(s, a, s.actors[a]);
    if s.refs != seen {
      QuietRest(s, s, a, AtLoad(goal));
    } else if goal.AddRef? {
      AddRefRest(s, a, b);
    } else if seen == 1 {
      QuietRest(s, s.(refs := s.refs - 1), a, AtDestroy);
    } else {
      PartRest(s, a);
    }
  }

  lemma DestroyRest(s: State, a: Actor)
    requires Places(s) && Rest(s) && Counted(s) && s.actors.Keys == {a} && s.actors[a].AtDestroy?
    ensures Rest(Destroy(s, a))
  {
    assert PlaceOk(s, a, s.actors[a]);
    DestroyPlaces(s, a);
    assert Inside(s) == Unlock && Inside(Destroy(s, a)) == Unlock;
  }

  lemma InsideRest(s: State, a: Actor, at: Section)
    requires Places(s) && Rest(s) && a in s.actors && s.actors[a] == Holding(at)
    ensures Rest(Go(Effect(s, at), a, Next(s, at)))
  {
    assert PlaceOk(s, a, Holding(at));
    InsideNow(s, a);
    InsideAfter(s, a, at);
    InsideFault(s, at);
    InsideCancels(s, at);
    InsideResults(s, at);
    if OWNER in s.actors {
      InsideKeepsDispose(s, at, s.actors[OWNER]);
    }
    GoRest(Effect(s, at), a, Next(s, at), After(s, at));
  }

  lemma GoRest(t: State, a: Actor, pc: Pc, at: Section)
    requires a in t.actors && Inside(Go(t, a, pc)) == at && ResultsAt(t, at) && CancelsAt(t, at) && !t.fault
    requires DisposeOk(t, pc) && (OWNER in t.actors ==> DisposeOk(t, t.actors[OWNER]) || a == OWNER)
    ensures Rest(Go(t, a, pc))
  {
  }

  lemma BeginRest(s: State, step: Step)
    requires Inv(s) && Enabled(s, step) && !step.Advance? && !step.Deliver?
    ensures Rest(Apply(s, step)) && Counted(Apply(s, step))
  {
    match step {
      case Begin(a, call) => StandRest(s, a, s, Apply(s, step).actors[a]);
      case BeginAddRef(a) => StandRest(s, a, s, AtLoad(AddRef));
      case BeginDelRef(a) => StandRest(s, a, LettingGo(s, a), AtLoad(DelRef));
      case Arrive(a) => StandRest(s, a, s, Idle);
    }
  }

  /** Somebody between two calls goes to where it stands next. */
  lemma StandRest(s: State, a: Actor, t: State, pc: Pc)
    requires Places(s) && Rest(s) && Counted(s) && a in s.actors && (s.actors[a].Idle? || s.actors[a].InTransit?)
    requires !pc.Holding? && !pc.AtDispose? && !pc.AtDestroy? && t == s.(leftBound := t.leftBound)
    ensures Rest(Go(t, a, pc)) && Counted(Go(t, a, pc))
  {
    QuietRest(s, t, a, pc);
    GoCounted(s, a, t, pc);
  }

  lemma DeliverRest(s: State)
    requires Inv(s) && Enabled(s, Deliver)
    ensures Rest(RunTrigger(s)) && Counted(RunTrigger(s))
  {
    var t := RunTrigger(s);
    assert OWNER in s.actors.Keys;
    assert Inside(t) == Inside(s);
    assert s.delivered == [] && |s.stored| == 1;
    assert t.delivered == s.stored;
    assert Holders(t) == Holders(s);
  }

  lemma CallRest(s: State, a: Actor, stale: bool, b: Actor)
    requires Inv(s) && Enabled(s, Advance(a, stale, b))
    requires s.actors[a].AtFastPath? || s.actors[a].AtLock? || s.actors[a].AtLoad?
    ensures Rest(Move(s, a, stale, b)) && Counted(Move(s, a, stale, b))
  {
    match s.actors[a] {
      case AtFastPath(call) =>
        var pc := if s.completed && !stale then Idle else AtLock(call);
        QuietRest(s, s, a, pc);
        GoCounted(s, a, s, pc);
      case AtLock(call) =>
        LockRest(s, a, call);
        GoCounted(s, a, s.(mutex := Some(a)), Holding(Enter(call)));
      case AtLoad(goal) =>
        QuietRest(s, s, a, AtCas(goal, s.refs));
        GoCounted(s, a, s, AtCas(goal, s.refs));
    }
  }

  lemma DisposeStep(s: State, a: Actor, stale: bool, b: Actor)
    requires Inv(s) && a in s.actors && s.actors[a].AtDispose?
    ensures Rest(Move(s, a, stale, b)) && Counted(Move(s, a, stale, b))
  {
    DisposeRest(s, a);
    GoCounted(s, a, Disposing(s, s.actors[a].detached), AtLoad(DelRef));
  }

  lemma ReleaseRest(s: State, a: Actor, stale: bool, b: Actor)
    requires Inv(s) && Enabled(s, Advance(a, stale, b)) && (s.actors[a].AtCas? || s.actors[a].AtDestroy?)
    ensures Rest(Move(s, a, stale, b)) && Counted(Move(s, a, stale, b))
  {
    match s.actors[a] {
      case AtCas(goal, seen) =>
        SwapRest(s, a, goal, seen, b);
        SwapCounted(s, a, goal, seen, b);
      case AtDestroy =>
        DestroyCounted(s, a);
        DestroyRest(s, a);
    }
  }

  lemma NextIsNoDestroy(s: State, at: Section)
    ensures !Next(s, at).AtDestroy?
  {
  }

  predicate SameEnd(s: State, t: State) {
    t.alive == s.alive && t.leftBound == s.leftBound && t.tripped == s.tripped
  }

  lemma CallIsNoEnd(s: State, a: Actor, stale: bool, b: Actor)
    requires a in s.actors && (s.actors[a].AtFastPath? || s.actors[a].AtLock? || s.actors[a].AtLoad?)
    ensures SameEnd(s, Move(s, a, stale, b))
  {
    match s.actors[a] {
      case AtFastPath(call) =>
        assert Move(s, a, stale, b) == Go(s, a, if s.completed && !stale then Idle else AtLock(call));
      case AtLock(call) => assert Move(s, a, stale, b) == Go(s.(mutex := Some(a)), a, Holding(Enter(call)));
      case AtLoad(goal) => assert Move(s, a, stale, b) == Go(s, a, AtCas(goal, s.refs));
    }
  }

  lemma ReleaseIsNoEnd(s: State, a: Actor, stale: bool, b: Actor)
    requires a in s.actors && (s.actors[a].AtDispose? || s.actors[a].AtCas?)
    ensures SameEnd(s, Move(s, a, stale, b))
  {
    match s.actors[a] {
      case AtDispose(detached) => assert Move(s, a, stale, b) == Go(Disposing(s, detached), a, AtLoad(DelRef));
      case AtCas(goal, seen) => assert Move(s, a, stale, b) == Swap(s, a, goal, seen, b);
    }
  }

  lemma DestroyTrips(s: State, a: Actor)
    requires Inv(s) && a in s.actors && s.actors[a].AtDestroy?
    ensures Trips(Destroy(s, a))
  {
    assert a in s.actors.Keys;
    DestroyPlaces(s, a);
  }

  lemma StepTrips(s: State, step: Step)
    requires Inv(s) && Enabled(s, step)
    ensures Trips(Apply(s, step))
  {
    match step {
      case Advance(a, stale, b) =>
        if s.actors[a].AtDestroy? {
          DestroyTrips(s, a);
        } else if s.actors[a].AtDispose? || s.actors[a].AtCas? {
          ReleaseIsNoEnd(s, a, stale, b);
        } else if !s.actors[a].Holding? {
          CallIsNoEnd(s, a, stale, b);
        }
      case Deliver =>
      case Begin(a, _) =>
      case BeginAddRef(a) =>
      case BeginDelRef(a) => assert a in s.actors.Keys;
      case Arrive(a) =>
    }
  }

  lemma StepInv(s: State, step: Step)
    requires Inv(s) && Enabled(s, step)
    ensures Inv(Apply(s, step))
  {
    StepPlaces(s, step);
    StepTrips(s, step);
    StepRest(s, step);
  }

  lemma StepRest(s: State, step: Step)
    requires Inv(s) && Enabled(s, step)
    ensures Rest(Apply(s, step)) && Counted(Apply(s, step))
  {
    match step {
      case Advance(a, stale, b) =>
        if s.actors[a].Holding? {
          var at := s.actors[a].at;
          InsideRest(s, a, at);
          NextIsNoDestroy(s, at);
          GoCounted(s, a, Effect(s, at), Next(s, at));
        } else if s.actors[a].AtFastPath? || s.actors[a].AtLock? || s.actors[a].AtLoad? {
          CallRest(s, a, stale, b);
        } else if s.actors[a].AtDispose? {
          DisposeStep(s, a, stale, b);
        } else {
          ReleaseRest(s, a, stale, b);
        }
      case Deliver => DeliverRest(s);
      case Begin(_, _) => BeginRest(s, step);
      case BeginAddRef(_) => BeginRest(s, step);
      case BeginDelRef(_) => BeginRest(s, step);
      case Arrive(_) => BeginRest(s, step);
    }
  }
}
