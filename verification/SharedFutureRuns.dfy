/**
 What every run of the cross-thread future state keeps, whatever the interleaving and
 whatever the unlocked reads saw.
 */
module SharedFutureRuns {
  import opened Basics
  import opened SharedFuture
  import opened SharedFutureProofs

  ghost predicate Follows(s: State, t: State) {
    exists step :: Enabled(s, step) && t == Apply(s, step)
  }

  ghost predicate IsRun(run: seq<State>) {
    && |run| > 0
    && (exists bound :: run[0] == Init(bound))
    && forall i :: 0 <= i < |run| - 1 ==> Follows(run[i], run[i + 1])
  }

  /** What no later step takes back. */
  ghost predicate Grows(s: State, t: State) { Settling(s, t) && Cancelling(s, t) }

  /** On the side of the results: an outcome and a completion stay, and a trigger that is gone
      is gone for good. */
  predicate Settling(s: State, t: State) {
    && s.stored <= t.stored && s.delivered <= t.delivered
    && s.fired <= t.fired && s.disposed <= t.disposed && s.destroyed <= t.destroyed
    && (s.completed ==> t.completed)
    && (!s.trigger ==> !t.trigger && t.fired == s.fired && t.delivered == s.delivered)
  }

  /** On the cancellation side: after a request nothing is bound any more, what is
      bound stays so until it is fired, and what was unbound is not fired any more. */
  ghost predicate Cancelling(s: State, t: State) {
    && (s.cancelRequested ==> t.cancelRequested && t.bindings == s.bindings)
    && (s.cancelRequested && s.cancelTrigger.Some? ==>
          s.cancelTrigger.value in t.cancelFired || t.cancelTrigger == s.cancelTrigger)
    && s.unbound <= t.unbound && s.cancelFired <= t.cancelFired
    && (forall c :: c in t.cancelFired && c !in s.cancelFired ==> c !in s.unbound)
  }

  lemma GrowsTrans(s: State, t: State, u: State)
    requires Grows(s, t) && Grows(t, u)
    ensures Grows(s, u)
  {
  }

  lemma EffectCancels(s: State, at: Section)
    requires CancelsAt(s, at)
    ensures Cancelling(s, Effect(s, at))
  {
  }

  lemma EffectSettles(s: State, at: Section)
    requires ResultsAt(s, at)
    ensures Settling(s, Effect(s, at))
  {
    if Settles(at) {
      SettlingSettles(s, at);
    } else if Severs(at) {
      SeveringSettles(s, at);
    } else {
      NeutralKeeps(s, at);
    }
  }

  lemma SettlingSettles(s: State, at: Section)
    requires ResultsAt(s, at) && Settles(at)
    ensures Settling(s, Effect(s, at))
  {
    match at {
      case Recheck(_) =>
      case SetCompleted(_) =>
      case Store(_) =>
      case ReadTrigger =>
      case Fire(_) =>
    }
  }

  lemma SeveringSettles(s: State, at: Section)
    requires ResultsAt(s, at) && Severs(at)
    ensures Settling(s, Effect(s, at))
  {
    match at {
      case Detach =>
      case SetSevered =>
      case ClearTarget(_) =>
      case UnlockAndDispose(_) =>
    }
  }

  lemma EffectGrows(s: State, at: Section)
    requires ResultsAt(s, at) && CancelsAt(s, at)
    ensures Grows(s, Effect(s, at))
  {
    EffectSettles(s, at);
    EffectCancels(s, at);
  }

  lemma GoGrows(s: State, t: State, a: Actor, pc: Pc)
    requires Grows(s, t)
    ensures Grows(s, Go(t, a, pc))
  {
  }

  lemma OutsideGrows(s: State, a: Actor, stale: bool, b: Actor)
    requires a in s.actors && (s.actors[a].AtFastPath? || s.actors[a].AtLock? || s.actors[a].AtLoad?)
    ensures Grows(s, Move(s, a, stale, b))
  {
    match s.actors[a] {
      case AtFastPath(call) => GoGrows(s, s, a, if s.completed && !stale then Idle else AtLock(call));
      case AtLock(call) => GoGrows(s, s.(mutex := Some(a)), a, Holding(Enter(call)));
      case AtLoad(goal) => GoGrows(s, s, a, AtCas(goal, s.refs));
    }
  }

  lemma DisposeGrows(s: State, a: Actor, stale: bool, b: Actor)
    requires a in s.actors && s.actors[a].AtDispose?
    ensures Grows(s, Move(s, a, stale, b))
  {
    GoGrows(s, Disposing(s, s.actors[a].detached), a, AtLoad(DelRef));
  }

  lemma SwapGrows(s: State, a: Actor, goal: Goal, seen: int, b: Actor)
    ensures Grows(s, Swap(s, a, goal, seen, b))
  {
    HoldersGrow(s, s, Swap(s, a, goal, seen, b));
  }

  lemma HoldersGrow(s: State, t: State, u: State)
    requires Grows(s, t) && u == t.(refs := u.refs, actors := u.actors)
    ensures Grows(s, u)
  {
  }

  lemma DestroyGrows(s: State, a: Actor)
    ensures Grows(s, Destroy(s, a))
  {
  }

  lemma ReleaseGrows(s: State, a: Actor, stale: bool, b: Actor)
    requires a in s.actors && (s.actors[a].AtCas? || s.actors[a].AtDestroy?)
    ensures Grows(s, Move(s, a, stale, b))
  {
    match s.actors[a] {
      case AtCas(goal, seen) => SwapGrows(s, a, goal, seen, b);
      case AtDestroy => DestroyGrows(s, a);
    }
  }

  lemma StepGrows(s: State, step: Step)
    requires Inv(s) && Enabled(s, step)
    ensures Grows(s, Apply(s, step))
  {
    match step {
      case Advance(a, stale, b) =>
        if s.actors[a].Holding? {
          var at := s.actors[a].at;
          InsideNow(s, a);
          EffectGrows(s, at);
          GoGrows(s, Effect(s, at), a, Next(s, at));
        } else if s.actors[a].AtCas? || s.actors[a].AtDestroy? {
          ReleaseGrows(s, a, stale, b);
        } else if s.actors[a].AtDispose? {
          DisposeGrows(s, a, stale, b);
        } else {
          OutsideGrows(s, a, stale, b);
        }
      case Deliver =>
      case Begin(a, _) => GoGrows(s, s, a, Apply(s, step).actors[a]);
      case BeginAddRef(a) => GoGrows(s, s, a, AtLoad(AddRef));
      case BeginDelRef(a) => GoGrows(s, s, a, AtLoad(DelRef));
      case Arrive(a) => GoGrows(s, s, a, Idle);
    }
  }

  lemma FollowsGrows(s: State, t: State)
    requires Inv(s) && Follows(s, t)
    ensures Inv(t) && Grows(s, t)
  {
    var step :| Enabled(s, step) && t == Apply(s, step);
    StepInv(s, step);
    StepGrows(s, step);
  }

  lemma {:induction false} RunInv(run: seq<State>, i: nat)
    requires IsRun(run) && i < |run|
    ensures Inv(run[i])
  {
    if i == 0 {
      var bound :| run[0] == Init(bound);
      InitInv(bound);
    } else {
      RunInv(run, i - 1);
      assert Follows(run[i - 1], run[i - 1 + 1]);
      FollowsGrows(run[i - 1], run[i]);
    }
  }

  lemma {:induction false} ChainGrows(run: seq<State>, i: nat, j: nat)
    requires i <= j < |run| && forall k :: 0 <= k < |run| - 1 ==> Grows(run[k], run[k + 1])
    ensures Grows(run[i], run[j])
  {
    if i < j {
      ChainGrows(run, i, j - 1);
      assert Grows(run[j - 1], run[j - 1 + 1]);
      GrowsTrans(run[i], run[j - 1], run[j]);
    }
  }

  lemma RunGrows(run: seq<State>, i: nat, j: nat)
    requires IsRun(run) && i <= j < |run|
    ensures Inv(run[i]) && Inv(run[j]) && Grows(run[i], run[j])
  {
    forall k | 0 <= k < |run| - 1 ensures Grows(run[k], run[k + 1]) {
      RunInv(run, k);
      FollowsGrows(run[k], run[k + 1]);
    }
    ChainGrows(run, i, j);
    RunInv(run, i);
    RunInv(run, j);
  }

  // ---------------------------------------------------------------- the trigger is not leaked

  /** The owner has detached the trigger and not disposed of it yet. */
  predicate Owing(pc: Pc) {
    match pc
    case Holding(SetSevered) => true
    case Holding(ClearTarget(detached)) => detached
    case Holding(UnlockAndDispose(detached)) => detached
    case AtDispose(detached) => detached
    case _ => false
  }

  function TriggersWith(s: State, pc: Pc): nat { One(s.trigger) + One(Owing(pc)) + s.disposed }

  /** The result trigger wherever it is: attached, in the owner's hands, or disposed of. */
  function Triggers(s: State): nat {
    TriggersWith(s, if OWNER in s.actors then s.actors[OWNER] else Idle)
  }

  lemma SeveringTriggers(s: State, at: Section)
    requires Severs(at)
    ensures TriggersWith(Effect(s, at), Next(s, at)) == TriggersWith(s, Holding(at))
  {
  }

  lemma OtherTriggers(s: State, at: Section)
    requires !Severs(at)
    ensures Effect(s, at).trigger == s.trigger && Effect(s, at).disposed == s.disposed
  {
    if Settles(at) {
      assert Effect(s, at).trigger == s.trigger;
    } else {
      NeutralKeeps(s, at);
    }
  }

  lemma OtherOwesNothing(s: State, at: Section)
    requires !Severs(at)
    ensures !Owing(Next(s, at)) && !Owing(Holding(at))
  {
  }

  lemma InsideTriggers(s: State, a: Actor, at: Section)
    requires Places(s) && a in s.actors && s.actors[a] == Holding(at)
    ensures Triggers(Go(Effect(s, at), a, Next(s, at))) == Triggers(s)
  {
    assert PlaceOk(s, a, Holding(at));
    if Severs(at) {
      SeveringTriggers(s, at);
    } else {
      OtherTriggers(s, at);
      OtherOwesNothing(s, at);
    }
  }

  lemma GoTriggers(s: State, t: State, a: Actor, pc: Pc)
    requires a in s.actors && !Owing(s.actors[a]) && !Owing(pc)
    requires t.trigger == s.trigger && t.disposed == s.disposed && t.actors == s.actors
    ensures Triggers(Go(t, a, pc)) == Triggers(s)
  {
  }

  lemma JoinTriggers(s: State, b: Actor)
    requires b > PRODUCER
    ensures Triggers(Join(s, b)) == Triggers(s)
  {
  }

  lemma PartTriggers(s: State, a: Actor)
    requires a in s.actors && !Owing(s.actors[a])
    ensures Triggers(Part(s, a)) == Triggers(s)
  {
  }

  lemma SwapTriggers(s: State, a: Actor, goal: Goal, seen: int, b: Actor)
    requires a in s.actors && s.actors[a] == AtCas(goal, seen) && b > PRODUCER
    ensures Triggers(Swap(s, a, goal, seen, b)) == Triggers(s)
  {
    if s.refs != seen {
      GoTriggers(s, s, a, AtLoad(goal));
    } else if goal.AddRef? {
      GoTriggers(s, s, a, Idle);
      JoinTriggers(Go(s, a, Idle), b);
    } else if seen == 1 {
      GoTriggers(s, s.(refs := s.refs - 1), a, AtDestroy);
    } else {
      PartTriggers(s, a);
    }
  }

  lemma DisposeTriggers(s: State, a: Actor, detached: bool)
    requires Places(s) && a in s.actors && s.actors[a] == AtDispose(detached)
    ensures Triggers(Go(Disposing(s, detached), a, AtLoad(DelRef))) == Triggers(s)
  {
    assert PlaceOk(s, a, s.actors[a]);
  }

  lemma DestroyTriggers(s: State, a: Actor)
    requires Places(s) && s.actors.Keys == {a} && s.actors[a].AtDestroy?
    ensures Triggers(Destroy(s, a)) == Triggers(s)
  {
    DestroyPlaces(s, a);
  }

  lemma OutsideTriggers(s: State, a: Actor, stale: bool, b: Actor)
    requires Inv(s) && Enabled(s, Advance(a, stale, b)) && !s.actors[a].Holding?
    ensures Triggers(Move(s, a, stale, b)) == Triggers(s)
  {
    match s.actors[a] {
      case AtFastPath(call) => GoTriggers(s, s, a, if s.completed && !stale then Idle else AtLock(call));
      case AtLock(call) => GoTriggers(s, s.(mutex := Some(a)), a, Holding(Enter(call)));
      case AtDispose(detached) => DisposeTriggers(s, a, detached);
      case AtLoad(goal) => GoTriggers(s, s, a, AtCas(goal, s.refs));
      case AtCas(goal, seen) => SwapTriggers(s, a, goal, seen, b);
      case AtDestroy => DestroyTriggers(s, a);
    }
  }

  lemma StepTriggers(s: State, step: Step)
    requires Inv(s) && Enabled(s, step)
    ensures Triggers(Apply(s, step)) == Triggers(s)
  {
    match step {
      case Advance(a, stale, b) =>
        if s.actors[a].Holding? {
          InsideTriggers(s, a, s.actors[a].at);
        } else {
          OutsideTriggers(s, a, stale, b);
        }
      case Deliver =>
      case Begin(a, _) => GoTriggers(s, s, a, Apply(s, step).actors[a]);
      case BeginAddRef(a) => GoTriggers(s, s, a, AtLoad(AddRef));
      case BeginDelRef(a) => GoTriggers(s, s, a, AtLoad(DelRef));
      case Arrive(a) => GoTriggers(s, s, a, Idle);
    }
  }

  lemma {:induction false} RunTriggers(run: seq<State>, i: nat)
    requires IsRun(run) && i < |run|
    ensures Triggers(run[i]) == Triggers(run[0])
  {
    if i > 0 {
      RunTriggers(run, i - 1);
      RunInv(run, i - 1);
      assert Follows(run[i - 1], run[i - 1 + 1]);
      var step :| Enabled(run[i - 1], step) && run[i] == Apply(run[i - 1], step);
      StepTriggers(run[i - 1], step);
    }
  }

  // ------------------------------------------------------------------------------- theorems

  /** At most one outcome is ever stored and it stays; the trigger fires at most once, only
      after the outcome was stored, and never again after its owner detached it; what is
      delivered is what was stored. */
  lemma SettledOnce(run: seq<State>, i: nat, j: nat)
    requires IsRun(run) && i <= j < |run|
    ensures |run[j].stored| <= 1 && run[i].stored <= run[j].stored
    ensures run[j].fired <= |run[j].stored|
    ensures !run[i].trigger ==> run[j].fired == run[i].fired && run[j].delivered == run[i].delivered
    ensures run[i].delivered <= run[j].delivered <= run[j].stored
    ensures !run[j].fault
  {
    RunGrows(run, i, j);
  }

  /** No completion is lost: while the trigger is attached and nobody is inside, a completed
      state has stored its outcome and fired, and the outcome waits for the owner's loop or
      has been delivered. */
  lemma CompletionNotLost(run: seq<State>, i: nat)
    requires IsRun(run) && i < |run|
    requires run[i].completed && run[i].trigger && run[i].mutex.None?
    ensures |run[i].stored| == 1 && run[i].fired == 1
    ensures run[i].delivered == run[i].stored || run[i].outcome == Some(run[i].stored[0])
    ensures OWNER in run[i].actors
    ensures run[i].delivered == [] && run[i].actors[OWNER].Idle? ==> Enabled(run[i], Deliver)
  {
    RunInv(run, i);
    assert Inside(run[i]) == Unlock;
    assert OWNER in run[i].actors.Keys;
    assert run[i].alive;
  }

  /** Once a cancellation request took effect every later bind is refused, and the trigger
      that was bound then has been fired as soon as the requester is out again. */
  lemma CancellationNotLost(run: seq<State>, i: nat, j: nat)
    requires IsRun(run) && i <= j < |run| && run[i].cancelRequested
    ensures run[j].cancelRequested && run[j].bindings == run[i].bindings
    ensures run[i].cancelTrigger.Some? && !Requests(Inside(run[j])) ==>
              run[i].cancelTrigger.value in run[j].cancelFired
  {
    RunGrows(run, i, j);
  }

  /** A cancel trigger that was unbound is never fired any more. */
  lemma UnboundIsSafe(run: seq<State>, i: nat, j: nat, c: nat)
    requires IsRun(run) && i <= j < |run| && c in run[i].unbound
    ensures c in run[j].cancelFired <==> c in run[i].cancelFired
  {
    RunGrows(run, i, j);
  }

  /** The count is the number of live holders, and the state is destroyed at most once: by
      the holder that took the count to zero, alone; after that no step of anybody is possible.
      Its assertion that no cancel trigger is bound fails exactly if the producer let go with
      one bound. */
  lemma Lifetime(run: seq<State>, i: nat)
    requires IsRun(run) && i < |run|
    ensures run[i].refs == |Holders(run[i])|
    ensures run[i].destroyed == One(run[i].actors.Keys == {})
    ensures run[i].destroyed == 1 ==> i == |run| - 1 && run[i].refs == 0
    ensures forall a :: a in run[i].actors && run[i].actors[a].AtDestroy? ==>
              run[i].actors.Keys == {a} && run[i].refs == 0
    ensures run[i].tripped <==> run[i].destroyed == 1 && run[i].leftBound
  {
    RunInv(run, i);
    LifetimeOf(run[i]);
    if run[i].destroyed == 1 && i < |run| - 1 {
      assert Follows(run[i], run[i + 1]);
      NothingFollows(run[i]);
    }
  }

  lemma LifetimeOf(s: State)
    requires Inv(s)
    ensures s.actors.Keys == {} ==> s.refs == 0
    ensures forall a :: a in s.actors && s.actors[a].AtDestroy? ==>
              s.actors.Keys == {a} && s.refs == 0 && (s.cancelTrigger.Some? <==> s.leftBound)
  {
    if s.actors.Keys == {} {
      assert Holders(s) == {};
    }
    forall a | a in s.actors && s.actors[a].AtDestroy?
      ensures s.refs == 0 && (s.cancelTrigger.Some? <==> s.leftBound)
    {
      assert Holders(s) == {};
      DestroyPlaces(s, a);
    }
  }

  lemma NothingFollows(s: State)
    requires s.actors.Keys == {}
    ensures forall step :: !Enabled(s, step)
  {
    assert forall a :: a in s.actors <==> a in s.actors.Keys;
  }

  /** When the state is gone, its result trigger, if it could be created, was disposed of
      exactly once; before that it is attached, in the owner's hands or disposed of. */
  lemma TriggerDisposedOnce(run: seq<State>, i: nat)
    requires IsRun(run) && i < |run|
    ensures Triggers(run[i]) == One(run[0].trigger)
    ensures run[i].destroyed == 1 ==> run[i].disposed == One(run[0].trigger)
  {
    RunTriggers(run, i);
    RunInv(run, i);
    assert OWNER in run[i].actors ==> OWNER in run[i].actors.Keys;
  }
}
