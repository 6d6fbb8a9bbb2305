/**
 The iterator object, updated in place. The iteration loop is cut where it calls a handler,
 since that is where another coroutine may run.
 */
module ConcurrentIterator {
  import opened IteratorModel
  import opened IteratorProofs

  lemma LoopEnds(s: State, k: nat)
    requires k < |s.cos|
    ensures var t := Loop(s, k);
            k < |t.cos| && t.cos[k] == if s.finished || s.position >= s.total then Left else Handling(s.position)
  {
  }

  lemma SpawnsOne(s: State, ok: bool)
    requires s.queued > 0
    ensures var t := Microtask(s, ok);
            s.cos <= t.cos && |t.cos| - |s.cos| == t.active - s.active <= 1
  {
  }

  class Iterator {
    const total: nat
    const limit: nat
    var finished: bool
    var cancelled: bool
    var active: int
    var position: nat
    var cos: seq<Co>
    var queued: nat
    var refs: int
    var event: bool
    ghost var handed: seq<nat>
    ghost var started: nat
    ghost var stops: nat
    ghost var stopAt: nat
    ghost var notified: nat
    ghost var freed: nat

    ghost function View(): State
      reads this
    {
      State(total, limit, finished, cancelled, active, position, cos, queued, refs, event,
            handed, started, stops, stopAt, notified, freed)
    }

    constructor (total: nat, limit: nat)
      ensures View() == Init(total, limit) && Inv(View())
    {
      this.total, this.limit := total, limit;
      finished, cancelled, active, position := false, false, 1, 0;
      cos, queued, refs, event := [Spawned], 0, 1, true;
      handed, started, stops, stopAt, notified, freed := [], 0, 0, 0, 0, 0;
      new;
      InitInv(total, limit);
    }

    method NotifyCompletion()
      modifies this`event, this`notified
      ensures !event && notified == old(notified) + (if old(event) then 1 else 0)
    {
      if event {
        event := false;
        notified := notified + 1;
      }
    }

    method ReleaseSlot()
      modifies this
      ensures View() == Release(old(View()))
    {
      if active > 1 {
        active := active - 1;
        return;
      }
      active := 0;
      finished := true;
      NotifyCompletion();
    }

    method Drop()
      modifies this
      ensures View() == Unref(old(View()))
    {
      if refs > 1 {
        refs := refs - 1;
        return;
      }
      refs := 0;
      NotifyCompletion();
      freed := freed + 1;
    }

    method LeaveWith(k: nat)
      requires k < |cos|
      modifies this
      ensures View() == Leave(old(View()), k)
    {
      cos := cos[k := Left];
      ReleaseSlot();
      Drop();
    }

    /** From one handler call to the next. */
    method GoRound(k: nat)
      requires k < |cos|
      modifies this
      ensures View() == Loop(old(View()), k)
    {
      if finished {
        LeaveWith(k);
        return;
      }
      if position >= total {
        finished := true;
        cancelled := true;
        LeaveWith(k);
        return;
      }
      cos := cos[k := Handling(position)];
      position := position + 1;
      handed := handed + [k];
    }

    method AddMicrotask()
      modifies this
      ensures View() == Queue(old(View()))
    {
      if cancelled {
        return;
      }
      queued := queued + 1;
      refs := refs + 1;
    }

    method Announce()
      modifies this
      ensures View() == Queue(old(View()).(started := old(started) + 1))
    {
      started := started + 1;
      AddMicrotask();
    }

    method SpawnNext(ok: bool)
      modifies this
      ensures View() == Spawn(old(View()), ok)
    {
      if finished || (limit > 0 && active >= limit) || !ok {
        return;
      }
      refs := refs + 1;
      active := active + 1;
      cos := cos + [Spawned];
    }

    method Consume(ok: bool)
      requires queued > 0
      modifies this
      ensures View() == (if old(cancelled) then old(View()) else Spawn(old(View()), ok)).(queued := old(queued) - 1)
    {
      if !cancelled {
        SpawnNext(ok);
      }
      queued := queued - 1;
    }

    method EndIteration()
      modifies this
      ensures View() == Ended(old(View()))
    {
      stopAt := if stops == 0 then position else stopAt;
      stops := stops + 1;
      finished := true;
      cancelled := true;
    }

    method Enter(k: nat)
      requires k < |cos|
      modifies this
      ensures View() == Start(old(View()), k)
    {
      Announce();
      GoRound(k);
    }

    method GoOn(k: nat, verdict: Verdict)
      requires k < |cos|
      modifies this
      ensures View() == Return(old(View()), k, verdict)
    {
      if !verdict.GoOn? {
        EndIteration();
      }
      GoRound(k);
    }

    method RunQueued(ok: bool)
      requires queued > 0
      modifies this
      ensures View() == Microtask(old(View()), ok)
    {
      Consume(ok);
      Drop();
    }

    // ------------------------------------------------------------------------- the four callbacks

    /** A coroutine begins: it gets the next element, or leaves at once if there is none. */
    method Begin(k: nat)
      requires Inv(View()) && Enabled(View(), Starts(k))
      modifies this
      ensures Inv(View()) && View() == Apply(old(View()), Starts(k))
      ensures k < |cos| && cos[k] == (if old(finished) || old(position) >= total then Left else Handling(old(position)))
    {
      StepInv(View(), Starts(k));
      LoopEnds(Queue(View().(started := started + 1)), k);
      Enter(k);
    }

    /** A handler call returns: its coroutine gets the next element, or leaves if there is none,
        if the iteration is over, or if the call ends it with false or an exception. */
    method HandlerReturns(k: nat, verdict: Verdict)
      requires Inv(View()) && Enabled(View(), Returns(k, verdict))
      modifies this
      ensures Inv(View()) && View() == Apply(old(View()), Returns(k, verdict))
      ensures k < |cos| && cos[k] == (if !verdict.GoOn? || old(finished) || old(position) >= total then Left
                                      else Handling(old(position)))
    {
      StepInv(View(), Returns(k, verdict));
      LoopEnds(if verdict.GoOn? then View() else Ended(View()), k);
      GoOn(k, verdict);
    }

    /** A coroutine is disposed of before it ran: no element is lost with it. */
    method CancelFirst(k: nat)
      requires Inv(View()) && Enabled(View(), CancelledFirst(k))
      modifies this
      ensures Inv(View()) && View() == Apply(old(View()), CancelledFirst(k))
      ensures position == old(position) && active == old(active) - 1
    {
      StepInv(View(), CancelledFirst(k));
      LiveZero(cos, k);
      LeaveWith(k);
    }

    /** The scheduler runs one queued microtask: one more coroutine, or none. */
    method RunMicrotask(ok: bool)
      requires Inv(View()) && Enabled(View(), RunsMicrotask(ok))
      modifies this
      ensures Inv(View()) && View() == Apply(old(View()), RunsMicrotask(ok))
      ensures old(cos) <= cos && |cos| - |old(cos)| == active - old(active) <= 1
    {
      StepInv(View(), RunsMicrotask(ok));
      SpawnsOne(View(), ok);
      RunQueued(ok);
    }
  }
}
