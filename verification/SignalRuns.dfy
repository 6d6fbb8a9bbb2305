/**
 The registry over whole runs.
 */
module SignalRuns {
  import opened SignalModel
  import opened SignalProofs

  // ------------------------------------------------------------------- the replaced disposition

  /** How a step of the reactor moves a disposition: an install keeps it, the handler's life
      leaves it alone, and a release brings it back. */
  predicate Moves(s: State, t: State, sig: Signal) {
    if sig in s.handlers then
      sig in s.saved &&
      if sig in t.handlers then sig in t.saved && t.saved[sig] == s.saved[sig]
      else DispositionOf(t, sig) == s.saved[sig]
    else if sig in t.handlers then sig in t.saved && t.saved[sig] == DispositionOf(s, sig)
    else DispositionOf(t, sig) == DispositionOf(s, sig)
  }

  lemma InstallMoves(s: State, x: Signal, sig: Signal)
    requires Saved(s)
    ensures Moves(s, Install(s, x), sig)
  {
    assert sig in s.handlers <==> sig in s.saved.Keys;
    assert x in s.handlers <==> x in s.saved.Keys;
  }

  lemma LetGoMoves(s: State, x: Signal, sig: Signal)
    requires Saved(s)
    ensures Moves(s, LetGo(s, x), sig)
  {
    assert sig in s.handlers <==> sig in s.saved.Keys;
  }

  lemma StillMoves(s: State, t: State, sig: Signal)
    requires Saved(s) && t.handlers == s.handlers && t.saved == s.saved && t.os == s.os
    ensures Moves(s, t, sig)
  {
    assert sig in s.handlers <==> sig in s.saved.Keys;
  }

  lemma UnlistMoves(s: State, e: Process, pid: Pid, sig: Signal)
    requires Saved(s)
    ensures Moves(s, Unlist(s, e, pid), sig)
  {
    var t := if pid in s.table && s.table[pid] == e then s.(table := s.table - {pid}) else s;
    assert Saved(t) by {
      assert forall x :: DispositionOf(t, x) == DispositionOf(s, x);
    }
    StillMoves(s, s, sig);
    StillMoves(s, t, sig);
    LetGoMoves(t, SIGCHLD, sig);
  }

  lemma StartMoves(s: State, e: Process, wait: Wait, sig: Signal)
    requires Inv(s) && e in s.events
    ensures Moves(s, Start(s, e, wait), sig)
  {
    StillMoves(s, s, sig);
    InstallMoves(s, SIGCHLD, sig);
    InstallInv(s, SIGCHLD);
    if wait.Error? && !s.events[e].closed && s.events[e].loops == 0 {
      var t := SetEvent(Install(s, SIGCHLD), e, s.events[e].(failed := true));
      assert Saved(t) by {
        assert forall x :: DispositionOf(t, x) == DispositionOf(Install(s, SIGCHLD), x);
      }
      UnlistMoves(t, e, s.events[e].pid, sig);
    }
  }

  lemma StopMoves(s: State, e: Process, sig: Signal)
    requires Inv(s) && e in s.events
    ensures Moves(s, Stop(s, e), sig)
  {
    StillMoves(s, s, sig);
    var t := SetEvent(s, e, s.events[e].(loops := 0, closed := true));
    assert Saved(t) by {
      assert forall x :: DispositionOf(t, x) == DispositionOf(s, x);
    }
    UnlistMoves(t, e, s.events[e].pid, sig);
  }

  lemma FreeMoves(s: State, e: Process, pid: Pid, sig: Signal)
    requires Saved(s)
    ensures Moves(s, Unlist(s.(events := s.events - {e}), e, pid), sig)
  {
    var t := s.(events := s.events - {e});
    assert Saved(t) by {
      assert forall x :: DispositionOf(t, x) == DispositionOf(s, x);
    }
    UnlistMoves(t, e, pid, sig);
  }

  lemma DisposeMoves(s: State, e: Process, sig: Signal)
    requires Inv(s) && e in s.events
    ensures Moves(s, Dispose(s, e), sig)
  {
    var event := s.events[e];
    StillMoves(s, s, sig);
    if event.refs <= 1 && event.loops > 0 {
      var u := SetEvent(s, e, event.(loops := 1));
      EventInv(s, e, event.(loops := 1));
      StopInv(u, e);
      StopMoves(u, e, sig);
      FreeMoves(Stop(u, e), e, event.pid, sig);
    } else {
      FreeMoves(s, e, event.pid, sig);
    }
  }

  /** Every step but the core's own installs. */
  lemma StepMoves(s: State, step: Step, sig: Signal)
    requires Inv(s) && Enabled(s, step)
    requires step.Sets? && step.sig == sig ==> sig in Apply(s, step).handlers
    ensures Moves(s, Apply(s, step), sig)
  {
    StillMoves(s, s, sig);
    match step {
      case Adds(x, w) => InstallMoves(s, x, sig);
      case Removes(x, w) => RemoveMoves(s, x, w, sig);
      case Sets(x, d) => assert sig in s.handlers <==> sig in s.saved.Keys;
      case Creates(pid, e) => StillMoves(s, NewEvent(s, pid, e), sig);
      case Starts(e, wait) => StartMoves(s, e, wait, sig);
      case Stops(e) => StopMoves(s, e, sig);
      case Disposes(e) => DisposeMoves(s, e, sig);
    }
  }

  lemma RemoveMoves(s: State, x: Signal, w: Waiter, sig: Signal)
    requires Inv(s)
    ensures Moves(s, RemoveWaiter(s, x, w), sig)
  {
    StillMoves(s, s, sig);
    if x in s.waiters {
      var t := s.(waiters := s.waiters - {x});
      FewerWaiters(s, t, x);
      LetGoMoves(t, x, sig);
      StillMoves(s, t, sig);
      if s.waiters[x] - {w} != {} {
        StillMoves(s, RemoveWaiter(s, x, w), sig);
      }
    }
  }

  // --------------------------------------------------------------------------------------- runs

  ghost predicate IsRun(run: seq<State>, steps: seq<Step>) {
    && |run| == |steps| + 1
    && (exists os :: run[0] == Init(os) && NotOurs(os))
    && forall i :: 0 <= i < |steps| ==> Enabled(run[i], steps[i]) && run[i + 1] == Apply(run[i], steps[i])
  }

  lemma StepInv(s: State, step: Step)
    requires Inv(s) && Enabled(s, step)
    ensures Inv(Apply(s, step))
  {
    match step {
      case Adds(sig, w) => AddInv(s, sig, w);
      case Removes(sig, w) => RemoveInv(s, sig, w);
      case Sets(sig, d) => SetsInv(s, sig, d);
      case Creates(pid, e) => CreateInv(s, pid, e);
      case Starts(e, wait) => StartInv(s, e, wait);
      case Stops(e) => StopInv(s, e);
      case Disposes(e) => DisposeInv(s, e);
    }
  }

  predicate UnaccountedStep(s: State, step: Step) {
    step.Starts? && step.e in s.events && Unaccounted(s, step.e)
  }

  lemma StepNeededIff(s: State, step: Step)
    requires Inv(s) && OnlyNeeded(s) && Enabled(s, step)
    ensures OnlyNeeded(Apply(s, step)) <==> !UnaccountedStep(s, step)
  {
    match step {
      case Adds(sig, w) => AddInv(s, sig, w);
      case Removes(sig, w) => RemoveInv(s, sig, w);
      case Sets(sig, d) => SetsNeeded(s, sig, d);
      case Creates(pid, e) => CreateInv(s, pid, e);
      case Starts(e, wait) => StartNeededIff(s, e, wait);
      case Stops(e) => StopInv(s, e);
      case Disposes(e) => DisposeInv(s, e);
    }
  }

  lemma {:induction false} RunInv(run: seq<State>, steps: seq<Step>, i: nat)
    requires IsRun(run, steps) && i < |run|
    ensures Inv(run[i])
  {
    if i == 0 {
      var os :| run[0] == Init(os) && NotOurs(os);
      InitInv(os);
    } else {
      RunInv(run, steps, i - 1);
      StepInv(run[i - 1], steps[i - 1]);
    }
  }

  // ------------------------------------------------------------------------------------ theorems

  /** A signal that is waited for, and SIGCHLD while a listed process event is started, has its
      handler; the system calls the reactor exactly for the signals that have one. */
  lemma HandlerWhereWaited(run: seq<State>, steps: seq<Step>, i: nat, sig: Signal)
    requires IsRun(run, steps) && i < |run|
    ensures Waited(run[i], sig) ==> sig in run[i].handlers
    ensures sig in run[i].handlers <==> DispositionOf(run[i], sig).Reactor?
    ensures Watching(run[i])
  {
    RunInv(run, steps, i);
  }

  ghost predicate AlwaysNeeded(run: seq<State>, n: nat)
    requires n < |run|
  {
    forall i :: 0 <= i <= n ==> OnlyNeeded(run[i])
  }

  ghost predicate AllAccounted(run: seq<State>, steps: seq<Step>, n: nat)
    requires n <= |steps| && n < |run|
  {
    forall i :: 0 <= i < n ==> !UnaccountedStep(run[i], steps[i])
  }

  /** A handler is never installed without a waiter, a chain subscription or a listed process
      event, exactly if no step starts a process event that nothing accounts for. */
  lemma {:induction false} HandlerOnlyIf(run: seq<State>, steps: seq<Step>, n: nat)
    requires IsRun(run, steps) && n < |run|
    ensures AlwaysNeeded(run, n) <==> AllAccounted(run, steps, n)
  {
    if n == 0 {
      var os :| run[0] == Init(os) && NotOurs(os);
      InitInv(os);
    } else {
      HandlerOnlyIf(run, steps, n - 1);
      RunInv(run, steps, n - 1);
      var last := run[n];
      assert last == Apply(run[n - 1], steps[n - 1]) && Enabled(run[n - 1], steps[n - 1]);
      if AlwaysNeeded(run, n - 1) {
        assert OnlyNeeded(run[n - 1]);
        StepNeededIff(run[n - 1], steps[n - 1]);
        assert AlwaysNeeded(run, n) <==> OnlyNeeded(last);
        assert AllAccounted(run, steps, n) <==> !UnaccountedStep(run[n - 1], steps[n - 1]);
      } else {
        assert !AlwaysNeeded(run, n) && !AllAccounted(run, steps, n);
      }
    }
  }

  /** Only an event whose watch was given up is ever started unaccounted for. */
  lemma UnaccountedOnlyAfterFailure(run: seq<State>, steps: seq<Step>, i: nat, e: Process)
    requires IsRun(run, steps) && i < |run| && e in run[i].events && Unaccounted(run[i], e)
    ensures run[i].events[e].failed
  {
    RunInv(run, steps, i);
    assert !run[i].events[e].failed ==> Watched(run[i], e, run[i].events[e]);
  }

  /** The start of a process event fails, the event is started again and then disposed of: the
      handler stays, and nothing is left that would ever take it away. */
  lemma HandlerLeftBehind(pid: Pid, e: Process) returns (run: seq<State>, steps: seq<Step>)
    ensures IsRun(run, steps) && |run| == 5
    ensures var t := run[4];
            t.handlers == map[SIGCHLD := false] && t.waiters == map[] && t.table == map[] && t.events == map[]
  {
    LeftBehind(pid, e);
    run, steps := [Init(map[])], [];
    assert NotOurs(map[]) && IsRun(run, steps);
    run, steps := Extend(run, steps, Creates(pid, e));
    run, steps := Extend(run, steps, Starts(e, Error));
    run, steps := Extend(run, steps, Starts(e, Exited));
    run, steps := Extend(run, steps, Disposes(e));
  }

  lemma Extend(run: seq<State>, steps: seq<Step>, step: Step) returns (run': seq<State>, steps': seq<Step>)
    requires IsRun(run, steps) && Enabled(run[|run| - 1], step)
    ensures run' == run + [Apply(run[|run| - 1], step)] && steps' == steps + [step] && IsRun(run', steps')
  {
    run', steps' := run + [Apply(run[|run| - 1], step)], steps + [step];
    assert run'[0] == run[0];
    forall i | 0 <= i < |steps'| ensures Enabled(run'[i], steps'[i]) && run'[i + 1] == Apply(run'[i], steps'[i]) {
      assert i < |steps| ==> Enabled(run[i], steps[i]) && run[i + 1] == Apply(run[i], steps[i]);
    }
  }

  lemma LeftBehind(pid: Pid, e: Process)
    ensures var s := Start(NewEvent(Init(map[]), pid, e), e, Error);
            && e in s.events && s.handlers == map[] && e in Start(s, e, Exited).events
            && var t := Dispose(Start(s, e, Exited), e);
               t.handlers == map[SIGCHLD := false] && t.waiters == map[] && t.table == map[] && t.events == map[]
  {
    var s0 := NewEvent(Init(map[]), pid, e);
    assert s0.table == map[pid := e] && s0.events == map[e := Event(pid, 0, false, 1, false)];
    var s := Start(s0, e, Error);
    assert pid in s0.table;
    assert s0.table - {pid} == map[];
    assert s.handlers == map[] && s.events == map[e := Event(pid, 0, false, 1, true)] && s.table == map[];
    var t := Start(s, e, Exited);
    assert t.handlers == map[SIGCHLD := false] && t.table == map[];
  }

  lemma RunMoves(run: seq<State>, steps: seq<Step>, k: nat, sig: Signal)
    requires IsRun(run, steps) && k < |steps|
    requires steps[k].Sets? && steps[k].sig == sig ==> sig in run[k + 1].handlers
    ensures Moves(run[k], run[k + 1], sig)
  {
    RunInv(run, steps, k);
    StepMoves(run[k], steps[k], sig);
  }

  /** What was under a handler that came after state `s` is kept, or is back. */
  predicate Kept(s: State, t: State, sig: Signal) {
    if sig in t.handlers then sig in t.saved && t.saved[sig] == DispositionOf(s, sig)
    else DispositionOf(t, sig) == DispositionOf(s, sig)
  }

  lemma {:induction false} KeptAlong(run: seq<State>, i: nat, j: nat, sig: Signal)
    requires i < j < |run| && sig !in run[i].handlers
    requires forall k :: i < k < j ==> sig in run[k].handlers
    requires forall k :: i <= k < j ==> Moves(run[k], run[k + 1], sig)
    ensures Kept(run[i], run[j], sig)
    decreases j
  {
    assert Moves(run[j - 1], run[j - 1 + 1], sig);
    if j - 1 > i {
      KeptAlong(run, i, j - 1, sig);
    }
  }

  lemma RunMovesAt(run: seq<State>, steps: seq<Step>, j: nat, k: nat, sig: Signal)
    requires IsRun(run, steps) && k < j < |run|
    requires k + 1 < j ==> sig in run[k + 1].handlers
    requires steps[j - 1].Sets? && steps[j - 1].sig == sig ==> sig in run[j].handlers
    ensures Moves(run[k], run[k + 1], sig)
  {
    if k + 1 == j {
      assert steps[k] == steps[j - 1];
    }
    RunMoves(run, steps, k, sig);
  }

  /** The disposition under a handler is kept while the handler is there and comes back when it
      goes, whatever happened in between. */
  lemma Restored(run: seq<State>, steps: seq<Step>, i: nat, j: nat, sig: Signal)
    requires IsRun(run, steps) && i < j < |run| && sig !in run[i].handlers
    requires forall k :: i < k < j ==> sig in run[k].handlers
    requires steps[j - 1].Sets? && steps[j - 1].sig == sig ==> sig in run[j].handlers
    ensures Kept(run[i], run[j], sig)
  {
    forall k | i <= k < j ensures Moves(run[k], run[k + 1], sig) {
      assert k + 1 < j ==> sig in run[k + 1].handlers;
      RunMovesAt(run, steps, j, k, sig);
    }
    KeptAlong(run, i, j, sig);
  }
}
