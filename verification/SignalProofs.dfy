/**
 When a signal has a reactor handler, and what becomes of the disposition it replaced.
 */
module SignalProofs {
  import opened SignalModel

  // --------------------------------------------------------------------------------- invariants

  /** Who waits for a signal has a handler. */
  ghost predicate Handled(s: State) {
    forall sig :: sig in s.waiters ==> s.waiters[sig] != {} && sig in s.handlers
  }

  /** The handler is what the system calls, exactly while the replaced disposition is kept. */
  ghost predicate Saved(s: State) {
    && s.handlers.Keys == s.saved.Keys
    && (forall sig :: sig in s.saved ==> !s.saved[sig].Reactor?)
    && (forall sig :: DispositionOf(s, sig).Reactor? <==> sig in s.handlers)
  }

  predicate Watched(s: State, e: Process, event: Event) {
    event.pid in s.table && s.table[event.pid] == e
  }

  predicate InUse(event: Event) { !event.closed && !event.failed }

  /** The table lists the events that are neither closed nor given up, each under its pid. */
  ghost predicate Listed(s: State) {
    && (forall e :: e in s.events && !s.events[e].closed && !s.events[e].failed ==> Watched(s, e, s.events[e]))
    && (forall pid :: pid in s.table ==>
          var e := s.table[pid];
          e in s.events && s.events[e].pid == pid && !s.events[e].closed && !s.events[e].failed)
  }

  /** A process that is waited for has the SIGCHLD handler. */
  ghost predicate Watching(s: State) {
    forall e :: e in s.events && s.events[e].loops > 0 && !s.events[e].closed && !s.events[e].failed ==>
      SIGCHLD in s.handlers
  }

  ghost predicate Inv(s: State) { Handled(s) && Saved(s) && Listed(s) && Watching(s) }

  /** A handler is installed only with a reason. */
  predicate Needed(s: State, sig: Signal) { Waited(s, sig) || Chained(s, sig) || HasProcesses(s, sig) }

  ghost predicate OnlyNeeded(s: State) { forall sig :: sig in s.handlers ==> Needed(s, sig) }

  /** No disposition is the reactor's yet. */
  ghost predicate NotOurs(os: map<Signal, Disposition>) { forall sig :: sig in os ==> !os[sig].Reactor? }

  lemma InitInv(os: map<Signal, Disposition>)
    requires NotOurs(os)
    ensures Inv(Init(os)) && OnlyNeeded(Init(os))
  {
  }

  // --------------------------------------------------------------------------- handlers, waiters

  lemma InstallInv(s: State, sig: Signal)
    requires Inv(s)
    ensures Inv(Install(s, sig)) && sig in Install(s, sig).handlers
  {
    var t := Install(s, sig);
    assert sig !in s.handlers ==> sig !in s.saved.Keys;
    assert forall x :: x != sig ==> DispositionOf(t, x) == DispositionOf(s, x);
  }

  /** Taking a handler away is safe when nobody waits and no process is listed. */
  lemma UninstallInv(s: State, sig: Signal)
    requires Inv(s) && sig in s.handlers && !Waited(s, sig) && !HasProcesses(s, sig)
    ensures Inv(Uninstall(s, sig)) && !DispositionOf(Uninstall(s, sig), sig).Reactor?
  {
    var t := Uninstall(s, sig);
    assert sig in s.saved.Keys && sig !in s.waiters;
    assert forall x :: x != sig ==> DispositionOf(t, x) == DispositionOf(s, x);
  }

  lemma LetGoInv(s: State, sig: Signal)
    requires Inv(s) && !Waited(s, sig) && !HasProcesses(s, sig)
    ensures Inv(LetGo(s, sig))
  {
    if sig in s.handlers && !s.handlers[sig] {
      UninstallInv(s, sig);
    }
  }

  lemma LetGoNeeded(s: State, sig: Signal)
    requires forall x :: x in s.handlers && x != sig ==> Needed(s, x)
    requires !Waited(s, sig) && !HasProcesses(s, sig)
    ensures OnlyNeeded(LetGo(s, sig))
  {
    var t := LetGo(s, sig);
    forall x | x in t.handlers ensures Needed(t, x) {
      assert x != sig ==> Needed(s, x);
    }
  }

  lemma AddInv(s: State, sig: Signal, w: Waiter)
    requires Inv(s)
    ensures Inv(AddWaiter(s, sig, w)) && (OnlyNeeded(s) ==> OnlyNeeded(AddWaiter(s, sig, w)))
  {
    InstallInv(s, sig);
    var t := AddWaiter(s, sig, w);
    assert w in t.waiters[sig];
    assert forall x :: DispositionOf(t, x) == DispositionOf(Install(s, sig), x);
    if OnlyNeeded(s) {
      forall x | x in t.handlers ensures Needed(t, x) {
        assert x != sig ==> Needed(s, x);
      }
    }
  }

  lemma FewerWaiters(s: State, t: State, sig: Signal)
    requires Inv(s) && sig in s.waiters && t == s.(waiters := t.waiters)
    requires sig in t.waiters ==> t.waiters[sig] != {} && t.waiters == s.waiters[sig := t.waiters[sig]]
    requires sig !in t.waiters ==> t.waiters == s.waiters - {sig}
    ensures Inv(t)
  {
    assert forall x :: DispositionOf(t, x) == DispositionOf(s, x);
  }

  lemma RemoveInv(s: State, sig: Signal, w: Waiter)
    requires Inv(s)
    ensures Inv(RemoveWaiter(s, sig, w)) && (OnlyNeeded(s) ==> OnlyNeeded(RemoveWaiter(s, sig, w)))
  {
    if sig in s.waiters {
      var left := s.waiters[sig] - {w};
      if left != {} {
        FewerWaiters(s, RemoveWaiter(s, sig, w), sig);
        if OnlyNeeded(s) {
          forall x | x in s.handlers ensures Needed(RemoveWaiter(s, sig, w), x) {
            assert Needed(s, x);
          }
        }
      } else {
        var t := s.(waiters := s.waiters - {sig});
        FewerWaiters(s, t, sig);
        if OnlyNeeded(s) {
          forall x | x in s.handlers && x != sig ensures Needed(t, x) {
            assert Needed(s, x);
          }
        }
        if !HasProcesses(t, sig) {
          LetGoInv(t, sig);
          if OnlyNeeded(s) {
            LetGoNeeded(t, sig);
          }
        }
      }
    }
  }

  lemma FlagInv(s: State, sig: Signal, chained: bool)
    requires Inv(s) && sig in s.handlers
    ensures Inv(s.(handlers := s.handlers[sig := chained]))
  {
    var t := s.(handlers := s.handlers[sig := chained]);
    assert t.handlers.Keys == s.handlers.Keys;
    assert forall x :: DispositionOf(t, x) == DispositionOf(s, x);
  }

  lemma OsInv(s: State, sig: Signal, disposition: Disposition)
    requires Inv(s) && sig !in s.handlers && !disposition.Reactor?
    ensures Inv(s.(os := s.os[sig := disposition]))
  {
    var t := s.(os := s.os[sig := disposition]);
    assert forall x :: x != sig ==> DispositionOf(t, x) == DispositionOf(s, x);
  }

  lemma SetsInv(s: State, sig: Signal, disposition: Disposition)
    requires Inv(s) && !disposition.Reactor?
    ensures Inv(Sigaction(s, sig, disposition))
  {
    if sig !in s.handlers {
      OsInv(s, sig, disposition);
    } else if disposition.Custom? {
      FlagInv(s, sig, true);
    } else {
      var t := s.(handlers := s.handlers[sig := false]);
      FlagInv(s, sig, false);
      if !Waited(t, sig) && !HasProcesses(t, sig) {
        UninstallInv(t, sig);
        OsInv(Uninstall(t, sig), sig, disposition);
      }
    }
  }

  lemma SetsNeeded(s: State, sig: Signal, disposition: Disposition)
    requires OnlyNeeded(s)
    ensures OnlyNeeded(Sigaction(s, sig, disposition))
  {
    var t := Sigaction(s, sig, disposition);
    forall x | x in t.handlers ensures Needed(t, x) {
      SetsNeededAt(s, sig, disposition, x);
    }
  }

  lemma SetsNeededAt(s: State, sig: Signal, disposition: Disposition, x: Signal)
    requires x in s.handlers ==> Needed(s, x)
    ensures x in Sigaction(s, sig, disposition).handlers ==> Needed(Sigaction(s, sig, disposition), x)
  {
  }

  // ------------------------------------------------------------------------------------ processes

  /** A change that neither closes an event nor gives it up. */
  lemma EventInv(s: State, e: Process, event: Event)
    requires Inv(s) && e in s.events && event.pid == s.events[e].pid
    requires event.closed == s.events[e].closed && event.failed == s.events[e].failed
    requires event.loops > 0 ==> event.closed || event.failed || SIGCHLD in s.handlers
    ensures Inv(SetEvent(s, e, event)) && (OnlyNeeded(s) ==> OnlyNeeded(SetEvent(s, e, event)))
  {
    var t := SetEvent(s, e, event);
    assert forall x :: DispositionOf(t, x) == DispositionOf(s, x);
    if OnlyNeeded(s) {
      forall x | x in t.handlers ensures Needed(t, x) {
        assert Needed(s, x);
      }
    }
  }

  lemma CreateInv(s: State, pid: Pid, e: Process)
    requires Inv(s) && e !in s.events
    ensures Inv(NewEvent(s, pid, e)) && (OnlyNeeded(s) ==> OnlyNeeded(NewEvent(s, pid, e)))
  {
    var t := NewEvent(s, pid, e);
    if pid in s.table {
      EventInv(s, s.table[pid], t.events[s.table[pid]]);
    } else {
      assert forall x :: DispositionOf(t, x) == DispositionOf(s, x);
      assert pid in t.table;
      if OnlyNeeded(s) {
        forall x | x in t.handlers ensures Needed(t, x) {
          assert Needed(s, x);
        }
      }
    }
  }

  /** The table is right but for `e`, which is on its way out. */
  ghost predicate Leaving(s: State, e: Process, pid: Pid) {
    && (forall x :: x in s.events && x != e ==> InUse(s.events[x]) ==> Watched(s, x, s.events[x]))
    && (forall p :: p in s.table ==>
          var x := s.table[p];
          if x == e then p == pid else x in s.events && s.events[x].pid == p && InUse(s.events[x]))
    && (e in s.events ==> s.events[e].closed || s.events[e].failed)
  }

  lemma UnlistInv(s: State, e: Process, pid: Pid)
    requires Handled(s) && Saved(s) && Watching(s) && Leaving(s, e, pid)
    ensures Inv(Unlist(s, e, pid))
  {
    if s.table != map[] {
      var t := if pid in s.table && s.table[pid] == e then s.(table := s.table - {pid}) else s;
      assert Inv(t) by {
        assert forall x :: DispositionOf(t, x) == DispositionOf(s, x);
        assert Listed(t);
      }
      if t.table == map[] && !Waited(t, SIGCHLD) {
        LetGoInv(t, SIGCHLD);
      }
    }
  }

  lemma UnlistNeeded(s: State, e: Process, pid: Pid)
    requires OnlyNeeded(s)
    ensures OnlyNeeded(Unlist(s, e, pid))
  {
    if s.table != map[] {
      var t := if pid in s.table && s.table[pid] == e then s.(table := s.table - {pid}) else s;
      forall x | x in t.handlers && x != SIGCHLD ensures Needed(t, x) {
        assert Needed(s, x);
      }
      if t.table == map[] && !Waited(t, SIGCHLD) {
        LetGoNeeded(t, SIGCHLD);
      } else {
        assert OnlyNeeded(t);
      }
    }
  }

  /** Closing an event, or giving it up, and taking it out of the table. */
  lemma RetireInv(s: State, e: Process, event: Event)
    requires Inv(s) && e in s.events && event.pid == s.events[e].pid && (event.closed || event.failed)
    ensures Inv(Unlist(SetEvent(s, e, event), e, event.pid))
    ensures OnlyNeeded(s) ==> OnlyNeeded(Unlist(SetEvent(s, e, event), e, event.pid))
  {
    var t := SetEvent(s, e, event);
    assert forall x :: DispositionOf(t, x) == DispositionOf(s, x);
    UnlistInv(t, e, event.pid);
    if OnlyNeeded(s) {
      forall x | x in t.handlers ensures Needed(t, x) {
        assert Needed(s, x);
      }
      UnlistNeeded(t, e, event.pid);
    }
  }

  lemma StartInv(s: State, e: Process, wait: Wait)
    requires Inv(s) && e in s.events
    ensures Inv(Start(s, e, wait))
  {
    var event := s.events[e];
    if !event.closed {
      if event.loops > 0 {
        EventInv(s, e, event.(loops := event.loops + 1));
      } else {
        InstallInv(s, SIGCHLD);
        WatchInv(Install(s, SIGCHLD), e, wait);
      }
    }
  }

  /** A start that installs a handler nothing accounts for. */
  predicate Unaccounted(s: State, e: Process)
    requires e in s.events
  {
    && !s.events[e].closed && s.events[e].loops == 0
    && s.table == map[] && !Waited(s, SIGCHLD) && !Chained(s, SIGCHLD)
  }

  lemma StartNeededIff(s: State, e: Process, wait: Wait)
    requires Inv(s) && OnlyNeeded(s) && e in s.events
    ensures OnlyNeeded(Start(s, e, wait)) <==> !Unaccounted(s, e)
  {
    var event := s.events[e];
    if event.closed {
    } else if event.loops > 0 {
      EventInv(s, e, event.(loops := event.loops + 1));
    } else if Unaccounted(s, e) {
      UnaccountedStart(s, e, wait);
    } else {
      InstallInv(s, SIGCHLD);
      InstallNeeded(s, SIGCHLD);
      WatchInv(Install(s, SIGCHLD), e, wait);
    }
  }

  lemma UnaccountedStart(s: State, e: Process, wait: Wait)
    requires e in s.events && Unaccounted(s, e)
    ensures !OnlyNeeded(Start(s, e, wait))
  {
    var t := Start(s, e, wait);
    assert SIGCHLD in t.handlers && !Needed(t, SIGCHLD);
  }

  lemma InstallNeeded(s: State, sig: Signal)
    requires OnlyNeeded(s) && (Waited(s, sig) || Chained(s, sig) || HasProcesses(s, sig))
    ensures OnlyNeeded(Install(s, sig))
  {
    var t := Install(s, sig);
    forall x | x in t.handlers ensures Needed(t, x) {
      assert x != sig ==> Needed(s, x);
    }
  }

  lemma WatchInv(s: State, e: Process, wait: Wait)
    requires Inv(s) && e in s.events && SIGCHLD in s.handlers
    ensures Inv(Watch(s, e, wait)) && (OnlyNeeded(s) ==> OnlyNeeded(Watch(s, e, wait)))
  {
    if wait.Running? {
      EventInv(s, e, s.events[e].(loops := 1));
    } else if wait.Error? {
      RetireInv(s, e, s.events[e].(failed := true));
    }
  }

  lemma StopInv(s: State, e: Process)
    requires Inv(s) && e in s.events
    ensures Inv(Stop(s, e)) && (OnlyNeeded(s) ==> OnlyNeeded(Stop(s, e)))
  {
    var event := s.events[e];
    if event.loops > 0 {
      if event.closed {
        EventInv(s, e, event.(loops := 0));
      } else if event.loops > 1 {
        EventInv(s, e, event.(loops := event.loops - 1));
      } else {
        RetireInv(s, e, event.(loops := 0, closed := true));
      }
    }
  }

  lemma FreeInv(s: State, e: Process, pid: Pid)
    requires Inv(s) && e in s.events && s.events[e].pid == pid
    ensures Inv(Unlist(s.(events := s.events - {e}), e, pid))
    ensures OnlyNeeded(s) ==> OnlyNeeded(Unlist(s.(events := s.events - {e}), e, pid))
  {
    var t := s.(events := s.events - {e});
    assert forall x :: DispositionOf(t, x) == DispositionOf(s, x);
    UnlistInv(t, e, pid);
    if OnlyNeeded(s) {
      forall x | x in t.handlers ensures Needed(t, x) {
        assert Needed(s, x);
      }
      UnlistNeeded(t, e, pid);
    }
  }

  lemma DisposeInv(s: State, e: Process)
    requires Inv(s) && e in s.events
    ensures Inv(Dispose(s, e)) && (OnlyNeeded(s) ==> OnlyNeeded(Dispose(s, e)))
  {
    var event := s.events[e];
    if event.refs > 1 {
      EventInv(s, e, event.(refs := event.refs - 1));
    } else if event.loops > 0 {
      var u := SetEvent(s, e, event.(loops := 1));
      EventInv(s, e, event.(loops := 1));
      StopInv(u, e);
      assert e in Stop(u, e).events && Stop(u, e).events[e].pid == event.pid;
      FreeInv(Stop(u, e), e, event.pid);
    } else {
      FreeInv(s, e, event.pid);
    }
  }
}
