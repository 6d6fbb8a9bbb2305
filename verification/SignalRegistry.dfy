/**
 The registry itself, with its tables updated in place.
 */
module SignalRegistry {
  import opened SignalModel
  import opened SignalProofs
  import opened SignalRuns

  /** What every call comes to: its step, which keeps the invariant and, but for a start that
      nothing accounts for, installs no handler without a reason. */
  ghost predicate Does(s: State, step: Step, t: State)
    requires Enabled(s, step)
  {
    && t == Apply(s, step) && Inv(t)
    && (OnlyNeeded(s) ==> (OnlyNeeded(t) <==> !UnaccountedStep(s, step)))
  }

  lemma StepDoes(s: State, step: Step)
    requires Inv(s) && Enabled(s, step)
    ensures Does(s, step, Apply(s, step))
  {
    StepInv(s, step);
    if OnlyNeeded(s) {
      StepNeededIff(s, step);
    }
  }

  class Registry {
    var handlers: map<Signal, bool>
    var waiters: map<Signal, set<Waiter>>
    var table: map<Pid, Process>
    var events: map<Process, Event>
    var os: map<Signal, Disposition>
    var saved: map<Signal, Disposition>

    ghost function View(): State
      reads this
    {
      State(handlers, waiters, table, events, os, saved)
    }

    constructor (os: map<Signal, Disposition>)
      requires NotOurs(os)
      ensures View() == Init(os) && Inv(View()) && OnlyNeeded(View())
    {
      handlers, waiters, table, events, saved := map[], map[], map[], map[], map[];
      this.os := os;
      new;
      InitInv(os);
    }

    method GetOrCreateHandler(sig: Signal)
      modifies this
      ensures View() == Install(old(View()), sig)
    {
      if sig in handlers {
        return;
      }
      if sig !in saved {
        saved := saved[sig := if sig in os then os[sig] else Default];
      }
      os := os[sig := Reactor];
      handlers := handlers[sig := false];
    }

    method ReleaseHandler(sig: Signal)
      modifies this
      ensures View() == Uninstall(old(View()), sig)
    {
      os := os[sig := Default];
      if sig in saved {
        os := os[sig := saved[sig]];
      }
      saved := saved - {sig};
      handlers := handlers - {sig};
    }

    method ReleaseUnlessChained(sig: Signal)
      modifies this
      ensures View() == LetGo(old(View()), sig)
    {
      if sig in handlers && !handlers[sig] {
        ReleaseHandler(sig);
      }
    }

    /** A waiter is added; its signal has a handler from then on. */
    method AddSignalEvent(sig: Signal, w: Waiter)
      requires Inv(View())
      modifies this
      ensures Does(old(View()), Adds(sig, w), View()) && sig in handlers
    {
      StepDoes(View(), Adds(sig, w));
      GetOrCreateHandler(sig);
      waiters := waiters[sig := (if sig in waiters then waiters[sig] else {}) + {w}];
    }

    /** A waiter is removed; the last one takes the handler along unless it is still needed. */
    method RemoveSignalEvent(sig: Signal, w: Waiter)
      requires Inv(View())
      modifies this
      ensures Does(old(View()), Removes(sig, w), View())
      ensures sig in waiters ==> sig in handlers && w !in waiters[sig]
    {
      StepDoes(View(), Removes(sig, w));
      if sig !in waiters {
        return;
      }
      var left := waiters[sig] - {w};
      if left != {} {
        waiters := waiters[sig := left];
        return;
      }
      waiters := waiters - {sig};
      if !(sig == SIGCHLD && table != map[]) {
        ReleaseUnlessChained(sig);
      }
    }

    /** `delegated`: the reactor keeps delivering the signal; otherwise the core installs. */
    method ZendSigaction(sig: Signal, disposition: Disposition) returns (delegated: bool)
      requires Inv(View()) && !disposition.Reactor?
      modifies this
      ensures Does(old(View()), Sets(sig, disposition), View())
      ensures delegated <==> sig in handlers
      ensures !delegated ==> DispositionOf(View(), sig) == disposition
    {
      StepDoes(View(), Sets(sig, disposition));
      if sig !in handlers {
        os := os[sig := disposition];
        return false;
      }
      if disposition.Custom? {
        handlers := handlers[sig := true];
        return true;
      }
      handlers := handlers[sig := false];
      if (sig in waiters && waiters[sig] != {}) || (sig == SIGCHLD && table != map[]) {
        return true;
      }
      ReleaseHandler(sig);
      os := os[sig := disposition];
      delegated := false;
    }

    /** The event there is for a process, or a new one. */
    method NewProcessEvent(pid: Pid, created: Process) returns (e: Process)
      requires Inv(View()) && created !in events
      modifies this
      ensures Does(old(View()), Creates(pid, created), View())
      ensures e in events && events[e].pid == pid && pid in table && table[pid] == e
      ensures e == if pid in old(table) then old(table)[pid] else created
    {
      StepDoes(View(), Creates(pid, created));
      if pid in table && table[pid] in events {
        e := table[pid];
        events := events[e := events[e].(refs := events[e].refs + 1)];
        return;
      }
      e := created;
      table := table[pid := e];
      events := events[e := Event(pid, 0, false, 1, false)];
    }

    method ReleaseProcessWatch()
      modifies this
      ensures View() == ReleaseWatch(old(View()))
    {
      if table != map[] {
        return;
      }
      if !(SIGCHLD in waiters && waiters[SIGCHLD] != {}) {
        ReleaseUnlessChained(SIGCHLD);
      }
    }

    method RemoveProcessEvent(e: Process, pid: Pid)
      modifies this
      ensures View() == Unlist(old(View()), e, pid)
    {
      if table == map[] {
        return;
      }
      if pid in table && table[pid] == e {
        table := table - {pid};
      }
      ReleaseProcessWatch();
    }

    /** A start: a child that runs is watched with the handler installed. */
    method StartProcess(e: Process, wait: Wait)
      requires Inv(View()) && e in events
      modifies this
      ensures Does(old(View()), Starts(e, wait), View())
      ensures e in events && (wait.Running? && !old(events)[e].closed ==> events[e].loops > 0)
      ensures wait.Running? && !old(events)[e].closed && !old(events)[e].failed ==> SIGCHLD in handlers
    {
      StepDoes(View(), Starts(e, wait));
      StartWatching(e, wait);
    }

    method StartWatching(e: Process, wait: Wait)
      requires e in events
      modifies this
      ensures View() == Start(old(View()), e, wait)
    {
      var event := events[e];
      if event.closed {
        return;
      }
      if event.loops > 0 {
        events := events[e := event.(loops := event.loops + 1)];
        return;
      }
      GetOrCreateHandler(SIGCHLD);
      LookAtChild(e, wait);
    }

    /** With the handler installed: a child that runs is watched, one that cannot be asked about
        is given up. */
    method LookAtChild(e: Process, wait: Wait)
      requires e in events
      modifies this
      ensures View() == Watch(old(View()), e, wait)
    {
      var event := events[e];
      if wait.Running? {
        events := events[e := event.(loops := 1)];
      } else if wait.Error? {
        events := events[e := event.(failed := true)];
        RemoveProcessEvent(e, event.pid);
      }
    }

    method CloseEvent(e: Process)
      requires e in events
      modifies this
      ensures View() == Stop(old(View()), e)
    {
      var event := events[e];
      if event.loops == 0 {
        return;
      }
      if event.closed {
        events := events[e := event.(loops := 0)];
      } else if event.loops > 1 {
        events := events[e := event.(loops := event.loops - 1)];
      } else {
        events := events[e := event.(loops := 0, closed := true)];
        RemoveProcessEvent(e, event.pid);
      }
    }

    /** A stop: the last one closes the event and takes it out of the table. */
    method StopProcess(e: Process)
      requires Inv(View()) && e in events
      modifies this
      ensures Does(old(View()), Stops(e), View())
      ensures e in events && (old(events)[e].loops <= 1 ==> events[e].loops == 0)
      ensures events[e].closed ==> forall pid :: pid in table ==> table[pid] != e
    {
      StepDoes(View(), Stops(e));
      CloseEvent(e);
    }

    method GiveUpReference(e: Process)
      requires e in events
      modifies this
      ensures View() == Dispose(old(View()), e)
      ensures e in events <==> old(events)[e].refs > 1
    {
      var event := events[e];
      if event.refs > 1 {
        events := events[e := event.(refs := event.refs - 1)];
        return;
      }
      if event.loops > 0 {
        events := events[e := event.(loops := 1)];
        CloseEvent(e);
      }
      events := events - {e};
      RemoveProcessEvent(e, event.pid);
    }

    /** A reference is given back: the last one stops the event, unlists it and frees it. */
    method DisposeProcess(e: Process)
      requires Inv(View()) && e in events
      modifies this
      ensures Does(old(View()), Disposes(e), View())
      ensures e in events <==> old(events)[e].refs > 1
      ensures e !in events ==> forall pid :: pid in table ==> table[pid] != e
    {
      StepDoes(View(), Disposes(e));
      GiveUpReference(e);
    }
  }
}
