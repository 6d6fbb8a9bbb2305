/**
 The registry of signal handlers: one reactor handler per signal, shared by the coroutines that
 wait for it, by Zend's own handler chain and, for SIGCHLD, by the events of child processes.
 */
module SignalModel {

  type Signal = nat
  type Waiter = nat
  /** What waitpid() takes for one process. */
  type Pid = p: int | p > 0 witness 1
  type Process = nat

  const SIGCHLD: Signal := 17

  /** What the operating system does with a signal. */
  datatype Disposition = Default | Ignore | Custom(handler: nat) | Reactor

  /** A process event: `loops` counts its starts, `failed` is history: its watch was given up. */
  datatype Event = Event(pid: Pid, loops: nat, closed: bool, refs: nat, failed: bool)

  datatype State = State(
    handlers: map<Signal, bool>,             // installed; with a Zend-chain subscription or not
    waiters: map<Signal, set<Waiter>>,
    table: map<Pid, Process>,
    events: map<Process, Event>,             // those not freed
    os: map<Signal, Disposition>,
    saved: map<Signal, Disposition>)

  function Init(os: map<Signal, Disposition>): State { State(map[], map[], map[], map[], os, map[]) }

  function DispositionOf(s: State, sig: Signal): Disposition { if sig in s.os then s.os[sig] else Default }

  predicate Waited(s: State, sig: Signal) { sig in s.waiters && s.waiters[sig] != {} }

  predicate Chained(s: State, sig: Signal) { sig in s.handlers && s.handlers[sig] }

  /** A reason to keep the handler besides waiters: child processes. */
  predicate HasProcesses(s: State, sig: Signal) { sig == SIGCHLD && s.table != map[] }

  // ----------------------------------------------------------------------------------- handlers

  function Install(s: State, sig: Signal): State {
    if sig in s.handlers then s
    else
      s.(handlers := s.handlers[sig := false], os := s.os[sig := Reactor],
         saved := if sig in s.saved then s.saved else s.saved[sig := DispositionOf(s, sig)])
  }

  /** The handler goes and the disposition that it replaced comes back. */
  function Uninstall(s: State, sig: Signal): State {
    s.(handlers := s.handlers - {sig}, saved := s.saved - {sig},
       os := s.os[sig := if sig in s.saved then s.saved[sig] else Default])
  }

  /** A handler that only the Zend chain needs is kept. */
  function LetGo(s: State, sig: Signal): State {
    if sig in s.handlers && !s.handlers[sig] then Uninstall(s, sig) else s
  }

  // ------------------------------------------------------------------------------------ waiters

  function AddWaiter(s: State, sig: Signal, w: Waiter): State {
    var t := Install(s, sig);
    t.(waiters := t.waiters[sig := (if sig in t.waiters then t.waiters[sig] else {}) + {w}])
  }

  function RemoveWaiter(s: State, sig: Signal, w: Waiter): State {
    if sig !in s.waiters then s
    else
      var left := s.waiters[sig] - {w};
      if left != {} then s.(waiters := s.waiters[sig := left])
      else
        var t := s.(waiters := s.waiters - {sig});
        if HasProcesses(t, sig) then t else LetGo(t, sig)
  }

  /** zend_sigaction(): what the reactor does not take over, the core installs itself. */
  function Sigaction(s: State, sig: Signal, disposition: Disposition): State {
    if sig !in s.handlers then s.(os := s.os[sig := disposition])
    else if disposition.Custom? then s.(handlers := s.handlers[sig := true])
    else
      var t := s.(handlers := s.handlers[sig := false]);
      if Waited(t, sig) || HasProcesses(t, sig) then t
      else var u := Uninstall(t, sig); u.(os := u.os[sig := disposition])
  }

  // ---------------------------------------------------------------------------------- processes

  /** An event for a process: the one there is, or a new one. */
  function NewEvent(s: State, pid: Pid, e: Process): State {
    if pid in s.table && s.table[pid] in s.events then
      var known := s.table[pid];
      s.(events := s.events[known := s.events[known].(refs := s.events[known].refs + 1)])
    else
      s.(table := s.table[pid := e], events := s.events[e := Event(pid, 0, false, 1, false)])
  }

  /** With the last process event out of the table, the SIGCHLD handler may go. */
  function ReleaseWatch(s: State): State {
    if s.table != map[] || Waited(s, SIGCHLD) then s else LetGo(s, SIGCHLD)
  }

  /** The event leaves the table, unless another one has its place. */
  function Unlist(s: State, e: Process, pid: Pid): State {
    if s.table == map[] then s
    else ReleaseWatch(if pid in s.table && s.table[pid] == e then s.(table := s.table - {pid}) else s)
  }

  function SetEvent(s: State, e: Process, event: Event): State { s.(events := s.events[e := event]) }

  datatype Wait = Exited | Running | NoChild | Error

  function Watch(s: State, e: Process, wait: Wait): State
    requires e in s.events
  {
    match wait
    case Running => SetEvent(s, e, s.events[e].(loops := 1))
    case Error => Unlist(SetEvent(s, e, s.events[e].(failed := true)), e, s.events[e].pid)
    case _ => s
  }

  /** Start: the handler first, then a look at the child. A child that is gone already is
      reported at once; its event stays listed until it is disposed of. */
  function Start(s: State, e: Process, wait: Wait): State
    requires e in s.events
  {
    var event := s.events[e];
    if event.closed then s
    else if event.loops > 0 then SetEvent(s, e, event.(loops := event.loops + 1))
    else Watch(Install(s, SIGCHLD), e, wait)
  }

  function Stop(s: State, e: Process): State
    requires e in s.events
  {
    var event := s.events[e];
    if event.loops == 0 then s
    else if event.closed then SetEvent(s, e, event.(loops := 0))
    else if event.loops > 1 then SetEvent(s, e, event.(loops := event.loops - 1))
    else Unlist(SetEvent(s, e, event.(loops := 0, closed := true)), e, event.pid)
  }

  function Dispose(s: State, e: Process): State
    requires e in s.events
  {
    var event := s.events[e];
    if event.refs > 1 then SetEvent(s, e, event.(refs := event.refs - 1))
    else
      var t := if event.loops > 0 then Stop(SetEvent(s, e, event.(loops := 1)), e) else s;
      Unlist(t.(events := t.events - {e}), e, event.pid)
  }

  // --------------------------------------------------------------------------------------- steps

  datatype Step =
    | Adds(sig: Signal, w: Waiter)
    | Removes(sig: Signal, w: Waiter)
    | Sets(sig: Signal, disposition: Disposition)
    | Creates(pid: Pid, e: Process)
    | Starts(e: Process, wait: Wait)
    | Stops(e: Process)
    | Disposes(e: Process)

  predicate Enabled(s: State, step: Step) {
    match step
    case Adds(_, _) => true
    case Removes(_, _) => true
    case Sets(_, disposition) => !disposition.Reactor?
    case Creates(_, e) => e !in s.events
    case Starts(e, _) => e in s.events
    case Stops(e) => e in s.events
    case Disposes(e) => e in s.events
  }

  function Apply(s: State, step: Step): State
    requires Enabled(s, step)
  {
    match step
    case Adds(sig, w) => AddWaiter(s, sig, w)
    case Removes(sig, w) => RemoveWaiter(s, sig, w)
    case Sets(sig, disposition) => Sigaction(s, sig, disposition)
    case Creates(pid, e) => NewEvent(s, pid, e)
    case Starts(e, wait) => Start(s, e, wait)
    case Stops(e) => Stop(s, e)
    case Disposes(e) => Dispose(s, e)
  }
}
