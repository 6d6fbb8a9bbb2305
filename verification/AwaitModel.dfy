/**
 Awaiting an array of futures with errors collected rather than thrown: the counters, the
 tables of results and errors in their key order, replay of futures that are closed already,
 and the decision to suspend and to resume.
 */
module AwaitModel {

  type Key(==, !new)
  type Value(!new)
  type Error(!new)

  datatype Outcome = Done(value: Value) | Failed(error: Error)

  /** An element of the array: null, a pending future or a closed one. */
  datatype Item = Nothing | Pending | Closed(outcome: Outcome)

  datatype Keyed = Keyed(key: Key, item: Item)

  datatype Cell = Hole | Null | Holds(value: Value)

  datatype Slot = Slot(key: Key, cell: Cell)

  datatype Fault = Fault(key: Key, error: Error)

  /** `count`: how many successes are wanted, 0 for all; `preserve`: results in the order of
      the array; `fill`: null for what is missing. */
  datatype Config = Config(items: seq<Keyed>, count: nat, preserve: bool, fill: bool)

  datatype State = State(
    results: seq<Slot>,
    errors: seq<Fault>,
    resolved: nat,
    success: nat,
    waiting: set<Key>,       // futures with a callback
    suspended: bool,
    resumed: bool,
    woken: bool,             // past the wait
    // history
    registered: seq<Key>,
    settled: map<Key, Outcome>,
    succeeded: set<Key>,
    failed: set<Key>)

  function Init(): State { State([], [], 0, 0, {}, false, false, false, [], map[], {}, {}) }

  function Target(c: Config): nat { if c.count > 0 then c.count else |c.items| }

  predicate Finished(c: Config, s: State) {
    || (Target(c) > 0 && s.success >= Target(c))
    || (|c.items| != 0 && s.resolved >= |c.items|)
  }

  /** An update of an ordered table: in place if the key is there, otherwise at the end. */
  function Put(results: seq<Slot>, key: Key, cell: Cell): seq<Slot> {
    if results == [] then [Slot(key, cell)]
    else if results[0].key == key then [Slot(key, cell)] + results[1..]
    else [results[0]] + Put(results[1..], key, cell)
  }

  /** A settled future is counted and entered. */
  function EnterError(s: State, key: Key, e: Error): State {
    s.(resolved := s.resolved + 1, errors := s.errors + [Fault(key, e)], waiting := s.waiting - {key},
       settled := s.settled[key := Failed(e)], failed := s.failed + {key})
  }

  function EnterResult(s: State, key: Key, v: Value): State {
    s.(resolved := s.resolved + 1, success := s.success + 1, results := Put(s.results, key, Holds(v)),
       waiting := s.waiting - {key}, settled := s.settled[key := Done(v)], succeeded := s.succeeded + {key})
  }

  /** The callback of a future: the coroutine is resumed if that is it. */
  function Callback(c: Config, s: State, key: Key, outcome: Outcome): State {
    match outcome
    case Failed(e) =>
      var t := EnterError(s, key, e);
      t.(resumed := t.resumed || (|c.items| != 0 && t.resolved >= |c.items|))
    case Done(v) =>
      var t := EnterResult(s, key, v);
      t.(resumed := t.resumed || Finished(c, t))
  }

  /** A future gets its callback, and its key a place where the order matters. */
  function Subscribe(c: Config, s: State, key: Key): State {
    s.(results := if c.fill then s.results + [Slot(key, Null)]
                  else if c.preserve then s.results + [Slot(key, Hole)] else s.results,
       registered := s.registered + [key], waiting := s.waiting + {key})
  }

  /** A closed future is replayed through its callback at once. */
  function Enlist(c: Config, s: State, k: Keyed): State {
    match k.item
    case Nothing => s
    case Pending => Subscribe(c, s, k.key)
    case Closed(outcome) => Callback(c, Subscribe(c, s, k.key), k.key, outcome)
  }

  /** The registration loop from element `i`; a replay that reaches the target ends it. */
  function Register(c: Config, s: State, i: nat): State
    requires i <= |c.items|
    decreases |c.items| - i
  {
    if i == |c.items| then s
    else
      var t := Enlist(c, s, c.items[i]);
      if c.items[i].item.Closed? && Finished(c, t) then t else Register(c, t, i + 1)
  }

  /** After registration: wait only if there is something to wait for. */
  function Begin(c: Config): State {
    var s := Register(c, Init(), 0);
    if s.waiting != {} && !Finished(c, s) then s.(suspended := true)
    else s.(woken := true, waiting := {})
  }

  /** What the caller gets. */
  function Filled(results: seq<Slot>): seq<Slot> {
    if results == [] then []
    else (if results[0].cell.Hole? then [] else [results[0]]) + Filled(results[1..])
  }

  function Output(c: Config, s: State): seq<Slot> {
    if c.preserve && !c.fill then Filled(s.results) else s.results
  }

  datatype Step = Settled(key: Key, outcome: Outcome) | Wakes

  predicate Enabled(s: State, step: Step) {
    match step
    case Settled(key, _) => key in s.waiting && !s.woken
    case Wakes => s.suspended && s.resumed && !s.woken
  }

  function Apply(c: Config, s: State, step: Step): State {
    match step
    case Settled(key, outcome) => Callback(c, s, key, outcome)
    case Wakes => s.(woken := true, waiting := {})
  }
}
