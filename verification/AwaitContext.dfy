/**
 The await context, updated in place by the callbacks, with the loops that register the
 futures and clean the results.
 */
module AwaitContext {
  import opened AwaitModel
  import opened AwaitProofs
  import opened AwaitRuns

  /** zend_hash_update(): in place if the key is there. */
  method UpdateTable(results: seq<Slot>, key: Key, cell: Cell) returns (r: seq<Slot>)
    ensures r == Put(results, key, cell)
  {
    var i := 0;
    while i < |results| && results[i].key != key
      invariant 0 <= i <= |results| && forall j :: 0 <= j < i ==> results[j].key != key
    {
      i := i + 1;
    }
    PutAt(results, i, key, cell);
    r := if i < |results| then results[i := Slot(key, cell)] else results + [Slot(key, cell)];
  }

  lemma {:induction false} PutAt(results: seq<Slot>, i: nat, key: Key, cell: Cell)
    requires i <= |results| && (forall j :: 0 <= j < i ==> results[j].key != key)
    requires i < |results| ==> results[i].key == key
    ensures Put(results, key, cell) ==
              if i < |results| then results[i := Slot(key, cell)] else results + [Slot(key, cell)]
  {
    if i > 0 {
      PutAt(results[1..], i - 1, key, cell);
      if i < |results| {
        assert [results[0]] + results[1..][i - 1 := Slot(key, cell)] == results[i := Slot(key, cell)];
      } else {
        assert [results[0]] + (results[1..] + [Slot(key, cell)]) == results + [Slot(key, cell)];
      }
    } else if results != [] {
      assert [Slot(key, cell)] + results[1..] == results[0 := Slot(key, cell)];
    }
  }

  /** The places that were kept for nothing go. */
  method DropHoles(results: seq<Slot>) returns (r: seq<Slot>)
    ensures r == Filled(results)
  {
    r := [];
    var i := 0;
    while i < |results|
      invariant 0 <= i <= |results| && r + Filled(results[i..]) == Filled(results)
    {
      assert results[i..][1..] == results[i + 1..];
      if !results[i].cell.Hole? {
        assert r + ([results[i]] + Filled(results[i + 1..])) == r + [results[i]] + Filled(results[i + 1..]);
        r := r + [results[i]];
      } else {
        assert [] + Filled(results[i + 1..]) == Filled(results[i + 1..]);
      }
      i := i + 1;
    }
    assert results[i..] == [];
  }

  class Context {
    const config: Config
    var results: seq<Slot>
    var errors: seq<Fault>
    var resolved: nat
    var success: nat
    var waiting: set<Key>
    var suspended: bool
    var resumed: bool
    var woken: bool
    ghost var registered: seq<Key>
    ghost var settled: map<Key, Outcome>
    ghost var succeeded: set<Key>
    ghost var failed: set<Key>

    ghost function View(): State
      reads this
    {
      State(results, errors, resolved, success, waiting, suspended, resumed, woken,
            registered, settled, succeeded, failed)
    }

    constructor (config: Config)
      ensures View() == Init() && this.config == config
    {
      this.config := config;
      results, errors, resolved, success, waiting := [], [], 0, 0, {};
      suspended, resumed, woken := false, false, false;
      registered, settled, succeeded, failed := [], map[], {}, {};
    }

    predicate IsFinished()
      reads this
      ensures IsFinished() <==> Finished(config, View())
    {
      var target := if config.count > 0 then config.count else |config.items|;
      (target > 0 && success >= target) || (|config.items| != 0 && resolved >= |config.items|)
    }

    method RecordError(key: Key, e: Error)
      modifies this
      ensures View() == EnterError(old(View()), key, e)
    {
      resolved := resolved + 1;
      waiting := waiting - {key};
      errors := errors + [Fault(key, e)];
      settled, failed := settled[key := Failed(e)], failed + {key};
    }

    method RecordResult(key: Key, v: Value)
      modifies this
      ensures View() == EnterResult(old(View()), key, v)
    {
      resolved, success := resolved + 1, success + 1;
      waiting := waiting - {key};
      results := UpdateTable(results, key, Holds(v));
      settled, succeeded := settled[key := Done(v)], succeeded + {key};
    }

    method TakeOutcome(key: Key, outcome: Outcome)
      modifies this
      ensures View() == Callback(config, old(View()), key, outcome)
    {
      if outcome.Failed? {
        RecordError(key, outcome.error);
        if |config.items| != 0 && resolved >= |config.items| {
          resumed := true;
        }
      } else {
        RecordResult(key, outcome.value);
        if IsFinished() {
          resumed := true;
        }
      }
    }

    method AddCallback(key: Key)
      modifies this
      ensures View() == Subscribe(config, old(View()), key)
    {
      if config.fill {
        results := results + [Slot(key, Null)];
      } else if config.preserve {
        results := results + [Slot(key, Hole)];
      }
      registered := registered + [key];
      waiting := waiting + {key};
    }

    method EnlistOne(k: Keyed)
      modifies this
      ensures View() == Enlist(config, old(View()), k)
    {
      if k.item.Nothing? {
        return;
      }
      AddCallback(k.key);
      if k.item.Closed? {
        TakeOutcome(k.key, k.item.outcome);
      }
    }

    /** Registers every future, replaying closed ones, until the target is reached. */
    method RegisterAll()
      modifies this
      ensures View() == Register(config, old(View()), 0)
    {
      ghost var goal := Register(config, View(), 0);
      var i := 0;
      while i < |config.items|
        invariant 0 <= i <= |config.items| && Register(config, View(), i) == goal
      {
        EnlistOne(config.items[i]);
        if config.items[i].item.Closed? && IsFinished() {
          return;
        }
        i := i + 1;
      }
    }

    method Enter()
      modifies this
      ensures View() == var s := Register(config, old(View()), 0);
                        if s.waiting != {} && !Finished(config, s) then s.(suspended := true)
                        else s.(woken := true, waiting := {})
    {
      RegisterAll();
      if waiting != {} && !IsFinished() {
        suspended := true;
      } else {
        woken := true;
        waiting := {};
      }
    }

    // ---------------------------------------------------------------------- the calls from outside

    /** The wait is entered only if something is pending and the target not reached. */
    method Start()
      requires View() == Init() && DistinctItems(config.items)
      modifies this
      ensures View() == Begin(config) && Inv(config, View())
      ensures suspended != woken && (suspended ==> waiting != {} && !Finished(config, View()))
    {
      ghost var end := BeginGoing(config);
      Enter();
    }

    /** The callback of a future: a suspended coroutine is resumed exactly when it has what it
        waits for. */
    method Settle(key: Key, outcome: Outcome)
      requires Inv(config, View()) && Enabled(View(), Settled(key, outcome))
      modifies this
      ensures Inv(config, View()) && View() == Apply(config, old(View()), Settled(key, outcome))
      ensures suspended ==> (resumed <==> Finished(config, View()))
    {
      CallbackInv(config, View(), key, outcome, Callback(config, View(), key, outcome));
      TakeOutcome(key, outcome);
    }

    /** The resumed coroutine goes on; callbacks still in place are removed. */
    method Wake()
      requires Inv(config, View()) && Enabled(View(), Wakes)
      modifies this
      ensures Inv(config, View()) && View() == Apply(config, old(View()), Wakes) && Finished(config, View())
    {
      WokenInv(config, View());
      woken := true;
      waiting := {};
    }

    method Collect() returns (r: seq<Slot>)
      ensures r == Output(config, View())
    {
      if config.preserve && !config.fill {
        r := DropHoles(results);
      } else {
        r := results;
      }
    }
  }
}
