/**
 What an await comes to, for every order in which the futures are settled.
 */
module AwaitRuns {
  import opened AwaitModel
  import opened AwaitProofs

  ghost predicate Follows(c: Config, s: State, t: State) {
    exists step :: Enabled(s, step) && t == Apply(c, s, step)
  }

  ghost predicate IsRun(c: Config, run: seq<State>) {
    && DistinctItems(c.items) && |run| > 0 && run[0] == Begin(c)
    && forall i :: 0 <= i < |run| - 1 ==> Follows(c, run[i], run[i + 1])
  }

  /** Registration came as far as `end`; a coroutine that waits has registered everything. */
  ghost predicate Going(c: Config, s: State, end: nat) {
    && Inv(c, s) && end <= |c.items| && s.registered == RealKeys(c.items[..end])
    && (s.suspended ==> end == |c.items| > 0)
  }

  lemma BeginGoing(c: Config) returns (end: nat)
    requires DistinctItems(c.items)
    ensures Going(c, Begin(c), end) && Begin(c).suspended != Begin(c).woken
    ensures Begin(c).suspended ==> Begin(c).waiting != {} && !Finished(c, Begin(c))
  {
    assert Enlisted(c, Init(), 0);
    end := RegisterInv(c, Init(), 0);
    AfterRegister(c, Register(c, Init(), 0), end);
  }

  lemma AfterRegister(c: Config, s: State, end: nat)
    requires end <= |c.items| && Enlisted(c, s, end) && (end < |c.items| ==> Finished(c, s))
    ensures if s.waiting != {} && !Finished(c, s) then Going(c, s.(suspended := true), end)
            else Going(c, s.(woken := true, waiting := {}), end)
  {
    if s.waiting != {} && !Finished(c, s) {
      FlagsInv(c, s, s.(suspended := true));
      var k :| k in s.waiting;
      assert k in s.registered;
    } else {
      WokenInv(c, s);
    }
  }

  lemma WokenInv(c: Config, s: State)
    requires Inv(c, s)
    ensures Inv(c, s.(woken := true, waiting := {}))
  {
    var t := s.(woken := true, waiting := {});
    forall x | x in t.results ensures SlotOk(t, x) {
      assert SlotOk(s, x);
    }
  }

  lemma CallbackKeeps(c: Config, s: State, key: Key, outcome: Outcome)
    ensures var t := Callback(c, s, key, outcome); t.registered == s.registered && t.suspended == s.suspended
  {
  }

  lemma StepGoing(c: Config, s: State, step: Step, end: nat)
    requires Going(c, s, end) && Enabled(s, step)
    ensures Going(c, Apply(c, s, step), end)
  {
    match step {
      case Settled(key, outcome) =>
        CallbackInv(c, s, key, outcome, Callback(c, s, key, outcome));
        CallbackKeeps(c, s, key, outcome);
      case Wakes => WokenInv(c, s);
    }
  }

  lemma {:induction false} RunGoing(c: Config, run: seq<State>, i: nat) returns (end: nat)
    requires IsRun(c, run) && i < |run|
    ensures Going(c, run[i], end)
  {
    if i == 0 {
      end := BeginGoing(c);
    } else {
      end := RunGoing(c, run, i - 1);
      assert Follows(c, run[i - 1], run[i - 1 + 1]);
      var step :| Enabled(run[i - 1], step) && run[i] == Apply(c, run[i - 1], step);
      StepGoing(c, run[i - 1], step, end);
    }
  }

  // ---------------------------------------------------------------------------------- theorems

  /** The settled futures are divided between results and errors, with what they were settled
      with, and the counters agree. */
  lemma ResultsAndErrors(c: Config, run: seq<State>, i: nat)
    requires IsRun(c, run) && i < |run|
    ensures var s := run[i];
            && s.success == |s.succeeded| && s.resolved - s.success == |s.failed| == |s.errors|
            && s.succeeded !! s.failed && s.settled.Keys == s.succeeded + s.failed
            && (forall k, v :: Slot(k, Holds(v)) in s.results <==> k in s.succeeded && s.settled[k] == Done(v))
            && (forall x :: x in s.errors ==> x.key in s.failed && s.settled[x.key] == Failed(x.error))
            && (forall k :: k in s.failed ==> exists x :: x in s.errors && x.key == k)
  {
    var end := RunGoing(c, run, i);
    var s := run[i];
    forall k, v ensures Slot(k, Holds(v)) in s.results <==> k in s.succeeded && s.settled[k] == Done(v) {
      HeldIff(c, s, k, v);
    }
    forall x | x in s.errors ensures x.key in s.failed {
      assert x.key in s.settled.Keys;
    }
  }

  lemma HeldIff(c: Config, s: State, k: Key, v: Value)
    requires Counts(s) && Results(c, s)
    ensures Slot(k, Holds(v)) in s.results <==> k in s.succeeded && s.settled[k] == Done(v)
  {
    if Slot(k, Holds(v)) in s.results {
      assert SlotOk(s, Slot(k, Holds(v)));
      assert k in s.settled.Keys;
    } else if k in s.succeeded {
      var slot := SucceededSlot(c, s, k);
    }
  }

  lemma SucceededSlot(c: Config, s: State, k: Key) returns (slot: Slot)
    requires Counts(s) && Results(c, s) && k in s.succeeded
    ensures slot in s.results && slot.key == k && SlotOk(s, slot)
  {
    KeysAt(s.results);
    var i :| 0 <= i < |s.results| && Keys(s.results)[i] == k;
    slot := s.results[i];
  }

  /** A coroutine whose target or total is reached is resumed; it never stays suspended. */
  lemma ResumedWhenFinished(c: Config, run: seq<State>, i: nat)
    requires IsRun(c, run) && i < |run| && run[i].suspended && !run[i].woken
    ensures Enabled(run[i], Wakes) <==> Finished(c, run[i])
  {
    var end := RunGoing(c, run, i);
  }

  predicate AnyNull(items: seq<Keyed>) { exists i :: 0 <= i < |items| && items[i].item.Nothing? }

  lemma {:induction false} RealKeysCount(items: seq<Keyed>)
    ensures |RealKeys(items)| <= |items|
    ensures |RealKeys(items)| == |items| <==> !AnyNull(items)
  {
    if items != [] {
      var n := |items| - 1;
      RealKeysCount(items[..n]);
      assert AnyNull(items) <==> AnyNull(items[..n]) || items[n].item.Nothing? by {
        if AnyNull(items[..n]) {
          var i :| 0 <= i < n && items[..n][i].item.Nothing?;
          assert items[i].item.Nothing?;
        }
        if AnyNull(items) {
          var i :| 0 <= i < |items| && items[i].item.Nothing?;
          assert i < n ==> items[..n][i].item.Nothing?;
        }
      }
    }
  }

  lemma {:induction false} DistinctSize(keys: seq<Key>)
    requires Distinct(keys)
    ensures |set k | k in keys| == |keys|
  {
    if keys == [] {
      assert (set k | k in keys) == {};
    } else {
      var n := |keys| - 1;
      DistinctSize(keys[..n]);
      assert (set k | k in keys) == (set k | k in keys[..n]) + {keys[n]};
    }
  }

  /** When every future is settled, the coroutine is stuck for good exactly if the array had a
      null element, which counts in the total, and the successes fall short of the target. */
  lemma StrandedIff(c: Config, run: seq<State>, i: nat)
    requires IsRun(c, run) && i < |run| && run[i].suspended && !run[i].woken && run[i].waiting == {}
    ensures !Enabled(run[i], Wakes) <==> AnyNull(c.items) && run[i].success < Target(c)
  {
    var end := RunGoing(c, run, i);
    var s := run[i];
    assert c.items[..end] == c.items;
    RealKeysCount(c.items);
    DistinctSize(s.registered);
    assert (set k | k in s.registered) == s.settled.Keys;
    assert s.resolved == |s.registered|;
  }

  /** What a caller can tell before the await: without a null element nobody is ever stuck ... */
  lemma NeverStrandedWithoutNull(c: Config, run: seq<State>, i: nat)
    requires IsRun(c, run) && i < |run| && run[i].suspended && !run[i].woken && run[i].waiting == {}
    requires !AnyNull(c.items)
    ensures Enabled(run[i], Wakes)
  {
    StrandedIff(c, run, i);
  }

  /** ... with one, whoever waits for more successes than there are futures always is, and so is
      whoever waits for all. */
  lemma AlwaysStrandedShort(c: Config, run: seq<State>, i: nat)
    requires IsRun(c, run) && i < |run| && run[i].suspended && !run[i].woken && run[i].waiting == {}
    requires AnyNull(c.items) && (c.count == 0 || c.count > |RealKeys(c.items)|)
    ensures !Enabled(run[i], Wakes)
  {
    StrandedIff(c, run, i);
    RealKeysCount(c.items);
    SuccessesAreReal(c, run, i);
  }

  lemma SuccessesAreReal(c: Config, run: seq<State>, i: nat)
    requires IsRun(c, run) && i < |run| && run[i].suspended
    ensures run[i].success <= |RealKeys(c.items)|
  {
    var end := RunGoing(c, run, i);
    var s := run[i];
    assert c.items[..end] == c.items;
    DistinctSize(s.registered);
    var keys := set k | k in s.registered;
    assert s.succeeded <= s.settled.Keys <= keys;
    SubsetSize(s.succeeded, keys);
  }

  lemma {:induction false} SubsetSize(a: set<Key>, b: set<Key>)
    requires a <= b
    ensures |a| <= |b|
  {
    if a != {} {
      var k :| k in a;
      SubsetSize(a - {k}, b - {k});
    }
  }

  /** So with all futures awaited, it is stuck in the end exactly if there is a null element. */
  lemma AwaitAllStrandedIff(c: Config, run: seq<State>, i: nat)
    requires IsRun(c, run) && i < |run| && run[i].suspended && !run[i].woken && run[i].waiting == {}
    requires c.count == 0
    ensures !Enabled(run[i], Wakes) <==> AnyNull(c.items)
  {
    if AnyNull(c.items) {
      AlwaysStrandedShort(c, run, i);
    } else {
      NeverStrandedWithoutNull(c, run, i);
    }
  }

  /** A null and a future: the future succeeds, and the coroutine waits for ever. */
  lemma NullStrands(k: Key, l: Key, v: Value) returns (c: Config, run: seq<State>)
    requires k != l
    ensures c == Config([Keyed(k, Nothing), Keyed(l, Pending)], 0, true, false) && IsRun(c, run) && |run| == 2
    ensures run[1].suspended && !run[1].woken && run[1].waiting == {} && l in run[1].succeeded
    ensures forall step :: !Enabled(run[1], step)
  {
    c := Config([Keyed(k, Nothing), Keyed(l, Pending)], 0, true, false);
    assert Register(c, Init(), 2) == Init();
    assert Register(c, Init(), 0) == Register(c, Init(), 1) == Subscribe(c, Init(), l);
    var s := Begin(c);
    assert s.waiting == {l} && s.suspended && Enabled(s, Settled(l, Done(v)));
    var t := Callback(c, s, l, Done(v));
    run := [s, t];
    assert Apply(c, s, Settled(l, Done(v))) == t && Follows(c, s, t);
    assert t.waiting == {} && !Finished(c, t);
  }

  // ------------------------------------------------------------------------------- the output

  /** The keys that are in a set, in their order. */
  function Select(keys: seq<Key>, chosen: set<Key>): seq<Key> {
    if keys == [] then []
    else Select(keys[..|keys| - 1], chosen) + if keys[|keys| - 1] in chosen then [keys[|keys| - 1]] else []
  }

  lemma {:induction false} SelectCons(k: Key, keys: seq<Key>, chosen: set<Key>)
    ensures Select([k] + keys, chosen) == (if k in chosen then [k] else []) + Select(keys, chosen)
  {
    if keys == [] {
      assert [k] + keys == [k] && [k][..0] == [];
    } else {
      var n := |keys| - 1;
      assert ([k] + keys)[..n + 1] == [k] + keys[..n];
      SelectCons(k, keys[..n], chosen);
    }
  }

  lemma {:induction false} FilledKeys(results: seq<Slot>, chosen: set<Key>)
    requires forall x :: x in results ==> (x.cell.Hole? <==> x.key !in chosen)
    ensures Keys(Filled(results)) == Select(Keys(results), chosen)
  {
    if results != [] {
      FilledKeys(results[1..], chosen);
      SelectCons(results[0].key, Keys(results[1..]), chosen);
      assert !results[0].cell.Hole? ==> ([results[0]] + Filled(results[1..]))[1..] == Filled(results[1..]);
      assert results[0].cell.Hole? ==> [] + Filled(results[1..]) == Filled(results[1..]);
    }
  }

  lemma {:induction false} SelectSame(items: seq<Keyed>, chosen: set<Key>)
    requires forall i :: 0 <= i < |items| && items[i].key in chosen ==> !items[i].item.Nothing?
    ensures Select(RealKeys(items), chosen) == Select(ItemKeys(items), chosen)
  {
    if items != [] {
      var n := |items| - 1;
      SelectSame(items[..n], chosen);
      SelectAppend(ItemKeys(items[..n]), items[n].key, chosen);
      if items[n].item.Nothing? {
        assert RealKeys(items[..n]) + [] == RealKeys(items[..n]);
      } else {
        SelectAppend(RealKeys(items[..n]), items[n].key, chosen);
      }
    }
  }

  lemma {:induction false} SelectBeyond(items: seq<Keyed>, end: nat, chosen: set<Key>)
    requires end <= |items| && forall i :: end <= i < |items| ==> items[i].key !in chosen
    ensures Select(ItemKeys(items), chosen) == Select(ItemKeys(items[..end]), chosen)
  {
    if end < |items| {
      var n := |items| - 1;
      SelectBeyond(items[..n], end, chosen);
      assert items[..n][..end] == items[..end];
      SelectAppend(ItemKeys(items[..n]), items[n].key, chosen);
    } else {
      assert items[..end] == items;
    }
  }

  lemma SelectAppend(keys: seq<Key>, key: Key, chosen: set<Key>)
    ensures Select(keys + [key], chosen) == Select(keys, chosen) + if key in chosen then [key] else []
  {
    assert (keys + [key])[..|keys|] == keys;
  }

  /** What is registered stands before `end` and is not null. */
  lemma RegisteredIsReal(c: Config, end: nat, i: nat)
    requires DistinctItems(c.items) && end <= |c.items| && i < |c.items|
    requires c.items[i].key in RealKeys(c.items[..end])
    ensures i < end && !c.items[i].item.Nothing?
  {
    RealKeysIn(c.items[..end], c.items[i].key);
    var j :| 0 <= j < end && c.items[..end][j].key == c.items[i].key && !c.items[..end][j].item.Nothing?;
    assert i == j;
  }

  lemma SelectRegistered(c: Config, end: nat, chosen: set<Key>)
    requires DistinctItems(c.items) && end <= |c.items| && forall k :: k in chosen ==> k in RealKeys(c.items[..end])
    ensures Select(RealKeys(c.items[..end]), chosen) == Select(ItemKeys(c.items), chosen)
  {
    forall j | 0 <= j < |c.items| && c.items[j].key in chosen ensures j < end && !c.items[j].item.Nothing? {
      RegisteredIsReal(c, end, j);
    }
    SelectBeyond(c.items, end, chosen);
    SelectSame(c.items[..end], chosen);
  }

  lemma {:induction false} SelectAll(keys: seq<Key>, chosen: set<Key>)
    requires forall k :: k in keys ==> k in chosen
    ensures Select(keys, chosen) == keys
  {
    if keys != [] {
      SelectAll(keys[..|keys| - 1], chosen);
    }
  }

  /** The keys the caller gets when the order matters: those registered with missing ones filled
      in, otherwise the successes. */
  ghost function OutputKeys(c: Config, s: State): set<Key> {
    if c.fill then set k | k in s.registered else s.succeeded
  }

  /** A success with its value, or the null that was filled in for want of one. */
  predicate RightCell(c: Config, s: State, x: Slot) {
    if x.key in s.succeeded then x.key in s.settled && x.cell.Holds? && s.settled[x.key] == Done(x.cell.value)
    else c.fill && x.cell.Null?
  }

  lemma OutputKeysSelect(c: Config, s: State)
    requires Counts(s) && Results(c, s) && Ordered(c)
    ensures Keys(Output(c, s)) == Select(s.registered, OutputKeys(c, s))
  {
    if c.fill {
      SelectAll(s.registered, OutputKeys(c, s));
    } else {
      forall x | x in s.results ensures x.cell.Hole? <==> x.key !in s.succeeded {
        HoleIff(c, s, x);
      }
      FilledKeys(s.results, s.succeeded);
    }
  }

  lemma HoleIff(c: Config, s: State, x: Slot)
    requires Counts(s) && Results(c, s) && !c.fill && x in s.results
    ensures x.cell.Hole? <==> x.key !in s.succeeded
  {
    assert SlotOk(s, x);
    assert x.key in s.settled ==> x.key in s.settled.Keys;
  }

  /** With the order preserved, the caller gets exactly the successes in the order of the array,
      each with its value; with missing ones filled in, exactly the futures registered, which are
      all if the coroutine had to wait, with null for those that did not succeed. */
  lemma OutputInOrder(c: Config, run: seq<State>, i: nat)
    requires IsRun(c, run) && i < |run| && Ordered(c)
    ensures var s := run[i];
            && Keys(Output(c, s)) == Select(ItemKeys(c.items), OutputKeys(c, s))
            && s.succeeded <= OutputKeys(c, s) && (s.suspended ==> s.registered == RealKeys(c.items))
            && (forall x :: x in Output(c, s) ==> RightCell(c, s, x))
  {
    var end := RunGoing(c, run, i);
    var s := run[i];
    OutputKeysSelect(c, s);
    SucceededIsRegistered(s);
    SelectRegistered(c, end, OutputKeys(c, s));
    assert end == |c.items| ==> c.items[..end] == c.items;
    forall x | x in Output(c, s) ensures RightCell(c, s, x) {
      OutputCell(c, s, x);
    }
  }

  lemma SucceededIsRegistered(s: State)
    requires Counts(s) && Registered(s)
    ensures forall k :: k in s.succeeded ==> k in s.settled && k in s.registered
  {
    assert s.succeeded <= s.settled.Keys;
  }

  lemma OutputCell(c: Config, s: State, x: Slot)
    requires Counts(s) && Results(c, s) && Ordered(c) && x in Output(c, s)
    ensures RightCell(c, s, x)
  {
    if !c.fill {
      FilledIn(s.results, x);
    }
    assert SlotOk(s, x);
    assert x.key in s.settled ==> x.key in s.settled.Keys;
  }

  lemma {:induction false} FilledIn(results: seq<Slot>, x: Slot)
    requires x in Filled(results)
    ensures x in results && !x.cell.Hole?
  {
    if x in Filled(results[1..]) {
      FilledIn(results[1..], x);
    }
  }
}
