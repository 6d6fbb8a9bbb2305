/**
 The bookkeeping of an await over every order of completions.
 */
module AwaitProofs {
  import opened AwaitModel

  // ------------------------------------------------------------------------------------ tables

  function Keys(results: seq<Slot>): seq<Key> {
    if results == [] then [] else [results[0].key] + Keys(results[1..])
  }

  ghost predicate Distinct(keys: seq<Key>) { forall i, j :: 0 <= i < j < |keys| ==> keys[i] != keys[j] }

  lemma {:induction false} KeysAt(results: seq<Slot>)
    ensures |Keys(results)| == |results|
    ensures forall i :: 0 <= i < |results| ==> Keys(results)[i] == results[i].key
  {
    if results != [] {
      KeysAt(results[1..]);
    }
  }

  lemma KeysAppend(results: seq<Slot>, slot: Slot)
    ensures Keys(results + [slot]) == Keys(results) + [slot.key]
  {
    KeysAt(results);
    KeysAt(results + [slot]);
  }

  /** An update keeps the order; only the entry of its key changes. */
  lemma {:induction false} PutIs(results: seq<Slot>, key: Key, cell: Cell)
    requires Distinct(Keys(results))
    ensures Keys(Put(results, key, cell)) == if key in Keys(results) then Keys(results) else Keys(results) + [key]
    ensures forall x :: x in Put(results, key, cell) <==> x == Slot(key, cell) || (x in results && x.key != key)
  {
    KeysAt(results);
    if results != [] {
      var rest := results[1..];
      KeysAt(rest);
      assert Distinct(Keys(rest));
      if results[0].key == key {
        assert ([Slot(key, cell)] + rest)[1..] == rest;
        forall x | x in rest ensures x.key != key {
          var i :| 0 <= i < |rest| && rest[i] == x;
          assert Keys(results)[0] != Keys(results)[i + 1];
        }
      } else {
        PutIs(rest, key, cell);
        assert ([results[0]] + Put(rest, key, cell))[1..] == Put(rest, key, cell);
      }
    }
  }

  // --------------------------------------------------------------------------------- invariant

  predicate Ordered(c: Config) { c.preserve || c.fill }

  predicate SlotOk(s: State, slot: Slot) {
    match slot.cell
    case Holds(v) => slot.key in s.settled && s.settled[slot.key] == Done(v)
    case _ => slot.key !in s.succeeded
  }

  /** The settled futures, counted and told apart. */
  ghost predicate Counts(s: State) {
    && s.success == |s.succeeded| && s.resolved == |s.succeeded| + |s.failed|
    && s.succeeded !! s.failed && s.waiting !! s.succeeded && s.waiting !! s.failed
    && s.settled.Keys == s.succeeded + s.failed
    && (forall k :: k in s.succeeded ==> s.settled[k].Done?)
    && (forall k :: k in s.failed ==> s.settled[k].Failed?)
  }

  ghost predicate Registered(s: State) {
    && Distinct(s.registered)
    && (forall k :: k in s.settled || k in s.waiting ==> k in s.registered)
    && (!s.woken ==> forall k :: k in s.registered ==> k in s.settled || k in s.waiting)
  }

  /** Every success is in the results with its value, and nothing else is. */
  ghost predicate Results(c: Config, s: State) {
    && Distinct(Keys(s.results))
    && (Ordered(c) ==> Keys(s.results) == s.registered)
    && (!Ordered(c) ==> forall k :: k in Keys(s.results) ==> k in s.succeeded)
    && (forall x :: x in s.results ==> SlotOk(s, x))
    && (forall k :: k in s.succeeded ==> k in Keys(s.results))
    && (!c.fill && !c.preserve ==> forall x :: x in s.results ==> x.cell.Holds?)
    && (forall x :: x in s.results ==> if c.fill then !x.cell.Hole? else !x.cell.Null?)
  }

  ghost predicate Errors(s: State) {
    && |s.errors| == |s.failed|
    && (forall x :: x in s.errors ==> x.key in s.settled && s.settled[x.key] == Failed(x.error))
    && (forall k :: k in s.failed ==> exists x :: x in s.errors && x.key == k)
  }

  predicate Resuming(c: Config, s: State) {
    (s.resumed ==> Finished(c, s)) && (s.suspended && Finished(c, s) ==> s.resumed)
  }

  ghost predicate Tables(c: Config, s: State) { Counts(s) && Registered(s) && Results(c, s) && Errors(s) }

  ghost predicate Inv(c: Config, s: State) { Tables(c, s) && Resuming(c, s) }

  // ---------------------------------------------------------------------------------- callback

  /** A future about to be settled: registered, and not settled yet. */
  ghost predicate Fresh(s: State, key: Key) { key in s.registered && key !in s.settled && !s.woken }

  lemma OneMore<T>(xs: set<T>, x: T)
    requires x !in xs
    ensures |xs + {x}| == |xs| + 1
  {
  }

  lemma MoreSettled(m: map<Key, Outcome>, a: set<Key>, b: set<Key>, w: set<Key>, key: Key, outcome: Outcome)
    requires m.Keys == a + b && key !in m && a !! b && w !! a && w !! b
    ensures m[key := outcome].Keys == a + {key} + b == a + (b + {key})
    ensures a + {key} !! b && a !! b + {key} && w - {key} !! a + {key} && w - {key} !! b + {key}
    ensures forall k :: k in a || k in b ==> m[key := outcome][k] == m[k]
  {
    assert key !in m.Keys;
  }

  lemma ErrorCounts(s: State, key: Key, e: Error)
    requires Counts(s) && key !in s.settled
    ensures Counts(EnterError(s, key, e))
  {
    assert key !in s.settled.Keys;
    OneMore(s.failed, key);
    MoreSettled(s.settled, s.succeeded, s.failed, s.waiting, key, Failed(e));
  }

  lemma ResultCounts(s: State, key: Key, v: Value)
    requires Counts(s) && key !in s.settled
    ensures Counts(EnterResult(s, key, v))
  {
    assert key !in s.settled.Keys;
    OneMore(s.succeeded, key);
    MoreSettled(s.settled, s.succeeded, s.failed, s.waiting, key, Done(v));
  }

  lemma ErrorTables(c: Config, s: State, key: Key, e: Error)
    requires Counts(s) && Results(c, s) && key !in s.settled
    ensures Results(c, EnterError(s, key, e))
  {
    var t := EnterError(s, key, e);
    forall x | x in t.results ensures SlotOk(t, x) {
      assert SlotOk(s, x);
    }
  }

  lemma ErrorErrors(s: State, key: Key, e: Error)
    requires Counts(s) && Errors(s) && key !in s.settled
    ensures Errors(EnterError(s, key, e))
  {
    var t := EnterError(s, key, e);
    assert t.errors[|s.errors|] == Fault(key, e);
    assert key !in s.settled.Keys;
    forall k | k in t.failed ensures exists x :: x in t.errors && x.key == k {
      if k == key {
        assert Fault(key, e) in t.errors;
      } else {
        var x :| x in s.errors && x.key == k;
        assert x in t.errors;
      }
    }
  }

  lemma ResultErrors(s: State, key: Key, v: Value)
    requires Errors(s) && key !in s.settled
    ensures Errors(EnterResult(s, key, v))
  {
  }

  lemma ResultTables(c: Config, s: State, key: Key, v: Value)
    requires Counts(s) && Results(c, s) && key !in s.settled && key in s.registered
    ensures Results(c, EnterResult(s, key, v))
  {
    var t := EnterResult(s, key, v);
    PutIs(s.results, key, Holds(v));
    forall x | x in t.results ensures SlotOk(t, x) {
      assert x in s.results ==> SlotOk(s, x);
    }
  }

  lemma EnterRegistered(s: State, key: Key, t: State)
    requires Registered(s) && Fresh(s, key) && t.registered == s.registered && t.woken == s.woken
    requires t.settled.Keys == s.settled.Keys + {key} && t.waiting == s.waiting - {key}
    ensures Registered(t)
  {
  }

  lemma ErrorInv(c: Config, s: State, key: Key, e: Error)
    requires Tables(c, s) && Fresh(s, key)
    ensures Tables(c, EnterError(s, key, e))
  {
    ErrorCounts(s, key, e);
    ErrorTables(c, s, key, e);
    ErrorErrors(s, key, e);
    EnterRegistered(s, key, EnterError(s, key, e));
  }

  lemma ResultInv(c: Config, s: State, key: Key, v: Value)
    requires Tables(c, s) && Fresh(s, key)
    ensures Tables(c, EnterResult(s, key, v))
  {
    ResultCounts(s, key, v);
    ResultTables(c, s, key, v);
    ResultErrors(s, key, v);
    EnterRegistered(s, key, EnterResult(s, key, v));
  }

  lemma ErrorResumes(c: Config, s: State, key: Key, e: Error, t: State)
    requires Resuming(c, s) && t == Callback(c, s, key, Failed(e))
    ensures Resuming(c, t) && t == EnterError(s, key, e).(resumed := t.resumed, suspended := t.suspended)
  {
  }

  lemma ResultResumes(c: Config, s: State, key: Key, v: Value, t: State)
    requires Resuming(c, s) && t == Callback(c, s, key, Done(v))
    ensures Resuming(c, t) && t == EnterResult(s, key, v).(resumed := t.resumed, suspended := t.suspended)
  {
  }

  lemma CallbackInv(c: Config, s: State, key: Key, outcome: Outcome, t: State)
    requires Inv(c, s) && Fresh(s, key) && t == Callback(c, s, key, outcome)
    ensures Inv(c, t)
  {
    if outcome.Failed? {
      ErrorInv(c, s, key, outcome.error);
      ErrorResumes(c, s, key, outcome.error, t);
      FlagsInv(c, EnterError(s, key, outcome.error), t);
    } else {
      ResultInv(c, s, key, outcome.value);
      ResultResumes(c, s, key, outcome.value, t);
      FlagsInv(c, EnterResult(s, key, outcome.value), t);
    }
  }

  /** Nothing but a flag changes. */
  lemma FlagsInv(c: Config, s: State, t: State)
    requires Tables(c, s)
    requires t == s.(resumed := t.resumed, suspended := t.suspended) && Resuming(c, t)
    ensures Inv(c, t)
  {
    forall x | x in t.results ensures SlotOk(t, x) {
      assert SlotOk(s, x);
    }
  }

  // ------------------------------------------------------------------------------ registration

  function ItemKeys(items: seq<Keyed>): seq<Key> {
    if items == [] then [] else ItemKeys(items[..|items| - 1]) + [items[|items| - 1].key]
  }

  /** The keys of the elements that are not null. */
  function RealKeys(items: seq<Keyed>): seq<Key> {
    if items == [] then []
    else
      var last := items[|items| - 1];
      RealKeys(items[..|items| - 1]) + if last.item.Nothing? then [] else [last.key]
  }

  ghost predicate DistinctItems(items: seq<Keyed>) {
    forall i, j :: 0 <= i < j < |items| ==> items[i].key != items[j].key
  }

  lemma {:induction false} RealKeysIn(items: seq<Keyed>, k: Key)
    requires k in RealKeys(items)
    ensures exists i :: 0 <= i < |items| && items[i].key == k && !items[i].item.Nothing?
  {
    var n := |items| - 1;
    if k in RealKeys(items[..n]) {
      RealKeysIn(items[..n], k);
      var i :| 0 <= i < n && items[..n][i].key == k && !items[..n][i].item.Nothing?;
      assert items[i].key == k;
    } else {
      assert items[n].key == k;
    }
  }

  lemma SubscribeCounts(c: Config, s: State, key: Key)
    requires Counts(s) && Registered(s) && Errors(s) && !s.woken && key !in s.registered
    ensures var t := Subscribe(c, s, key); Counts(t) && Registered(t) && Errors(t)
  {
    assert key !in s.settled && key !in s.settled.Keys;
  }

  lemma SubscribeResults(c: Config, s: State, key: Key)
    requires Counts(s) && Registered(s) && Results(c, s) && key !in s.registered
    ensures Results(c, Subscribe(c, s, key))
  {
    var t := Subscribe(c, s, key);
    assert key !in s.settled && key !in s.settled.Keys;
    KeysAppend(s.results, Slot(key, Null));
    KeysAppend(s.results, Slot(key, Hole));
    forall x | x in t.results ensures SlotOk(t, x) {
      assert x in s.results ==> SlotOk(s, x);
    }
  }

  lemma SubscribeInv(c: Config, s: State, key: Key)
    requires Inv(c, s) && !s.woken && key !in s.registered
    ensures Inv(c, Subscribe(c, s, key)) && Fresh(Subscribe(c, s, key), key)
  {
    SubscribeCounts(c, s, key);
    SubscribeResults(c, s, key);
  }

  lemma EnlistInv(c: Config, s: State, k: Keyed, t: State)
    requires Inv(c, s) && !s.woken && k.key !in s.registered && t == Enlist(c, s, k)
    ensures Inv(c, t)
  {
    if !k.item.Nothing? {
      SubscribeInv(c, s, k.key);
      if k.item.Closed? {
        CallbackInv(c, Subscribe(c, s, k.key), k.key, k.item.outcome, t);
      }
    }
  }

  lemma EnlistFlags(c: Config, s: State, k: Keyed, t: State)
    requires t == Enlist(c, s, k)
    ensures t.woken == s.woken && t.suspended == s.suspended
    ensures t.registered == if k.item.Nothing? then s.registered else s.registered + [k.key]
  {
  }

  /** What the registration loop keeps at element `i`. */
  ghost predicate Enlisted(c: Config, s: State, i: nat)
    requires i <= |c.items|
  {
    && Inv(c, s) && !s.woken && !s.suspended
    && s.registered == RealKeys(c.items[..i])
  }

  lemma EnlistNext(c: Config, s: State, i: nat, t: State)
    requires DistinctItems(c.items) && i < |c.items| && Enlisted(c, s, i) && t == Enlist(c, s, c.items[i])
    ensures Enlisted(c, t, i + 1)
  {
    var k := c.items[i];
    NotYet(c, i);
    EnlistInv(c, s, k, t);
    EnlistFlags(c, s, k, t);
    assert c.items[..i + 1][..i] == c.items[..i];
  }

  lemma NotYet(c: Config, i: nat)
    requires DistinctItems(c.items) && i < |c.items|
    ensures c.items[i].key !in RealKeys(c.items[..i])
  {
    if c.items[i].key in RealKeys(c.items[..i]) {
      RealKeysIn(c.items[..i], c.items[i].key);
      assert false;
    }
  }

  /** The loop ends at the last element, or earlier with the await finished. */
  lemma {:induction false} RegisterInv(c: Config, s: State, i: nat) returns (end: nat)
    requires DistinctItems(c.items) && i <= |c.items| && Enlisted(c, s, i)
    ensures end <= |c.items| && Enlisted(c, Register(c, s, i), end)
    ensures end < |c.items| ==> Finished(c, Register(c, s, i))
    decreases |c.items| - i
  {
    if i == |c.items| {
      end := i;
    } else {
      var t := Enlist(c, s, c.items[i]);
      EnlistNext(c, s, i, t);
      if c.items[i].item.Closed? && Finished(c, t) {
        end := i + 1;
      } else {
        end := RegisterInv(c, t, i + 1);
      }
    }
  }
}
