/**
 The flat walk refines recursive evaluation: order, outcomes, each future once, and exactly
 when the walk gets through the whole tree.
 */
module FutureWalkProofs {
  import opened FutureTree
  import opened FutureWalkSpec

  // ------------------------------------------------------------------------------- identity

  function Ids(f: Future): multiset<nat>
    decreases f
  {
    multiset{f.id} + IdsAll(f.children)
  }

  function IdsAll(fs: seq<Future>): multiset<nat>
    decreases fs
  {
    if fs == [] then multiset{} else Ids(fs[0]) + IdsAll(fs[1..])
  }

  function WorkIds(work: seq<Task>): multiset<nat> {
    if work == [] then multiset{} else Ids(work[0].child) + WorkIds(work[1..])
  }

  /** No future occurs twice, and one that is settled already was so before the walk. */
  ghost predicate Fresh(work: seq<Task>, outcomes: Outcomes, before: set<nat>) {
    && before <= outcomes.Keys
    && (forall x :: x in WorkIds(work) ==> WorkIds(work)[x] == 1 && (x in outcomes ==> x in before))
  }

  lemma {:induction false} WorkIdsAppend(a: seq<Task>, b: seq<Task>)
    ensures WorkIds(a + b) == WorkIds(a) + WorkIds(b)
  {
    if a == [] {
      assert a + b == b;
    } else {
      assert (a + b)[1..] == a[1..] + b;
      WorkIdsAppend(a[1..], b);
    }
  }

  lemma {:induction false} WorkIdsTasks(parent: Outcome, children: seq<Future>)
    ensures WorkIds(TasksOf(parent, children)) == IdsAll(children)
  {
    if children != [] {
      assert TasksOf(parent, children)[1..] == TasksOf(parent, children[1..]);
      WorkIdsTasks(parent, children[1..]);
    }
  }

  lemma StepIds(t: Task, rest: seq<Task>)
    ensures WorkIds([t] + rest) == multiset{t.child.id} + WorkIds(rest + Kids(t))
    ensures WorkIds(rest) <= WorkIds(rest + Kids(t))
  {
    assert ([t] + rest)[1..] == rest;
    WorkIdsAppend(rest, Kids(t));
    WorkIdsTasks(Settle(t.child, t.parent), t.child.children);
  }

  lemma FreshStep(t: Task, rest: seq<Task>, outcomes: Outcomes, before: set<nat>)
    requires Fresh([t] + rest, outcomes, before)
    ensures Fresh(rest, outcomes, before)
    ensures t.child.id in outcomes <==> t.child.id in before
    ensures Fresh(rest + Kids(t), outcomes[t.child.id := Settle(t.child, t.parent)], before)
  {
    StepIds(t, rest);
    FreshIds(t.child.id, WorkIds([t] + rest), WorkIds(rest + Kids(t)), WorkIds(rest), outcomes, before);
    assert before <= outcomes[t.child.id := Settle(t.child, t.parent)].Keys;
  }

  lemma FreshIds(id: nat, all: multiset<nat>, more: multiset<nat>, rest: multiset<nat>,
                 outcomes: Outcomes, before: set<nat>)
    requires all == multiset{id} + more && rest <= more && before <= outcomes.Keys
    requires forall x :: x in all ==> all[x] == 1 && (x in outcomes ==> x in before)
    ensures id in outcomes <==> id in before
    ensures forall x :: x in more ==> more[x] == 1 && x != id && (x in outcomes ==> x in before)
    ensures forall x :: x in rest ==> rest[x] == 1 && (x in outcomes ==> x in before)
  {
    assert id in all;
    forall x | x in more ensures more[x] == 1 && x != id {
      assert x in all;
    }
    forall x | x in rest ensures rest[x] == 1 {
      assert x in more && rest[x] <= more[x];
    }
  }

  // ---------------------------------------------------------------------------- level order

  /** What is still to come when `rest` of a level is left and `next` was already collected. */
  function Onward(rest: seq<Task>, next: seq<Task>, before: set<nat>): seq<Entry> {
    Entries(rest, before) + LevelOrder(next + NextLevel(rest, before), before)
  }

  lemma OnwardStep(t: Task, rest: seq<Task>, next: seq<Task>, before: set<nat>)
    ensures t.child.id in before ==> Onward([t] + rest, next, before) == Onward(rest, next, before)
    ensures t.child.id !in before ==>
              Onward([t] + rest, next, before) == [EntryOf(t)] + Onward(rest, next + Kids(t), before)
  {
    assert ([t] + rest)[1..] == rest;
    if t.child.id !in before {
      var here, below := Entries(rest, before), NextLevel(rest, before);
      assert next + (Kids(t) + below) == next + Kids(t) + below;
      Assoc([EntryOf(t)], here, LevelOrder(next + Kids(t) + below, before));
    }
  }

  lemma Assoc(a: seq<Entry>, b: seq<Entry>, c: seq<Entry>)
    ensures a + b + c == a + (b + c)
  {
  }

  /** One turn of the walk. */
  lemma WalkStep(t: Task, rest: seq<Task>, outcomes: Outcomes, w: Walked)
    requires w == Walk([t] + rest, outcomes)
    ensures t.child.id in outcomes ==> w == Walk(rest, outcomes)
    ensures t.child.id !in outcomes ==>
              var entry := EntryOf(t);
              if entry.unhandled then w == Walked(outcomes[entry.id := entry.outcome], [entry], true)
              else
                var w' := Walk(rest + Kids(t), outcomes[entry.id := entry.outcome]);
                w == Walked(w'.outcomes, [entry] + w'.log, w'.stopped)
  {
    assert ([t] + rest)[1..] == rest;
  }

  lemma LoadLess(t: Task, rest: seq<Task>)
    ensures Load(rest) < Load([t] + rest) && Load(rest + Kids(t)) < Load([t] + rest)
  {
    LoadStep(t, rest);
    LoadAppend([t], rest);
    assert Load([t]) == Size(t.child);
  }

  lemma {:induction false} WalkIsOnward(rest: seq<Task>, next: seq<Task>, outcomes: Outcomes, before: set<nat>)
    requires Fresh(rest + next, outcomes, before)
    ensures Walk(rest + next, outcomes).log == UpToUnhandled(Onward(rest, next, before))
    decreases Load(rest + next), |next|
  {
    if rest == [] {
      OnwardTurn(next, before);
      assert rest + next == next == next + [];
      if next != [] {
        WalkIsOnward(next, [], outcomes, before);
      }
    } else {
      var t, others := rest[0], rest[1..] + next;
      assert rest + next == [t] + others && rest == [t] + rest[1..];
      FreshStep(t, others, outcomes, before);
      LoadLess(t, others);
      if t.child.id in outcomes {
        WalkIsOnward(rest[1..], next, outcomes, before);
      } else {
        assert others + Kids(t) == rest[1..] + (next + Kids(t));
        WalkIsOnward(rest[1..], next + Kids(t), outcomes[t.child.id := Settle(t.child, t.parent)], before);
      }
      OnwardOnce(t, rest[1..], next, outcomes, before);
    }
  }

  /** One turn of the walk and one step in level order go together. */
  lemma OnwardOnce(t: Task, rest: seq<Task>, next: seq<Task>, outcomes: Outcomes, before: set<nat>)
    requires t.child.id in outcomes <==> t.child.id in before
    requires t.child.id in outcomes ==> Walk(rest + next, outcomes).log == UpToUnhandled(Onward(rest, next, before))
    requires t.child.id !in outcomes ==>
               Walk(rest + next + Kids(t), outcomes[t.child.id := Settle(t.child, t.parent)]).log
               == UpToUnhandled(Onward(rest, next + Kids(t), before))
    ensures Walk([t] + (rest + next), outcomes).log == UpToUnhandled(Onward([t] + rest, next, before))
  {
    OnwardStep(t, rest, next, before);
    WalkStep(t, rest + next, outcomes, Walk([t] + (rest + next), outcomes));
    if t.child.id !in outcomes {
      UpToCons(EntryOf(t), Onward(rest, next + Kids(t), before));
    }
  }

  lemma UpToCons(entry: Entry, entries: seq<Entry>)
    ensures UpToUnhandled([entry] + entries) == if entry.unhandled then [entry] else [entry] + UpToUnhandled(entries)
  {
    assert ([entry] + entries)[1..] == entries;
  }

  lemma OnwardTurn(next: seq<Task>, before: set<nat>)
    ensures Onward([], next, before) == LevelOrder(next, before) == Onward(next, [], before)
  {
    assert next + NextLevel([], before) == next;
    assert [] + NextLevel(next, before) == NextLevel(next, before);
  }

  /** The walk settles futures level by level, up to the first rejection nobody takes. */
  lemma WalkInLevelOrder(work: seq<Task>, outcomes: Outcomes)
    requires Fresh(work, outcomes, outcomes.Keys)
    ensures Walk(work, outcomes).log == UpToUnhandled(LevelOrder(work, outcomes.Keys))
  {
    assert work + [] == work;
    WalkIsOnward(work, [], outcomes, outcomes.Keys);
    OnwardTurn(work, outcomes.Keys);
  }

  // ------------------------------------------------------------------------------- outcomes

  /** The log is the change of the outcomes, entry by entry, and nothing is settled twice. */
  ghost predicate Logged(w: Walked, outcomes: Outcomes) {
    && w.outcomes == outcomes + Recorded(w.log)
    && Recorded(w.log).Keys !! outcomes.Keys
    && |Recorded(w.log)| == |w.log|
    && w.stopped == (w.log != [] && w.log[|w.log| - 1].unhandled)
  }

  lemma LoggedOne(entry: Entry, outcomes: Outcomes)
    requires entry.id !in outcomes && entry.unhandled
    ensures Logged(Walked(outcomes[entry.id := entry.outcome], [entry], true), outcomes)
  {
    RecordOne(entry, []);
    assert [entry] + [] == [entry];
  }

  lemma MoveEntry(outcomes: Outcomes, m: Outcomes, entry: Entry)
    requires entry.id !in m
    ensures outcomes[entry.id := entry.outcome] + m == outcomes + m[entry.id := entry.outcome]
    ensures entry.id !in outcomes && m.Keys !! outcomes[entry.id := entry.outcome].Keys ==>
              m[entry.id := entry.outcome].Keys !! outcomes.Keys
  {
  }

  lemma LoggedMore(entry: Entry, outcomes: Outcomes, w: Walked)
    requires entry.id !in outcomes && !entry.unhandled && Logged(w, outcomes[entry.id := entry.outcome])
    ensures Logged(Walked(w.outcomes, [entry] + w.log, w.stopped), outcomes)
  {
    assert entry.id in outcomes[entry.id := entry.outcome].Keys;
    RecordOne(entry, w.log);
    MoveEntry(outcomes, Recorded(w.log), entry);
    LastOf(entry, w.log);
  }

  lemma LastOf(entry: Entry, log: seq<Entry>)
    ensures ([entry] + log)[|log|] == if log == [] then entry else log[|log| - 1]
  {
  }

  lemma {:induction false} WalkRecords(work: seq<Task>, outcomes: Outcomes)
    ensures Logged(Walk(work, outcomes), outcomes)
    decreases Load(work)
  {
    if work != [] {
      var t, rest := work[0], work[1..];
      assert work == [t] + rest;
      WalkStep(t, rest, outcomes, Walk(work, outcomes));
      LoadLess(t, rest);
      var entry := EntryOf(t);
      if t.child.id in outcomes {
        WalkRecords(rest, outcomes);
      } else if entry.unhandled {
        LoggedOne(entry, outcomes);
      } else {
        var outcomes' := outcomes[entry.id := entry.outcome];
        WalkRecords(rest + Kids(t), outcomes');
        LoggedMore(entry, outcomes, Walk(rest + Kids(t), outcomes'));
      }
    }
  }

  lemma RecordOne(entry: Entry, log: seq<Entry>)
    ensures Recorded([entry] + log) == Recorded(log)[entry.id := entry.outcome]
    ensures entry.id !in Recorded(log) ==> |Recorded([entry] + log)| == |Recorded(log)| + 1
  {
    assert ([entry] + log)[1..] == log;
    var m := Recorded(log);
    assert m[entry.id := entry.outcome].Keys == m.Keys + {entry.id};
    assert |m.Keys| == |m|;
    assert |m[entry.id := entry.outcome].Keys| == |m[entry.id := entry.outcome]|;
  }

  function EvalWork(work: seq<Task>, before: set<nat>): Outcomes {
    if work == [] then map[]
    else Eval(work[0].child, work[0].parent, before) + EvalWork(work[1..], before)
  }

  lemma {:induction false} EvalWorkAppend(a: seq<Task>, b: seq<Task>, before: set<nat>)
    ensures EvalWork(a + b, before) == EvalWork(a, before) + EvalWork(b, before)
  {
    if a == [] {
      assert a + b == b;
    } else {
      assert (a + b)[1..] == a[1..] + b;
      EvalWorkAppend(a[1..], b, before);
      MergeAssoc(Eval(a[0].child, a[0].parent, before), EvalWork(a[1..], before), EvalWork(b, before));
    }
  }

  lemma MergeAssoc(a: Outcomes, b: Outcomes, c: Outcomes)
    ensures a + (b + c) == a + b + c
  {
  }

  lemma {:induction false} EvalTasks(parent: Outcome, children: seq<Future>, before: set<nat>)
    ensures EvalWork(TasksOf(parent, children), before) == EvalAll(children, parent, before)
  {
    if children != [] {
      assert TasksOf(parent, children)[1..] == TasksOf(parent, children[1..]);
      EvalTasks(parent, children[1..], before);
    }
  }

  lemma EvalKeys(f: Future, parent: Outcome, before: set<nat>)
    ensures forall x :: x in Eval(f, parent, before) ==> x in Ids(f)
    decreases f
  {
    EvalAllKeys(f.children, Settle(f, parent), before);
  }

  lemma EvalAllKeys(fs: seq<Future>, parent: Outcome, before: set<nat>)
    ensures forall x :: x in EvalAll(fs, parent, before) ==> x in IdsAll(fs)
    decreases fs
  {
    if fs != [] {
      EvalKeys(fs[0], parent, before);
      EvalAllKeys(fs[1..], parent, before);
    }
  }

  lemma {:induction false} EntriesKeys(level: seq<Task>, before: set<nat>)
    ensures forall x :: x in Recorded(Entries(level, before)) ==> x in WorkIds(level)
  {
    if level != [] {
      EntriesKeys(level[1..], before);
      if level[0].child.id !in before {
        RecordOne(EntryOf(level[0]), Entries(level[1..], before));
      }
    }
  }

  ghost predicate Distinct(work: seq<Task>) {
    forall x :: x in WorkIds(work) ==> WorkIds(work)[x] == 1
  }

  lemma DistinctParts(t: Task, rest: seq<Task>)
    requires Distinct([t] + rest)
    ensures Distinct(rest)
    ensures forall x :: x in WorkIds(rest) ==> x != t.child.id && x !in IdsAll(t.child.children)
    ensures t.child.id !in IdsAll(t.child.children)
  {
    assert ([t] + rest)[1..] == rest;
    assert WorkIds([t] + rest) == multiset{t.child.id} + IdsAll(t.child.children) + WorkIds(rest);
    forall x | x in WorkIds(rest)
      ensures WorkIds(rest)[x] == 1 && x != t.child.id && x !in IdsAll(t.child.children)
    {
      assert x in WorkIds([t] + rest);
    }
    assert t.child.id in WorkIds([t] + rest);
  }

  /** One level of recursive evaluation. */
  lemma {:induction false} EvalLevel(level: seq<Task>, before: set<nat>)
    requires Distinct(level)
    ensures EvalWork(level, before)
         == Recorded(Entries(level, before)) + EvalWork(NextLevel(level, before), before)
  {
    if level != [] {
      var t, rest := level[0], level[1..];
      assert level == [t] + rest;
      DistinctParts(t, rest);
      EvalLevel(rest, before);
      if t.child.id in before {
        EvalSkips(t, rest, before);
      } else {
        EvalFirst(t, rest, before);
      }
    }
  }

  lemma EvalSkips(t: Task, rest: seq<Task>, before: set<nat>)
    requires t.child.id in before
    ensures EvalWork([t] + rest, before) == EvalWork(rest, before)
    ensures Entries([t] + rest, before) == Entries(rest, before)
    ensures NextLevel([t] + rest, before) == NextLevel(rest, before)
  {
    assert ([t] + rest)[1..] == rest;
  }

  lemma EvalFirst(t: Task, rest: seq<Task>, before: set<nat>)
    requires Distinct([t] + rest) && t.child.id !in before
    requires EvalWork(rest, before)
          == Recorded(Entries(rest, before)) + EvalWork(NextLevel(rest, before), before)
    ensures EvalWork([t] + rest, before)
         == Recorded(Entries([t] + rest, before)) + EvalWork(NextLevel([t] + rest, before), before)
  {
    var outcome := Settle(t.child, t.parent);
    var below := NextLevel(rest, before);
    assert ([t] + rest)[1..] == rest;
    DistinctParts(t, rest);
    EvalTasks(outcome, t.child.children, before);
    EvalWorkAppend(Kids(t), below, before);
    RecordOne(EntryOf(t), Entries(rest, before));
    EvalAllKeys(t.child.children, outcome, before);
    EntriesKeys(rest, before);
    Reorder(t.child.id, outcome, EvalAll(t.child.children, outcome, before), Recorded(Entries(rest, before)),
            EvalWork(below, before));
  }

  lemma Reorder(id: nat, outcome: Outcome, kids: Outcomes, here: Outcomes, below: Outcomes)
    requires kids.Keys !! here.Keys && id !in kids && id !in here
    ensures map[id := outcome] + kids + (here + below) == here[id := outcome] + (kids + below)
  {
  }

  lemma {:induction false} NextLevelIds(level: seq<Task>, before: set<nat>)
    ensures WorkIds(NextLevel(level, before)) <= WorkIds(level)
  {
    if level != [] {
      WorkIdsAppend(Kids(level[0]), NextLevel(level[1..], before));
      WorkIdsTasks(Settle(level[0].child, level[0].parent), level[0].child.children);
      NextLevelIds(level[1..], before);
    }
  }

  lemma {:induction false} RecordedAppend(a: seq<Entry>, b: seq<Entry>)
    requires Recorded(a).Keys !! Recorded(b).Keys
    ensures Recorded(a + b) == Recorded(a) + Recorded(b)
  {
    if a == [] {
      assert a + b == b;
    } else {
      assert (a + b)[1..] == a[1..] + b;
      RecordedAppend(a[1..], b);
    }
  }

  // ------------------------------------------------------------- level order and evaluation

  function EntryIds(entries: seq<Entry>): multiset<nat> {
    if entries == [] then multiset{} else multiset{entries[0].id} + EntryIds(entries[1..])
  }

  lemma {:induction false} EntryIdsAppend(a: seq<Entry>, b: seq<Entry>)
    ensures EntryIds(a + b) == EntryIds(a) + EntryIds(b)
  {
    if a == [] {
      assert a + b == b;
    } else {
      assert (a + b)[1..] == a[1..] + b;
      EntryIdsAppend(a[1..], b);
    }
  }

  lemma {:induction false} LevelIds(level: seq<Task>, before: set<nat>)
    ensures EntryIds(Entries(level, before)) + WorkIds(NextLevel(level, before)) <= WorkIds(level)
  {
    if level != [] {
      var t, rest := level[0], level[1..];
      LevelIds(rest, before);
      if t.child.id !in before {
        WorkIdsAppend(Kids(t), NextLevel(rest, before));
        WorkIdsTasks(Settle(t.child, t.parent), t.child.children);
        assert Entries(level, before)[1..] == Entries(rest, before);
      }
    }
  }

  lemma {:induction false} LevelOrderIds(level: seq<Task>, before: set<nat>)
    ensures EntryIds(LevelOrder(level, before)) <= WorkIds(level)
    decreases Load(level)
  {
    if level != [] {
      NextLevelLoad(level, before);
      LevelOrderIds(NextLevel(level, before), before);
      LevelIds(level, before);
      EntryIdsAppend(Entries(level, before), LevelOrder(NextLevel(level, before), before));
    }
  }

  lemma {:induction false} RecordedKeys(entries: seq<Entry>)
    ensures forall x :: x in Recorded(entries) <==> x in EntryIds(entries)
  {
    if entries != [] {
      RecordedKeys(entries[1..]);
    }
  }

  lemma {:induction false} RecordedSize(entries: seq<Entry>)
    requires forall x :: EntryIds(entries)[x] <= 1
    ensures |Recorded(entries)| == |entries|
  {
    if entries != [] {
      var rest := entries[1..];
      assert EntryIds(entries) == multiset{entries[0].id} + EntryIds(rest);
      forall x ensures EntryIds(rest)[x] <= 1 {
        assert EntryIds(entries)[x] <= 1;
      }
      assert EntryIds(entries)[entries[0].id] <= 1;
      RecordedSize(rest);
      RecordedKeys(rest);
      assert entries == [entries[0]] + rest;
      RecordOne(entries[0], rest);
    }
  }

  lemma DistinctEntries(work: seq<Task>, before: set<nat>)
    requires Distinct(work)
    ensures forall x :: EntryIds(LevelOrder(work, before))[x] <= 1
  {
    LevelOrderIds(work, before);
    forall x ensures EntryIds(LevelOrder(work, before))[x] <= 1 {
      assert EntryIds(LevelOrder(work, before))[x] <= WorkIds(work)[x];
    }
  }

  lemma DistinctNext(level: seq<Task>, before: set<nat>)
    requires Distinct(level)
    ensures Distinct(NextLevel(level, before))
  {
    NextLevelIds(level, before);
    forall x | x in WorkIds(NextLevel(level, before)) ensures WorkIds(NextLevel(level, before))[x] == 1 {
      assert x in WorkIds(level);
    }
  }

  /** The whole tree in level order holds each pending future once, with the outcome that
      recursive evaluation gives it. */
  lemma {:induction false} LevelOrderIsEval(level: seq<Task>, before: set<nat>)
    requires Distinct(level)
    ensures Recorded(LevelOrder(level, before)) == EvalWork(level, before)
    ensures |EvalWork(level, before)| == |LevelOrder(level, before)|
    decreases Load(level)
  {
    DistinctEntries(level, before);
    RecordedSize(LevelOrder(level, before));
    if level != [] {
      var here, next := Entries(level, before), NextLevel(level, before);
      NextLevelLoad(level, before);
      DistinctNext(level, before);
      LevelOrderIsEval(next, before);
      EvalLevel(level, before);
      EntryIdsAppend(here, LevelOrder(next, before));
      RecordedKeys(here);
      RecordedKeys(LevelOrder(next, before));
      forall x | x in Recorded(here) ensures x !in Recorded(LevelOrder(next, before)) {
        assert EntryIds(LevelOrder(level, before))[x] <= 1;
      }
      RecordedAppend(here, LevelOrder(next, before));
    }
  }

  // --------------------------------------------------------------------------------- theorems

  /** A rejection nobody takes may only be the very last one in level order. */
  predicate RunsThrough(entries: seq<Entry>) {
    forall i :: 0 <= i < |entries| - 1 ==> !entries[i].unhandled
  }

  predicate AnyUnhandled(entries: seq<Entry>) {
    exists i :: 0 <= i < |entries| && entries[i].unhandled
  }

  lemma {:induction false} UpToIsAllIff(entries: seq<Entry>)
    ensures UpToUnhandled(entries) <= entries
    ensures UpToUnhandled(entries) == entries <==> RunsThrough(entries)
    ensures AnyUnhandled(entries) <==>
              UpToUnhandled(entries) != [] && UpToUnhandled(entries)[|UpToUnhandled(entries)| - 1].unhandled
  {
    if entries != [] {
      var rest := entries[1..];
      UpToIsAllIff(rest);
      if !entries[0].unhandled {
        assert forall i :: 0 < i < |entries| ==> entries[i] == rest[i - 1];
        assert forall i :: 0 <= i < |rest| ==> rest[i] == entries[i + 1];
      } else {
        assert |entries| > 1 ==> !RunsThrough(entries) by {
          assert |entries| > 1 ==> entries[0].unhandled;
        }
      }
    }
  }

  /** The flat walk refines recursive evaluation: it settles no future twice and none with
      another outcome; it settles every pending one exactly if no rejection but the last in
      level order is left without a taker; and it is stopped exactly if there is one. */
  lemma WalkRefinesEval(work: seq<Task>, outcomes: Outcomes)
    requires Fresh(work, outcomes, outcomes.Keys)
    ensures var w, all, order := Walk(work, outcomes), EvalWork(work, outcomes.Keys), LevelOrder(work, outcomes.Keys);
            && w.outcomes == outcomes + Recorded(w.log) && |Recorded(w.log)| == |w.log|
            && (forall x :: x in Recorded(w.log) ==> x !in outcomes && x in all && Recorded(w.log)[x] == all[x])
            && (w.outcomes == outcomes + all <==> RunsThrough(order))
            && (w.stopped <==> AnyUnhandled(order))
  {
    var before := outcomes.Keys;
    var w, all, order := Walk(work, outcomes), EvalWork(work, before), LevelOrder(work, before);
    WalkInLevelOrder(work, outcomes);
    WalkRecords(work, outcomes);
    LevelOrderIsEval(work, before);
    DistinctEntries(work, before);
    EvalPending(work, before);
    AllIff(w, outcomes, order);
    LogIsPrefix(w.log, order);
  }

  lemma LogIsPrefix(log: seq<Entry>, order: seq<Entry>)
    requires log <= order && forall x :: EntryIds(order)[x] <= 1
    ensures forall x :: x in Recorded(log) ==> x in Recorded(order) && Recorded(log)[x] == Recorded(order)[x]
  {
    PrefixRecorded(log, order[|log|..], order);
  }

  lemma AllIff(w: Walked, outcomes: Outcomes, order: seq<Entry>)
    requires Logged(w, outcomes) && w.log == UpToUnhandled(order)
    requires |Recorded(order)| == |order| && Recorded(order).Keys !! outcomes.Keys
    ensures w.log <= order && (w.stopped <==> AnyUnhandled(order))
    ensures w.outcomes == outcomes + Recorded(order) <==> RunsThrough(order)
  {
    UpToIsAllIff(order);
    if w.outcomes == outcomes + Recorded(order) {
      Cancel(outcomes, Recorded(order), Recorded(w.log));
      assert |w.log| == |order|;
    }
  }

  lemma Cancel(outcomes: Outcomes, a: Outcomes, b: Outcomes)
    requires a.Keys !! outcomes.Keys && b.Keys !! outcomes.Keys && outcomes + a == outcomes + b
    ensures a == b
  {
    assert forall x :: x in a ==> x in outcomes + a && (outcomes + a)[x] == a[x];
    assert forall x :: x in b ==> x in outcomes + b && (outcomes + b)[x] == b[x];
    assert forall x :: x in a ==> x in b;
    assert forall x :: x in b ==> x in a;
  }

  lemma PrefixRecorded(a: seq<Entry>, b: seq<Entry>, order: seq<Entry>)
    requires order == a + b && forall x :: EntryIds(order)[x] <= 1
    ensures forall x :: x in Recorded(a) ==> x in Recorded(order) && Recorded(order)[x] == Recorded(a)[x]
  {
    EntryIdsAppend(a, b);
    RecordedKeys(a);
    RecordedKeys(b);
    forall x | x in Recorded(a) ensures x !in Recorded(b) {
      assert EntryIds(order)[x] <= 1;
    }
    RecordedAppend(a, b);
  }

  lemma {:induction false} EvalPending(work: seq<Task>, before: set<nat>)
    ensures EvalWork(work, before).Keys !! before
  {
    if work != [] {
      EvalOnePending(work[0].child, work[0].parent, before);
      EvalPending(work[1..], before);
    }
  }

  lemma EvalOnePending(f: Future, parent: Outcome, before: set<nat>)
    ensures Eval(f, parent, before).Keys !! before
    decreases f
  {
    EvalAllPending(f.children, Settle(f, parent), before);
  }

  lemma EvalAllPending(fs: seq<Future>, parent: Outcome, before: set<nat>)
    ensures EvalAll(fs, parent, before).Keys !! before
    decreases fs
  {
    if fs != [] {
      EvalOnePending(fs[0], parent, before);
      EvalAllPending(fs[1..], parent, before);
    }
  }

  // ------------------------------------------------------------------------------------ paths

  /** A way down the tree, from one of `fs` to the future at its end. */
  ghost predicate IsPath(fs: seq<Future>, path: seq<Future>)
    decreases |path|
  {
    |path| > 0 && path[0] in fs && (|path| > 1 ==> IsPath(path[0].children, path[1..]))
  }

  /** The mappers along the path, one after the other. */
  function Along(path: seq<Future>, parent: Outcome): Outcome {
    if path == [] then parent else Along(path[1..], Settle(path[0], parent))
  }

  ghost predicate Pending(path: seq<Future>, before: set<nat>) {
    forall i :: 0 <= i < |path| ==> path[i].id !in before
  }

  ghost predicate AllDistinct(ids: multiset<nat>) { forall x :: x in ids ==> ids[x] == 1 }

  lemma DistinctTree(fs: seq<Future>)
    requires fs != [] && AllDistinct(IdsAll(fs))
    ensures AllDistinct(IdsAll(fs[0].children)) && AllDistinct(IdsAll(fs[1..]))
    ensures fs[0].id !in IdsAll(fs[1..])
    ensures forall x :: x in IdsAll(fs[0].children) ==> x !in IdsAll(fs[1..]) && x != fs[0].id
  {
    var kids, rest := IdsAll(fs[0].children), IdsAll(fs[1..]);
    assert IdsAll(fs) == multiset{fs[0].id} + kids + rest;
    assert fs[0].id in IdsAll(fs);
    forall x | x in kids ensures kids[x] == 1 && x !in rest && x != fs[0].id {
      assert x in IdsAll(fs);
    }
    forall x | x in rest ensures rest[x] == 1 {
      assert x in IdsAll(fs);
    }
  }

  lemma {:induction false} PathIds(fs: seq<Future>, path: seq<Future>)
    requires IsPath(fs, path)
    ensures path[|path| - 1].id in IdsAll(fs)
    decreases |path|, |fs|
  {
    if path[0] == fs[0] {
      if |path| > 1 {
        PathIds(fs[0].children, path[1..]);
      }
    } else {
      PathIds(fs[1..], path);
    }
  }

  /** Recursive evaluation settles the future at the end of a path of pending futures with
      the mappers along the path ... */
  lemma {:induction false} EvalAlongPath(fs: seq<Future>, path: seq<Future>, parent: Outcome, before: set<nat>)
    requires AllDistinct(IdsAll(fs)) && IsPath(fs, path) && Pending(path, before)
    ensures var id := path[|path| - 1].id;
            id in EvalAll(fs, parent, before) && EvalAll(fs, parent, before)[id] == Along(path, parent)
    decreases |path|, |fs|
  {
    var last := path[|path| - 1];
    DistinctTree(fs);
    EvalAllKeys(fs[1..], parent, before);
    if path[0] == fs[0] {
      var outcome := Settle(fs[0], parent);
      EvalAllKeys(fs[0].children, outcome, before);
      if |path| == 1 {
        assert Along(path, parent) == outcome;
      } else {
        assert path[1..][|path| - 2] == last;
        PathIds(fs[0].children, path[1..]);
        EvalAlongPath(fs[0].children, path[1..], outcome, before);
      }
    } else {
      EvalAlongPath(fs[1..], path, parent, before);
    }
  }

  /** ... and settles nothing else. */
  lemma {:induction false} EvalHasPath(fs: seq<Future>, parent: Outcome, before: set<nat>, id: nat)
      returns (path: seq<Future>)
    requires id in EvalAll(fs, parent, before)
    ensures IsPath(fs, path) && Pending(path, before) && path[|path| - 1].id == id
    decreases fs
  {
    if id in Eval(fs[0], parent, before) {
      var outcome := Settle(fs[0], parent);
      if id == fs[0].id {
        path := [fs[0]];
      } else {
        var down := EvalHasPath(fs[0].children, outcome, before, id);
        path := [fs[0]] + down;
        assert path[1..] == down;
      }
    } else {
      path := EvalHasPath(fs[1..], parent, before, id);
    }
  }

  /** Futures that have nothing to say about `outcome`: maps of a failure, catches of a
      success, and finallys that do not throw. */
  predicate PassesOn(f: Future, outcome: Outcome) {
    match f.kind
    case Map => outcome.Failed?
    case Catch => outcome.Done?
    case Finally => f.mapper(ArgumentOf(outcome)).Returned?
  }

  /** An outcome travels unchanged down to the first future it concerns. */
  lemma {:induction false} TravelsUnchanged(path: seq<Future>, outcome: Outcome)
    requires outcome != Done(Undef) && forall i :: 0 <= i < |path| ==> PassesOn(path[i], outcome)
    ensures Along(path, outcome) == outcome
  {
    if path != [] {
      assert PassesOn(path[0], outcome);
      assert Settle(path[0], outcome) == outcome;
      TravelsUnchanged(path[1..], outcome);
    }
  }

  /** Every future at the end of a chain has somebody who takes its rejection. */
  predicate Watched(f: Future)
    decreases f
  {
    if f.children == [] then f.watched else WatchedAll(f.children)
  }

  predicate WatchedAll(fs: seq<Future>)
    decreases fs
  {
    fs == [] || (Watched(fs[0]) && WatchedAll(fs[1..]))
  }

  predicate WatchedWork(work: seq<Task>) {
    work == [] || (Watched(work[0].child) && WatchedWork(work[1..]))
  }

  lemma {:induction false} WatchedAppend(a: seq<Task>, b: seq<Task>)
    requires WatchedWork(a) && WatchedWork(b)
    ensures WatchedWork(a + b)
  {
    if a == [] {
      assert a + b == b;
    } else {
      assert (a + b)[1..] == a[1..] + b;
      WatchedAppend(a[1..], b);
    }
  }

  lemma {:induction false} WatchedTasks(parent: Outcome, children: seq<Future>)
    requires WatchedAll(children)
    ensures WatchedWork(TasksOf(parent, children))
  {
    if children != [] {
      assert TasksOf(parent, children)[1..] == TasksOf(parent, children[1..]);
      WatchedTasks(parent, children[1..]);
    }
  }

  lemma {:induction false} WatchedLevel(level: seq<Task>, before: set<nat>)
    requires WatchedWork(level)
    ensures WatchedWork(NextLevel(level, before)) && !AnyUnhandled(Entries(level, before))
  {
    if level != [] {
      WatchedLevel(level[1..], before);
      if level[0].child.id !in before {
        WatchedTasks(Settle(level[0].child, level[0].parent), level[0].child.children);
        WatchedAppend(Kids(level[0]), NextLevel(level[1..], before));
      }
    }
  }

  lemma {:induction false} WatchedOrder(level: seq<Task>, before: set<nat>)
    requires WatchedWork(level)
    ensures !AnyUnhandled(LevelOrder(level, before))
    decreases Load(level)
  {
    if level != [] {
      NextLevelLoad(level, before);
      WatchedLevel(level, before);
      WatchedOrder(NextLevel(level, before), before);
    }
  }

  /** What a caller can see to beforehand: if every future without children is watched, the walk
      is never stopped and settles every pending future as recursive evaluation does. */
  lemma WatchedWalkIsEval(work: seq<Task>, outcomes: Outcomes)
    requires Fresh(work, outcomes, outcomes.Keys) && WatchedWork(work)
    ensures Walk(work, outcomes).outcomes == outcomes + EvalWork(work, outcomes.Keys)
    ensures !Walk(work, outcomes).stopped
  {
    WatchedOrder(work, outcomes.Keys);
    WalkRefinesEval(work, outcomes);
  }

  /** Two maps on a rejected future that nobody watches: the first one's rejection stops the
      walk and the second is never settled, though evaluation settles it. */
  lemma SiblingLeftPending(e: Error, m: Argument -> Reaction)
    ensures var root, settled := Failed(e), map[0 := Failed(e)];
            var fs := [Future(1, Map, m, false, []), Future(2, Map, m, false, [])];
            && EvalAll(fs, root, settled.Keys) == map[1 := root, 2 := root]
            && Walk(TasksOf(root, fs), settled) == Walked(map[0 := root, 1 := root], [Entry(1, root, true)], true)
  {
    var root, settled := Failed(e), map[0 := Failed(e)];
    var a, b := Future(1, Map, m, false, []), Future(2, Map, m, false, []);
    var t := Task(root, a);
    assert [a, b][1..] == [b] && [b][1..] == [];
    assert settled.Keys == {0};
    assert Eval(a, root, {0}) == map[1 := root] && Eval(b, root, {0}) == map[2 := root];
    assert EvalAll([b], root, {0}) == map[2 := root];
    assert EvalAll([a, b], root, {0}) == map[1 := root] + map[2 := root];
    assert TasksOf(root, [a, b]) == [t] + [Task(root, b)];
    WalkStep(t, [Task(root, b)], settled, Walk([t] + [Task(root, b)], settled));
  }
}
