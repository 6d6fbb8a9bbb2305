/**
 The flat walk as a work list, level by level, and its agreement with recursive evaluation.
 */
module FutureWalkSpec {
  import opened FutureTree

  /** A child to settle and what its parent was settled with. */
  datatype Task = Task(parent: Outcome, child: Future)

  datatype Entry = Entry(id: nat, outcome: Outcome, unhandled: bool)

  datatype Walked = Walked(outcomes: Outcomes, log: seq<Entry>, stopped: bool)

  function TasksOf(parent: Outcome, children: seq<Future>): (r: seq<Task>)
    ensures |r| == |children|
    ensures forall i :: 0 <= i < |children| ==> r[i] == Task(parent, children[i])
  {
    seq(|children|, i requires 0 <= i < |children| => Task(parent, children[i]))
  }

  function Kids(t: Task): seq<Task> { TasksOf(Settle(t.child, t.parent), t.child.children) }

  /** A rejection nobody takes: no child future to pass it on to and no awaiter. */
  predicate Unhandled(f: Future, outcome: Outcome) {
    outcome.Failed? && f.children == [] && !f.watched
  }

  function EntryOf(t: Task): Entry {
    var outcome := Settle(t.child, t.parent);
    Entry(t.child.id, outcome, Unhandled(t.child, outcome))
  }

  // ------------------------------------------------------------------------------------ size

  function Size(f: Future): nat
    decreases f
  {
    1 + SizeAll(f.children)
  }

  function SizeAll(fs: seq<Future>): nat
    decreases fs
  {
    if fs == [] then 0 else Size(fs[0]) + SizeAll(fs[1..])
  }

  function Load(work: seq<Task>): nat {
    if work == [] then 0 else Size(work[0].child) + Load(work[1..])
  }

  lemma {:induction false} LoadAppend(a: seq<Task>, b: seq<Task>)
    ensures Load(a + b) == Load(a) + Load(b)
  {
    if a == [] {
      assert a + b == b;
    } else {
      assert (a + b)[1..] == a[1..] + b;
      LoadAppend(a[1..], b);
    }
  }

  lemma {:induction false} LoadTasks(parent: Outcome, children: seq<Future>)
    ensures Load(TasksOf(parent, children)) == SizeAll(children)
  {
    if children != [] {
      assert TasksOf(parent, children)[1..] == TasksOf(parent, children[1..]);
      LoadTasks(parent, children[1..]);
    }
  }

  lemma LoadStep(t: Task, rest: seq<Task>)
    ensures Load(rest + Kids(t)) + 1 == Load([t] + rest)
  {
    LoadAppend(rest, Kids(t));
    LoadTasks(Settle(t.child, t.parent), t.child.children);
    LoadAppend([t], rest);
  }

  // ------------------------------------------------------------------------------- the walk

  /** The walk over a work list that grows at its end; an unhandled rejection stops it. */
  function Walk(work: seq<Task>, outcomes: Outcomes): Walked
    decreases Load(work)
  {
    if work == [] then Walked(outcomes, [], false)
    else
      var t, rest := work[0], work[1..];
      assert work == [t] + rest;
      LoadStep(t, rest);
      LoadAppend([t], rest);
      if t.child.id in outcomes then Walk(rest, outcomes)
      else
        var entry := EntryOf(t);
        if entry.unhandled then Walked(outcomes[entry.id := entry.outcome], [entry], true)
        else
          var w := Walk(rest + Kids(t), outcomes[entry.id := entry.outcome]);
          w.(log := [entry] + w.log)
  }

  /** The futures of a tree level that are pending, and the tasks of the next level. */
  function Entries(level: seq<Task>, before: set<nat>): seq<Entry> {
    if level == [] then []
    else if level[0].child.id in before then Entries(level[1..], before)
    else [EntryOf(level[0])] + Entries(level[1..], before)
  }

  function NextLevel(level: seq<Task>, before: set<nat>): seq<Task> {
    if level == [] then []
    else if level[0].child.id in before then NextLevel(level[1..], before)
    else Kids(level[0]) + NextLevel(level[1..], before)
  }

  lemma {:induction false} NextLevelLoad(level: seq<Task>, before: set<nat>)
    ensures Load(NextLevel(level, before)) + |level| <= Load(level)
  {
    if level != [] {
      LoadAppend(Kids(level[0]), NextLevel(level[1..], before));
      LoadTasks(Settle(level[0].child, level[0].parent), level[0].child.children);
      NextLevelLoad(level[1..], before);
    }
  }

  /** All pending futures below `level`, top level first, each level from left to right. */
  function LevelOrder(level: seq<Task>, before: set<nat>): seq<Entry>
    decreases Load(level)
  {
    if level == [] then []
    else
      NextLevelLoad(level, before);
      Entries(level, before) + LevelOrder(NextLevel(level, before), before)
  }

  /** Up to and including the first rejection that nobody takes. */
  function UpToUnhandled(entries: seq<Entry>): seq<Entry> {
    if entries == [] then []
    else if entries[0].unhandled then [entries[0]]
    else [entries[0]] + UpToUnhandled(entries[1..])
  }

  function Recorded(entries: seq<Entry>): Outcomes {
    if entries == [] then map[] else Recorded(entries[1..])[entries[0].id := entries[0].outcome]
  }
}
