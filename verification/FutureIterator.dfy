/**
 The iterator that walks a tree of futures with one queue that grows while it is traversed.
 */
module FutureIterator {
  import opened Basics
  import opened FutureTree
  import opened FutureWalkSpec
  import opened FutureWalkProofs

  ghost predicate Settled(fs: seq<Future>, outcomes: Outcomes) {
    forall i :: 0 <= i < |fs| ==> fs[i].id in outcomes
  }

  /** The children of queued futures, with what their parents were settled with. */
  ghost function QueueTasks(fs: seq<Future>, outcomes: Outcomes): seq<Task>
    requires Settled(fs, outcomes)
  {
    if fs == [] then [] else TasksOf(outcomes[fs[0].id], fs[0].children) + QueueTasks(fs[1..], outcomes)
  }

  lemma {:induction false} QueueTasksFrame(fs: seq<Future>, outcomes: Outcomes, id: nat, o: Outcome)
    requires Settled(fs, outcomes) && id !in outcomes
    ensures QueueTasks(fs, outcomes[id := o]) == QueueTasks(fs, outcomes)
  {
    if fs != [] {
      QueueTasksFrame(fs[1..], outcomes, id, o);
    }
  }

  lemma {:induction false} QueueTasksPush(fs: seq<Future>, f: Future, outcomes: Outcomes)
    requires Settled(fs, outcomes) && f.id in outcomes
    ensures Settled(fs + [f], outcomes)
    ensures QueueTasks(fs + [f], outcomes) == QueueTasks(fs, outcomes) + TasksOf(outcomes[f.id], f.children)
  {
    if fs == [] {
      assert (fs + [f])[1..] == [];
      assert QueueTasks([], outcomes) == [];
    } else {
      assert (fs + [f])[1..] == fs[1..] + [f];
      QueueTasksPush(fs[1..], f, outcomes);
    }
  }

  class Iterator {
    var queue: seq<Future>
    var started: bool           // the queue position is set
    var queuePos: nat
    var parent: Option<Future>
    var childPos: nat
    var outcomes: Outcomes
    ghost var log: seq<Entry>

    ghost predicate Valid()
      reads this
    {
      && Settled(queue, outcomes)
      && queuePos <= |queue|
      && (parent.Some? ==>
            && parent.value.id in outcomes && childPos <= |parent.value.children|
            && started && queuePos < |queue|)
    }

    ghost function NextPos(): nat
      requires Valid()
      reads this
    {
      if !started then 0 else if queuePos < |queue| then queuePos + 1 else |queue|
    }

    /** What is left to do: the current parent's remaining children, then the children of the
        queued futures behind it. */
    ghost function Work(): seq<Task>
      requires Valid()
      reads this
    {
      (if parent.Some? then TasksOf(outcomes[parent.value.id], parent.value.children[childPos..]) else [])
      + QueueTasks(queue[NextPos()..], outcomes)
    }

    /** A future that has been settled with `outcome` starts the walk. */
    constructor (first: Future, outcome: Outcome, settled: Outcomes)
      requires first.id in settled && settled[first.id] == outcome
      ensures Valid() && parent.None? && !started
      ensures QueueTasks(queue, outcomes) == TasksOf(outcome, first.children)
      ensures outcomes == settled && log == []
    {
      queue := [first];
      started := false;
      queuePos := 0;
      parent := None;
      childPos := 0;
      outcomes := settled;
      log := [];
      new;
      assert QueueTasks([first], outcomes) == TasksOf(outcome, first.children) + QueueTasks([], outcomes);
    }

    /** Goes on to the next queued future that has children. */
    method NextParent() returns (found: bool)
      requires Valid() && (parent.Some? ==> childPos == |parent.value.children|)
      modifies this`started, this`queuePos, this`parent, this`childPos
      ensures Valid() && Work() == old(Work())
      ensures found ==> parent.Some? && childPos < |parent.value.children|
      ensures !found ==> parent.None? && Work() == []
      decreases |queue| - NextPos()
    {
      ghost var work := Work();
      ghost var next := NextPos();
      assert work == QueueTasks(queue[next..], outcomes);
      parent := None;
      if |queue| == 0 {
        return false;
      }
      if !started {
        queuePos := 0;
        started := true;
      } else if queuePos < |queue| {
        queuePos := queuePos + 1;
      }
      if queuePos == |queue| {
        assert queue[next..] == [];
        return false;
      }
      assert queuePos == next;
      parent := Some(queue[queuePos]);
      childPos := 0;
      assert queue[next..][1..] == queue[NextPos()..] && queue[next..][0] == parent.value;
      assert parent.value.children[0..] == parent.value.children;
      assert work == Work();
      if |parent.value.children| > 0 {
        return true;
      }
      found := NextParent();
    }

    /** Back to the first queued future. */
    method Rewind()
      requires Valid()
      modifies this`started, this`queuePos, this`parent, this`childPos
      ensures Valid() && Work() == QueueTasks(queue, outcomes)
    {
      started := false;
      parent := None;
      assert queue[NextPos()..] == queue;
      var _ := NextParent();
    }

    /** Is there a current child? Switches to the next parent where needed. */
    method IsValid() returns (valid: bool)
      requires Valid()
      modifies this`started, this`queuePos, this`parent, this`childPos
      ensures Valid() && Work() == old(Work())
      ensures valid ==> parent.Some? && childPos < |parent.value.children|
      ensures !valid ==> Work() == []
    {
      while true
        invariant Valid() && Work() == old(Work())
        decreases parent.None? || childPos == |parent.value.children|
      {
        if parent.Some? && childPos < |parent.value.children| {
          return true;
        }
        var found := NextParent();
        if !found {
          return false;
        }
      }
    }

    /** Moves past the current child; the parent stays, the handler still needs it. */
    method MoveForward()
      requires Valid() && parent.Some? && childPos < |parent.value.children|
      modifies this`childPos
      ensures Valid() && Work() == old(Work())[1..]
      ensures old(Work()) == [Task(outcomes[parent.value.id], parent.value.children[old(childPos)])] + Work()
    {
      ghost var work := Work();
      ghost var was := parent.value.children[childPos..];
      childPos := childPos + 1;
      assert parent.value.children[childPos..] == was[1..];
      assert TasksOf(outcomes[parent.value.id], was)[1..] == TasksOf(outcomes[parent.value.id], was[1..]);
    }

    /** A settled child stands behind the others until its own children are due. */
    method Enqueue(child: Future)
      requires Valid() && parent.Some? && child.id in outcomes
      modifies this`queue
      ensures Valid() && Work() == old(Work()) + TasksOf(outcomes[child.id], child.children)
    {
      ghost var behind := queue[NextPos()..];
      queue := queue + [child];
      assert queue[NextPos()..] == behind + [child];
      QueueTasksPush(behind, child, outcomes);
    }

    /** Settles one child of the current parent, and queues it if it has children itself. */
    method Process(child: Future) returns (unhandled: bool)
      requires Valid() && parent.Some?
      modifies this`queue, this`outcomes, this`log
      ensures Valid() && parent == old(parent) && childPos == old(childPos)
      ensures child.id in old(outcomes) ==>
                outcomes == old(outcomes) && log == old(log) && Work() == old(Work()) && !unhandled
      ensures child.id !in old(outcomes) ==>
                var t := Task(old(outcomes)[parent.value.id], child);
                && outcomes == old(outcomes)[child.id := Settle(child, t.parent)]
                && log == old(log) + [EntryOf(t)]
                && Work() == old(Work()) + Kids(t)
                && unhandled == EntryOf(t).unhandled
    {
      if child.id in outcomes {
        return false;
      }
      ghost var before, t := outcomes, Task(outcomes[parent.value.id], child);
      var outcome := Settle(child, outcomes[parent.value.id]);
      ghost var behind := queue[NextPos()..];
      QueueTasksFrame(behind, outcomes, child.id, outcome);
      outcomes := outcomes[child.id := outcome];
      log := log + [EntryOf(t)];
      assert Work() == old(Work());
      if |child.children| > 0 {
        Enqueue(child);
      } else {
        assert Kids(t) == [];
      }
      unhandled := outcome.Failed? && |child.children| == 0 && !child.watched;
    }

    /** The iteration loop: it moves on before it handles a child, and ends when nothing is
        left or a rejection was not taken by anybody. */
    method Walks() returns (stopped: bool)
      requires Valid() && log == []
      modifies this
      ensures Walked(outcomes, log, stopped) == Walk(old(QueueTasks(queue, outcomes)), old(outcomes))
    {
      Rewind();
      ghost var all := Walk(Work(), outcomes);
      stopped := false;
      assert all.log == [] + all.log;
      while true
        invariant Valid() && !stopped
        invariant Walked(all.outcomes, all.log, all.stopped) == Ahead(log, Walk(Work(), outcomes))
        decreases Load(Work())
      {
        var valid := IsValid();
        if !valid {
          return;
        }
        ghost var work := Work();
        var child := parent.value.children[childPos];
        ghost var t := Task(outcomes[parent.value.id], child);
        MoveForward();
        ghost var rest := Work();
        ghost var earlier := outcomes;
        WalkStep(t, rest, earlier, Walk(work, earlier));
        LoadLess(t, rest);
        AheadStep(log, EntryOf(t), Walk(rest + Kids(t), earlier[child.id := EntryOf(t).outcome]));
        stopped := Process(child);
        if stopped {
          return;
        }
      }
    }
  }

  function Ahead(log: seq<Entry>, w: Walked): Walked { w.(log := log + w.log) }

  lemma AheadStep(log: seq<Entry>, entry: Entry, w: Walked)
    ensures Ahead(log + [entry], w) == Ahead(log, w.(log := [entry] + w.log))
  {
    assert log + [entry] + w.log == log + ([entry] + w.log);
  }

  /** What follows when `first`, settled with `outcome`, has its children walked: every pending
      descendant gets what recursive evaluation gives it, exactly if no rejection but the
      last in level order is left without a taker. */
  method SettleTree(first: Future, outcome: Outcome, settled: Outcomes) returns (r: Outcomes, stopped: bool)
    requires first.id in settled && settled[first.id] == outcome && AllDistinct(IdsAll(first.children))
    ensures SettlesTree(first, outcome, settled, r, stopped)
    ensures WatchedAll(first.children) ==>
              r == settled + EvalAll(first.children, outcome, settled.Keys) && !stopped
  {
    var walk := new Iterator(first, outcome, settled);
    stopped := walk.Walks();
    r := walk.outcomes;
    WalkSettlesTree(first, outcome, settled);
    if WatchedAll(first.children) {
      WatchedTreeIsSettled(first, outcome, settled);
    }
  }

  lemma WatchedTreeIsSettled(first: Future, outcome: Outcome, settled: Outcomes)
    requires AllDistinct(IdsAll(first.children)) && WatchedAll(first.children)
    ensures var w := Walk(TasksOf(outcome, first.children), settled);
            w.outcomes == settled + EvalAll(first.children, outcome, settled.Keys) && !w.stopped
  {
    WorkIdsTasks(outcome, first.children);
    EvalTasks(outcome, first.children, settled.Keys);
    WatchedTasks(outcome, first.children);
    WatchedWalkIsEval(TasksOf(outcome, first.children), settled);
  }

  ghost predicate SettlesTree(first: Future, outcome: Outcome, settled: Outcomes, r: Outcomes, stopped: bool) {
    var all := EvalAll(first.children, outcome, settled.Keys);
    var order := LevelOrder(TasksOf(outcome, first.children), settled.Keys);
    && (r == settled + all <==> RunsThrough(order))
    && (forall x :: x in r ==> x in settled + all && r[x] == (settled + all)[x])
    && (forall x :: x in settled ==> x in r && r[x] == settled[x])
    && (stopped <==> AnyUnhandled(order))
  }

  lemma WalkSettlesTree(first: Future, outcome: Outcome, settled: Outcomes)
    requires AllDistinct(IdsAll(first.children))
    ensures var w := Walk(TasksOf(outcome, first.children), settled);
            SettlesTree(first, outcome, settled, w.outcomes, w.stopped)
  {
    var work := TasksOf(outcome, first.children);
    WorkIdsTasks(outcome, first.children);
    EvalTasks(outcome, first.children, settled.Keys);
    EvalPending(work, settled.Keys);
    WalkRefinesEval(work, settled);
    var w := Walk(work, settled);
    WithRecorded(settled, Recorded(w.log), EvalWork(work, settled.Keys), w.outcomes);
  }

  lemma WithRecorded(settled: Outcomes, m: Outcomes, all: Outcomes, r: Outcomes)
    requires r == settled + m && m.Keys !! settled.Keys && all.Keys !! settled.Keys
    requires forall x :: x in m ==> x in all && m[x] == all[x]
    ensures forall x :: x in r ==> x in settled + all && r[x] == (settled + all)[x]
    ensures forall x :: x in settled ==> x in r && r[x] == settled[x]
  {
  }
}
