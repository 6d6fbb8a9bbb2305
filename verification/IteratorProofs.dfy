/**
 What every run of a concurrent iteration keeps.
 */
module IteratorProofs {
  import opened Basics
  import opened IteratorModel

  /** How many coroutines still hold their slot. */
  function Live(cos: seq<Co>): nat {
    if cos == [] then 0 else Live(cos[..|cos| - 1]) + if cos[|cos| - 1].Left? then 0 else 1
  }

  lemma {:induction false} LiveUpdate(cos: seq<Co>, k: nat, co: Co)
    requires k < |cos|
    ensures Live(cos[k := co]) == Live(cos) + One(!co.Left?) - One(!cos[k].Left?)
  {
    var n := |cos| - 1;
    if k == n {
      assert cos[k := co][..n] == cos[..n];
    } else {
      assert cos[k := co][..n] == cos[..n][k := co];
      LiveUpdate(cos[..n], k, co);
    }
  }

  lemma LiveAppend(cos: seq<Co>)
    ensures Live(cos + [Spawned]) == Live(cos) + 1
  {
    assert (cos + [Spawned])[..|cos|] == cos;
  }

  lemma {:induction false} LiveZero(cos: seq<Co>, k: nat)
    requires k < |cos|
    ensures !cos[k].Left? ==> Live(cos) > 0
  {
    if k < |cos| - 1 {
      LiveZero(cos[..|cos| - 1], k);
    }
  }

  /** A coroutine handles the element that it was handed, and no other one was. */
  predicate CoOk(s: State, k: nat, co: Co) {
    co.Handling? ==> co.element < |s.handed| && s.handed[co.element] == k
  }

  predicate AnyHandling(s: State) { exists k :: 0 <= k < |s.cos| && s.cos[k].Handling? }

  ghost predicate Cos(s: State) { forall k :: 0 <= k < |s.cos| ==> CoOk(s, k, s.cos[k]) }

  /** The slots, the references and the completion. */
  ghost predicate Counts(s: State) {
    && s.active == Live(s.cos) && s.refs == s.active + s.queued
    && (s.limit > 0 ==> s.active <= s.limit)
    && (s.event <==> s.active > 0) && s.notified == One(!s.event) && s.freed == One(s.refs == 0)
  }

  /** How far it is: nobody stops before the end without a reason. */
  ghost predicate Progress(s: State) {
    && |s.handed| == s.position <= s.total
    && (s.active == 0 ==> s.finished) && (s.cancelled ==> s.finished)
    && (s.finished ==> s.position == s.total || s.stops > 0 || (s.started == 0 && s.active == 0))
    && (s.stops > 0 ==> s.finished && s.position == s.stopAt)
    && (s.started == 0 ==> s.queued == 0 && |s.cos| == 1 && s.position == 0 && s.stops == 0)
    && (s.started > 0 && !s.finished ==> AnyHandling(s))
  }

  ghost predicate Inv(s: State) { Cos(s) && Counts(s) && Progress(s) }

  lemma InitInv(total: nat, limit: nat)
    ensures Inv(Init(total, limit))
  {
    assert Live([Spawned]) == Live([]) + 1;
  }

  lemma {:induction false} LiveTwo(cos: seq<Co>, j: nat, k: nat)
    requires j < |cos| && k < |cos| && j != k && !cos[j].Left? && !cos[k].Left?
    ensures Live(cos) >= 2
  {
    LiveUpdate(cos, k, Left);
    LiveZero(cos[k := Left], j);
  }

  /** A coroutine leaves, because the iteration is over or because it never ran. */
  lemma LeaveCounts(s: State, k: nat)
    requires Counts(s) && k < |s.cos| && !s.cos[k].Left?
    ensures Counts(Leave(s, k))
  {
    LiveUpdate(s.cos, k, Left);
    LiveZero(s.cos, k);
  }

  lemma LeaveProgress(s: State, k: nat)
    requires Counts(s) && Progress(s) && k < |s.cos| && !s.cos[k].Left?
    requires s.cos[k].Spawned? || (s.finished && (s.position == s.total || s.stops > 0))
    ensures Progress(Leave(s, k))
  {
    var t := Leave(s, k);
    LiveUpdate(s.cos, k, Left);
    LiveZero(s.cos, k);
    if s.started > 0 && !s.finished {
      var j :| 0 <= j < |s.cos| && s.cos[j].Handling?;
      LiveTwo(s.cos, j, k);
      assert t.cos[j].Handling?;
    }
  }

  lemma LeaveInv(s: State, k: nat)
    requires Inv(s) && k < |s.cos| && !s.cos[k].Left?
    requires s.cos[k].Spawned? || (s.finished && (s.position == s.total || s.stops > 0))
    ensures Inv(Leave(s, k))
  {
    LeaveCounts(s, k);
    LeaveProgress(s, k);
    assert Leave(s, k).cos == s.cos[k := Left] && Leave(s, k).handed == s.handed;
  }

  /** A coroutine that is about to go round its loop: it need not be handling anything. */
  ghost predicate Looping(s: State, k: nat) {
    && Cos(s) && Counts(s) && k < |s.cos| && !s.cos[k].Left? && s.started > 0
    && |s.handed| == s.position <= s.total && s.active > 0
    && (s.cancelled ==> s.finished)
    && (s.finished ==> s.position == s.total || s.stops > 0)
    && (s.stops > 0 ==> s.finished && s.position == s.stopAt)
  }

  lemma LoopInv(s: State, k: nat)
    requires Looping(s, k)
    ensures Inv(Loop(s, k))
  {
    if s.finished {
      LeaveInv(s, k);
    } else if s.position >= s.total {
      LeaveInv(Finish(s), k);
    } else {
      var t := Loop(s, k);
      LiveUpdate(s.cos, k, Handling(s.position));
      assert t.cos[k].Handling?;
      forall j | 0 <= j < |t.cos| ensures CoOk(t, j, t.cos[j]) {
        assert j != k ==> CoOk(s, j, s.cos[j]);
      }
    }
  }

  lemma StartInv(s: State, k: nat)
    requires Inv(s) && Enabled(s, Starts(k))
    ensures Inv(Start(s, k))
  {
    StartLooping(s, k);
    LoopInv(Queue(s.(started := s.started + 1)), k);
  }

  lemma StartLooping(s: State, k: nat)
    requires Inv(s) && Enabled(s, Starts(k))
    ensures Looping(Queue(s.(started := s.started + 1)), k)
  {
    var t := Queue(s.(started := s.started + 1));
    LiveZero(s.cos, k);
    forall j | 0 <= j < |t.cos| ensures CoOk(t, j, t.cos[j]) {
      assert CoOk(s, j, s.cos[j]);
    }
  }

  lemma ReturnLooping(s: State, k: nat)
    requires Inv(s) && k < |s.cos| && s.cos[k].Handling?
    ensures Looping(s, k)
  {
    LiveZero(s.cos, k);
    assert CoOk(s, k, s.cos[k]);
  }

  lemma EndedLooping(s: State, k: nat)
    requires Looping(s, k)
    ensures Looping(Ended(s), k)
  {
    forall j | 0 <= j < |s.cos| ensures CoOk(Ended(s), j, s.cos[j]) {
      assert CoOk(s, j, s.cos[j]);
    }
  }

  lemma ReturnInv(s: State, k: nat, verdict: Verdict)
    requires Inv(s) && Enabled(s, Returns(k, verdict))
    ensures Inv(Return(s, k, verdict))
  {
    ReturnLooping(s, k);
    if verdict.GoOn? {
      LoopInv(s, k);
    } else {
      EndedLooping(s, k);
      LoopInv(Ended(s), k);
    }
  }

  lemma MicrotaskCounts(s: State, ok: bool)
    requires Counts(s) && s.queued > 0 && (s.active == 0 ==> s.finished)
    ensures Counts(Microtask(s, ok))
  {
    LiveAppend(s.cos);
  }

  lemma MicrotaskCos(s: State, ok: bool)
    requires Cos(s) && s.queued > 0
    ensures Cos(Microtask(s, ok)) && (AnyHandling(s) ==> AnyHandling(Microtask(s, ok)))
  {
    var t := Microtask(s, ok);
    assert t.handed == s.handed && (t.cos == s.cos || t.cos == s.cos + [Spawned]);
    forall j | 0 <= j < |t.cos| ensures CoOk(t, j, t.cos[j]) {
      assert j < |s.cos| ==> t.cos[j] == s.cos[j] && CoOk(s, j, s.cos[j]);
    }
    if AnyHandling(s) {
      var j :| 0 <= j < |s.cos| && s.cos[j].Handling?;
      assert t.cos[j].Handling?;
    }
  }

  lemma MicrotaskInv(s: State, ok: bool)
    requires Inv(s) && s.queued > 0
    ensures Inv(Microtask(s, ok))
  {
    MicrotaskCounts(s, ok);
    MicrotaskCos(s, ok);
  }

  lemma StepInv(s: State, step: Step)
    requires Inv(s) && Enabled(s, step)
    ensures Inv(Apply(s, step))
  {
    match step {
      case Starts(k) => StartInv(s, k);
      case Returns(k, verdict) => ReturnInv(s, k, verdict);
      case CancelledFirst(k) => LeaveInv(s, k);
      case RunsMicrotask(ok) => MicrotaskInv(s, ok);
    }
  }
}
