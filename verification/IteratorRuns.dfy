/**
 Concurrent iteration over whole runs.
 */
module IteratorRuns {
  import opened Basics
  import opened IteratorModel
  import opened IteratorProofs

  ghost predicate Follows(s: State, t: State) {
    exists step :: Enabled(s, step) && t == Apply(s, step)
  }

  ghost predicate IsRun(run: seq<State>, total: nat, limit: nat) {
    && |run| > 0 && run[0] == Init(total, limit)
    && forall i :: 0 <= i < |run| - 1 ==> Follows(run[i], run[i + 1])
  }

  lemma LoopKeeps(s: State, k: nat)
    requires k < |s.cos|
    ensures Loop(s, k).total == s.total && Loop(s, k).limit == s.limit
  {
  }

  lemma StepKeeps(s: State, step: Step)
    requires Enabled(s, step)
    ensures Apply(s, step).total == s.total && Apply(s, step).limit == s.limit
  {
    match step {
      case Starts(k) => LoopKeeps(Queue(s.(started := s.started + 1)), k);
      case Returns(k, verdict) => LoopKeeps(if verdict.GoOn? then s else Ended(s), k);
      case CancelledFirst(k) =>
      case RunsMicrotask(ok) =>
    }
  }

  lemma FollowsInv(s: State, t: State)
    requires Inv(s) && Follows(s, t)
    ensures Inv(t) && t.total == s.total && t.limit == s.limit
  {
    var step :| Enabled(s, step) && t == Apply(s, step);
    StepInv(s, step);
    StepKeeps(s, step);
  }

  lemma {:induction false} RunInv(run: seq<State>, total: nat, limit: nat, i: nat)
    requires IsRun(run, total, limit) && i < |run|
    ensures Inv(run[i]) && run[i].total == total && run[i].limit == limit
  {
    if i == 0 {
      InitInv(total, limit);
    } else {
      RunInv(run, total, limit, i - 1);
      assert Follows(run[i - 1], run[i - 1 + 1]);
      FollowsInv(run[i - 1], run[i]);
    }
  }

  ghost function Holders(s: State): set<nat> { HoldersBelow(s, |s.cos|) }

  lemma {:induction false} LiveIsHolders(s: State, n: nat)
    requires n <= |s.cos|
    ensures Live(s.cos[..n]) == |HoldersBelow(s, n)|
  {
    if n > 0 {
      LiveIsHolders(s, n - 1);
      HoldersStep(s, n);
      assert s.cos[..n][..n - 1] == s.cos[..n - 1];
    } else {
      assert HoldersBelow(s, n) == {};
    }
  }

  ghost function HoldersBelow(s: State, n: nat): set<nat>
    requires n <= |s.cos|
  {
    set k | 0 <= k < n && !s.cos[k].Left?
  }

  lemma HoldersStep(s: State, n: nat)
    requires 0 < n <= |s.cos|
    ensures |HoldersBelow(s, n)| == |HoldersBelow(s, n - 1)| + if s.cos[n - 1].Left? then 0 else 1
  {
    var fewer := HoldersBelow(s, n - 1);
    assert HoldersBelow(s, n) == if s.cos[n - 1].Left? then fewer else fewer + {n - 1};
  }

  // ------------------------------------------------------------------------------- what only grows

  /** No element is handed out a second time, no coroutine comes back, and the iteration does
      not begin again: whoever handles an element later was handed it later, or handles it
      still. */
  ghost predicate Grows(s: State, t: State) {
    && s.handed <= t.handed && s.position <= t.position && |s.cos| <= |t.cos|
    && s.notified <= t.notified && s.freed <= t.freed && s.stops <= t.stops && s.started <= t.started
    && (s.finished ==> t.finished && t.position == s.position)
    && (forall k :: 0 <= k < |s.cos| && s.cos[k].Left? ==> t.cos[k].Left?)
    && (forall k :: 0 <= k < |t.cos| ==> StillOrLater(s, k, t.cos[k]))
  }

  predicate StillOrLater(s: State, k: nat, co: Co) {
    co.Handling? ==> |s.handed| <= co.element || (k < |s.cos| && s.cos[k] == co)
  }

  lemma GrowsTrans(s: State, t: State, u: State)
    requires Grows(s, t) && Grows(t, u)
    ensures Grows(s, u)
  {
    forall k | 0 <= k < |u.cos| ensures StillOrLater(s, k, u.cos[k]) {
      assert StillOrLater(t, k, u.cos[k]);
      assert k < |t.cos| ==> StillOrLater(s, k, t.cos[k]);
    }
  }

  lemma LeaveGrows(s: State, k: nat)
    requires k < |s.cos|
    ensures Grows(s, Leave(s, k))
  {
    var t := Leave(s, k);
    assert t.cos == s.cos[k := Left] && t.handed == s.handed;
  }

  lemma LoopGrows(s: State, k: nat)
    requires k < |s.cos| && |s.handed| == s.position && !s.cos[k].Left?
    ensures Grows(s, Loop(s, k))
  {
    if s.finished {
      LeaveGrows(s, k);
    } else if s.position >= s.total {
      LeaveGrows(Finish(s), k);
      GrowsTrans(s, Finish(s), Leave(Finish(s), k));
    }
  }

  lemma MicrotaskGrows(s: State, ok: bool)
    requires s.queued > 0
    ensures Grows(s, Microtask(s, ok))
  {
    var t := Microtask(s, ok);
    assert t.handed == s.handed && (t.cos == s.cos || t.cos == s.cos + [Spawned]);
  }

  lemma StartGrows(s: State, k: nat)
    requires k < |s.cos| && |s.handed| == s.position && !s.cos[k].Left?
    ensures Grows(s, Start(s, k))
  {
    var t := Queue(s.(started := s.started + 1));
    LoopGrows(t, k);
    GrowsTrans(s, t, Loop(t, k));
  }

  lemma ReturnGrows(s: State, k: nat, verdict: Verdict)
    requires k < |s.cos| && |s.handed| == s.position && !s.cos[k].Left?
    ensures Grows(s, Return(s, k, verdict))
  {
    LoopGrows(s, k);
    LoopGrows(Ended(s), k);
    GrowsTrans(s, Ended(s), Loop(Ended(s), k));
  }

  lemma StepGrows(s: State, step: Step)
    requires Inv(s) && Enabled(s, step)
    ensures Grows(s, Apply(s, step))
  {
    match step {
      case Starts(k) => StartGrows(s, k);
      case Returns(k, verdict) => ReturnGrows(s, k, verdict);
      case CancelledFirst(k) => LeaveGrows(s, k);
      case RunsMicrotask(ok) => MicrotaskGrows(s, ok);
    }
  }

  lemma {:induction false} ChainGrows(run: seq<State>, i: nat, j: nat)
    requires i <= j < |run| && forall k :: 0 <= k < |run| - 1 ==> Grows(run[k], run[k + 1])
    ensures Grows(run[i], run[j])
  {
    if i < j {
      ChainGrows(run, i, j - 1);
      assert Grows(run[j - 1], run[j - 1 + 1]);
      GrowsTrans(run[i], run[j - 1], run[j]);
    }
  }

  lemma RunGrows(run: seq<State>, total: nat, limit: nat, i: nat, j: nat)
    requires IsRun(run, total, limit) && i <= j < |run|
    ensures Grows(run[i], run[j])
  {
    forall k | 0 <= k < |run| - 1 ensures Grows(run[k], run[k + 1]) {
      RunInv(run, total, limit, k);
      assert Follows(run[k], run[k + 1]);
      var step :| Enabled(run[k], step) && run[k + 1] == Apply(run[k], step);
      StepGrows(run[k], step);
    }
    ChainGrows(run, i, j);
  }

  // -------------------------------------------------------------------------------------- theorems

  /** The slots in use are those of the coroutines that have not left, never more than the
      limit. */
  lemma SlotsWithinLimit(run: seq<State>, total: nat, limit: nat, i: nat)
    requires IsRun(run, total, limit) && i < |run|
    ensures run[i].active == |Holders(run[i])| && (limit > 0 ==> run[i].active <= limit)
  {
    RunInv(run, total, limit, i);
    LiveIsHolders(run[i], |run[i].cos|);
    assert run[i].cos[..|run[i].cos|] == run[i].cos;
  }

  /** Elements are handed out as 0, 1, 2, ...: a step hands out none or the next one, and what
      was handed out stays so. */
  lemma HandedOutInOrder(run: seq<State>, total: nat, limit: nat, i: nat, j: nat)
    requires IsRun(run, total, limit) && i <= j < |run|
    ensures run[i].handed <= run[j].handed && |run[j].handed| == run[j].position <= total
    ensures j == i + 1 ==>
              || run[j].handed == run[i].handed
              || exists k :: 0 <= k < |run[j].cos| && run[j].cos[k] == Handling(|run[i].handed|)
                             && run[j].handed == run[i].handed + [k]
  {
    RunGrows(run, total, limit, i, j);
    RunInv(run, total, limit, i);
    RunInv(run, total, limit, j);
    if j == i + 1 && run[j].handed != run[i].handed {
      assert Follows(run[i], run[i + 1]);
      var step :| Enabled(run[i], step) && run[j] == Apply(run[i], step);
      var k := StepHandsOut(run[i], step);
    }
  }

  lemma LoopHandsOut(s: State, k: nat)
    requires k < |s.cos| && |s.handed| == s.position
    ensures var t := Loop(s, k);
            t.handed == s.handed || (k < |t.cos| && t.cos[k] == Handling(|s.handed|) && t.handed == s.handed + [k])
  {
  }

  lemma StepHandsOut(s: State, step: Step) returns (k: nat)
    requires Inv(s) && Enabled(s, step) && Apply(s, step).handed != s.handed
    ensures var t := Apply(s, step);
            k < |t.cos| && t.cos[k] == Handling(|s.handed|) && t.handed == s.handed + [k]
  {
    match step {
      case Starts(x) =>
        k := x;
        LoopHandsOut(Queue(s.(started := s.started + 1)), k);
      case Returns(x, verdict) =>
        k := x;
        LoopHandsOut(if verdict.GoOn? then s else Ended(s), k);
    }
  }

  /** Each element is handled by one coroutine only, whatever the states in which it is seen ... */
  lemma HandledByOne(run: seq<State>, total: nat, limit: nat, i: nat, j: nat, k: nat, l: nat)
    requires IsRun(run, total, limit) && i <= j < |run| && k < |run[i].cos| && l < |run[j].cos|
    requires run[i].cos[k].Handling? && run[i].cos[k] == run[j].cos[l]
    ensures k == l
    ensures run[i].cos[k].element < |run[j].handed| && run[j].handed[run[i].cos[k].element] == k
  {
    RunInv(run, total, limit, i);
    RunInv(run, total, limit, j);
    RunGrows(run, total, limit, i, j);
    assert CoOk(run[i], k, run[i].cos[k]) && CoOk(run[j], l, run[j].cos[l]);
  }

  /** ... in one call: when a handler call returns, whatever it returned, its element is never
      handled again by anybody ... */
  lemma ReturnIsFinal(run: seq<State>, total: nat, limit: nat, i: nat, m: nat, k: nat, verdict: Verdict)
    requires IsRun(run, total, limit) && i < m < |run| && Enabled(run[i], Returns(k, verdict))
    requires run[i + 1] == Apply(run[i], Returns(k, verdict))
    ensures forall l :: 0 <= l < |run[m].cos| ==> run[m].cos[l] != run[i].cos[k]
  {
    var e := run[i].cos[k].element;
    RunInv(run, total, limit, i);
    assert CoOk(run[i], k, run[i].cos[k]);
    ReturnLetsGo(run[i], k, verdict);
    GoneForGood(run, total, limit, i, i + 1, m, k, e);
  }

  lemma ReturnLetsGo(s: State, k: nat, verdict: Verdict)
    requires Inv(s) && Enabled(s, Returns(k, verdict))
    ensures var t := Return(s, k, verdict); k < |t.cos| && t.cos[k] != s.cos[k]
  {
    assert CoOk(s, k, s.cos[k]);
  }

  /** Once a coroutine has let go of an element, nobody handles it any more. */
  lemma GoneForGood(run: seq<State>, total: nat, limit: nat, i: nat, j: nat, m: nat, k: nat, e: nat)
    requires IsRun(run, total, limit) && i <= j <= m < |run| && k < |run[i].cos| && k < |run[j].cos|
    requires run[i].cos[k] == Handling(e) && run[j].cos[k] != Handling(e)
    ensures forall l :: 0 <= l < |run[m].cos| ==> run[m].cos[l] != Handling(e)
  {
    RunInv(run, total, limit, i);
    RunGrows(run, total, limit, i, j);
    RunGrows(run, total, limit, j, m);
    assert CoOk(run[i], k, run[i].cos[k]);
    forall l | 0 <= l < |run[m].cos| ensures run[m].cos[l] != Handling(e) {
      assert StillOrLater(run[j], l, run[m].cos[l]);
      if run[m].cos[l] == Handling(e) {
        HandledByOne(run, total, limit, i, m, k, l);
      }
    }
  }

  /** ... and every element that was handed out was handled by the coroutine it went to. */
  lemma {:induction false} HandedIsHandled(run: seq<State>, total: nat, limit: nat, j: nat, e: nat) returns (i: nat)
    requires IsRun(run, total, limit) && j < |run| && e < |run[j].handed|
    ensures i <= j && run[j].handed[e] < |run[i].cos| && run[i].cos[run[j].handed[e]] == Handling(e)
  {
    HandedOutInOrder(run, total, limit, 0, j);
    assert j > 0;
    HandedOutInOrder(run, total, limit, j - 1, j);
    if e < |run[j - 1].handed| {
      i := HandedIsHandled(run, total, limit, j - 1, e);
    } else {
      i := j;
    }
  }

  /** Completion is notified once, exactly when the last slot is given back; it is freed once,
      when nothing refers to it any more. */
  lemma CompletesOnce(run: seq<State>, total: nat, limit: nat, i: nat)
    requires IsRun(run, total, limit) && i < |run|
    ensures run[i].notified == One(Holders(run[i]) == {})
    ensures run[i].freed == One(Holders(run[i]) == {} && run[i].queued == 0)
    ensures run[i].freed == 1 ==> i == |run| - 1
  {
    RunInv(run, total, limit, i);
    var s := run[i];
    LiveIsHolders(s, |s.cos|);
    assert s.cos[..|s.cos|] == s.cos;
    if s.freed == 1 && i < |run| - 1 {
      assert Follows(s, run[i + 1]);
      NothingFollows(s);
    }
  }

  lemma NothingFollows(s: State)
    requires Counts(s) && s.active == 0 && s.queued == 0
    ensures forall step :: !Enabled(s, step)
  {
    forall k | 0 <= k < |s.cos| ensures s.cos[k].Left? {
      LiveZero(s.cos, k);
    }
  }

  /** How far an iteration came that is over: to the end, unless a handler stopped it or threw,
      when it came as far as the first of those, or its first coroutine was cancelled before it
      ran, when it handed out nothing. */
  lemma HowFar(run: seq<State>, total: nat, limit: nat, i: nat)
    requires IsRun(run, total, limit) && i < |run| && run[i].notified == 1
    ensures run[i].position ==
              if run[i].started == 0 then 0 else if run[i].stops > 0 then run[i].stopAt else total
  {
    RunInv(run, total, limit, i);
  }
}
