/**
 What the calls on a file handle never take back.
 */
module FileIoHistory {
  import opened Basics
  import opened FileIo
  import opened FileIoProofs
  import opened FileIoSteps
  import opened FileIoBytes
  import opened FileIoRuns

  /** What was started, delivered or passed over, notified and freed stays so. */
  ghost predicate Grows(s: State, t: State) {
    && s.freed <= t.freed && s.notified <= t.notified && s.passed <= t.passed && s.closes <= t.closes
    && s.readLane.launched <= t.readLane.launched && s.writeLane.launched <= t.writeLane.launched
    && s.next <= t.next && (s.closed ==> t.closed) && KindsKept(s, t)
  }

  lemma GrowsTrans(s: State, t: State, u: State)
    requires Grows(s, t) && Grows(t, u)
    ensures Grows(s, u)
  {
  }

  lemma EnterGrows(s: State, id: nat, write: bool, ok: bool)
    requires id in s.reqs
    ensures Grows(s, Enter(s, id, write, ok))
  {
    var lane := LaneOf(s, write);
    if lane.busy {
      LaneGrows(s, write, lane.(queue := lane.queue + [id]));
    } else if ok {
      var t := WithLane(s, write, lane.(busy := true, launched := lane.launched + [id]));
      LaneGrows(s, write, LaneOf(t, write));
      LaunchGrows(t, id);
      GrowsTrans(s, t, Launch(t, id));
    } else {
      SetGrows(s, id, s.reqs[id].(phase := Over, held := true));
    }
  }

  lemma SetGrows(s: State, id: nat, r: Req)
    requires id in s.reqs && r.kind == s.reqs[id].kind
    ensures Grows(s, SetReq(s, id, r))
  {
  }

  lemma LaunchGrows(s: State, id: nat)
    requires id in s.reqs
    ensures Grows(s, Launch(s, id))
  {
  }

  lemma LaneGrows(s: State, write: bool, lane: Lane)
    requires LaneOf(s, write).launched <= lane.launched
    ensures Grows(s, WithLane(s, write, lane))
  {
  }

  lemma MakeGrows(s: State, kind: Kind)
    requires s.next !in s.reqs
    ensures Grows(s, Make(s, kind)) && s.next in Make(s, kind).reqs
  {
  }

  lemma SubmitGrows(s: State, kind: Kind, ok: bool)
    requires Inv(s)
    ensures Grows(s, Submit(s, kind, ok))
  {
    if !s.closed {
      Below(s, None);
      MakeGrows(s, kind);
      var u, t := Make(s, kind), Submit(s, kind, ok);
      if kind.Read? || kind.Write? {
        EnterGrows(u, s.next, kind.Write?, ok);
      }
      assert Grows(u, t);
      GrowsTrans(s, u, t);
    }
  }

  lemma HeadGrows(s: State, x: State, write: bool)
    requires Grows(s, x) && Known(x, write) && LaneOf(x, write).queue != []
    ensures Grows(s, RefuseHead(x, write)) && Grows(s, LaunchHead(x, write))
  {
    HeadKinds(s, x, write);
  }

  lemma DrainGrows(s: State, write: bool, refusals: nat)
    requires Known(s, write)
    ensures Grows(s, Drain(s, write, refusals))
  {
    var P := (x: State) => Grows(s, x);
    forall x | P(x) && Known(x, write) && LaneOf(x, write).queue != [] ensures P(RefuseHead(x, write)) {
      HeadGrows(s, x, write);
    }
    forall x, k: nat | P(x) && Known(x, write) && (LaneOf(x, write).queue == [] || k == 0)
      ensures P(Drain(x, write, k))
    {
      if LaneOf(x, write).queue != [] {
        HeadGrows(s, x, write);
      }
    }
    DrainInduction(s, write, refusals, P, P);
  }

  lemma LandGrows(s: State, id: nat, got: Got)
    requires id in s.reqs
    ensures Grows(s, Land(s, id, got))
  {
    SettleGrows(Back(s, id), id, got);
    assert Grows(s, Back(s, id));
    if s.reqs[id].kind.Read? {
      GrowsTrans(s, Back(s, id), Land(s, id, got));
    }
  }

  lemma SettleGrows(s: State, id: nat, got: Got)
    requires id in s.reqs
    ensures Grows(s, Settle(s, id, got))
  {
  }

  lemma FreeGrows(s: State, id: nat)
    requires id in s.reqs
    ensures Grows(s, Free(s, id))
  {
  }

  lemma DisposeGrows(s: State, id: nat)
    requires id in s.reqs
    ensures Grows(s, Dispose(s, id))
  {
    if !s.reqs[id].phase.Flying? {
      var write := id !in s.readLane.queue;
      var t := OutOfLane(s, write, id);
      LaneGrows(s, write, LaneOf(t, write));
      FreeGrows(t, id);
      FreeGrows(s, id);
      GrowsTrans(s, t, Free(t, id));
    }
  }

  lemma ConcludeGrows(s: State, id: nat)
    requires id in s.reqs
    ensures Grows(s, Conclude(s, id))
  {
  }

  lemma HandOverGrows(s: State, kind: Kind, refusals: nat)
    requires QueuesKnown(s)
    ensures Grows(s, HandOver(s, kind, refusals))
  {
    DrainGrows(s, false, refusals);
    DrainGrows(s, true, refusals);
  }

  lemma CompleteGrows(s: State, id: nat, refusals: nat)
    requires Enabled(s, Completed(id, refusals))
    ensures Grows(s, Complete(s, id, refusals))
  {
    var t := Land(s, id, s.reqs[id].phase.got.value);
    var u := HandOver(t, s.reqs[id].kind, refusals);
    LandGrows(s, id, s.reqs[id].phase.got.value);
    HandOverGrows(t, s.reqs[id].kind, refusals);
    ConcludeGrows(u, id);
    GrowsTrans(s, t, u);
    GrowsTrans(s, u, Conclude(u, id));
  }

  lemma StepGrows(s: State, step: Step)
    requires Inv(s) && Enabled(s, step)
    ensures Grows(s, Apply(s, step))
  {
    match step {
      case Submitted(kind, ok) => SubmitGrows(s, kind, ok);
      case Worked(id, got) =>
      case Completed(id, refusals) => CompleteGrows(s, id, refusals);
      case Disposed(id) => DisposeGrows(s, id);
      case Closed =>
    }
  }

  lemma {:induction false} ChainGrows(run: seq<State>, i: nat, j: nat)
    requires i <= j < |run| && forall k :: 0 <= k < |run| - 1 ==> Grows(run[k], run[k + 1])
    ensures Grows(run[i], run[j])
  {
    if i < j {
      ChainGrows(run, i, j - 1);
      assert Grows(run[j - 1], run[j - 1 + 1]);
      GrowsTrans(run[i], run[j - 1], run[j]);
    }
  }

  lemma RunGrows(run: seq<State>, start: nat, i: nat, j: nat)
    requires IsRun(run, start) && i <= j < |run|
    ensures Grows(run[i], run[j])
  {
    forall k | 0 <= k < |run| - 1 ensures Grows(run[k], run[k + 1]) {
      RunKeeps(run, k, start);
      assert Follows(run[k], run[k + 1]);
      var step :| Enabled(run[k], step) && run[k + 1] == Apply(run[k], step);
      StepGrows(run[k], step);
    }
    ChainGrows(run, i, j);
  }

  /** Freed for good: a request that was freed is not freed again, and is never in the pool,
      queued or held from then on. */
  lemma FreedForGood(run: seq<State>, start: nat, i: nat, j: nat, id: nat)
    requires IsRun(run, start) && i <= j < |run| && id in run[i].freed
    ensures id in run[j].freed && Distinct(run[j].freed) && id in run[j].reqs
    ensures id !in Airborne(run[j]) && id !in run[j].readLane.queue && id !in run[j].writeLane.queue
    ensures !run[j].reqs[id].held
  {
    RunGrows(run, start, i, j);
    RunKeeps(run, j, start);
    assert id in run[j].freed;
    FreedOnce(run, j, start, id);
  }

  /** Over the whole run operations of a kind start in the order they were made: one that is
      started later was made later than all that were started before. */
  lemma StartedInOrder(run: seq<State>, start: nat, i: nat, j: nat, write: bool)
    requires IsRun(run, start) && i <= j < |run|
    ensures var a, b := LaneOf(run[i], write).launched, LaneOf(run[j], write).launched;
            a <= b && forall x, y :: 0 <= x < |a| <= y < |b| ==> a[x] < b[y]
  {
    RunGrows(run, start, i, j);
    OneAtATime(run, j, start, write);
    var a, b := LaneOf(run[i], write).launched, LaneOf(run[j], write).launched;
    var q := LaneOf(run[j], write).queue;
    forall x, y | 0 <= x < |a| <= y < |b| ensures a[x] < b[y] {
      assert (b + q)[x] == a[x] && (b + q)[y] == b[y];
    }
  }
}
