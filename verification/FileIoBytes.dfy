/**
 Where the bytes of a file go: the position has moved over what was read, and everything it
 moved over went to a live reader unless an abandoned read could not be put back.
 */
module FileIoBytes {
  import opened Basics
  import opened FileIo
  import opened FileIoProofs
  import opened FileIoSteps

  ghost predicate NoWrites(s: State) { forall id :: id in s.reqs ==> !s.reqs[id].kind.Write? }

  ghost predicate OnlyReads(s: State) { forall id :: id in s.reqs ==> s.reqs[id].kind.Read? }

  function End(passed: seq<Segment>, start: int): int {
    if passed == [] then start else passed[|passed| - 1].at + passed[|passed| - 1].size
  }

  /** One segment begins where the one before it ends. */
  ghost predicate Contiguous(passed: seq<Segment>, start: int) {
    forall i :: 0 <= i < |passed| ==> passed[i].at == End(passed[..i], start)
  }

  ghost predicate AllDelivered(passed: seq<Segment>) {
    forall i :: 0 <= i < |passed| ==> passed[i].delivered
  }

  /** What the read in the pool has taken so far, if anything. */
  function Front(s: State): Got {
    var launched := s.readLane.launched;
    if launched == [] || launched[|launched| - 1] !in s.reqs || !s.reqs[launched[|launched| - 1]].kind.Read? then Failed
    else
      match s.reqs[launched[|launched| - 1]].phase
      case Flying(Some(got)) => got
      case _ => Failed
  }

  ghost predicate BytesAt(position: int, passed: seq<Segment>, front: Got, start: int) {
    && Contiguous(passed, start)
    && if front.Took? then front.at == End(passed, start) && position == front.at + front.size
       else position == End(passed, start)
  }

  ghost predicate Bytes(s: State, start: int) {
    && (NoWrites(s) ==> BytesAt(s.position, s.passed, Front(s), start))
    && (OnlyReads(s) ==> AllDelivered(s.passed))
  }

  ghost predicate KindsKept(s: State, t: State) {
    forall id :: id in s.reqs ==> id in t.reqs && t.reqs[id].kind == s.reqs[id].kind
  }

  /** Steps that move nothing: the bytes stay where they are. */
  lemma Unmoved(s: State, t: State, start: int)
    requires Bytes(s, start) && KindsKept(s, t) && t.position == s.position && t.passed == s.passed
    requires Front(t) == Front(s) || (!Front(t).Took? && !Front(s).Took?)
    ensures Bytes(t, start)
  {
    assert NoWrites(t) ==> NoWrites(s);
    assert OnlyReads(t) ==> OnlyReads(s);
  }

  lemma ContiguousMore(passed: seq<Segment>, segment: Segment, start: int)
    requires Contiguous(passed, start) && segment.at == End(passed, start)
    ensures Contiguous(passed + [segment], start) && End(passed + [segment], start) == segment.at + segment.size
  {
    var all := passed + [segment];
    forall i | 0 <= i < |all| ensures all[i].at == End(all[..i], start) {
      if i < |passed| {
        assert all[..i] == passed[..i];
      } else {
        assert all[..i] == passed;
      }
    }
  }

  // ------------------------------------------------------------------------- submit, dispose

  lemma FrontElsewhere(s: State, t: State, id: nat)
    requires OneChange(s, t, id) && t.readLane.launched == s.readLane.launched
    requires var phase := t.reqs[id].phase;
             phase == (if id in s.reqs then s.reqs[id].phase else Queued) || !phase.Flying? || phase == Flying(None)
    requires id in s.reqs ==> s.reqs[id].phase.Flying? ==> t.reqs[id].phase == s.reqs[id].phase
    ensures Front(t) == Front(s) || (!Front(t).Took? && !Front(s).Took?)
  {
  }

  lemma LaunchReadBytes(s: State, t: State, start: int)
    requires Inv(s) && Bytes(s, start) && !s.readLane.busy && t == Enter(Make(s, Read), s.next, false, true)
    ensures Bytes(t, start)
  {
    Below(s, None);
    Unmoved(s, t, start);
  }

  lemma EnterBytes(s: State, kind: Kind, ok: bool, write: bool, t: State, start: int)
    requires Inv(s) && Bytes(s, start) && (if write then kind.Write? else kind.Read?)
    requires LaneOf(s, write).busy || !ok || write
    requires t == Enter(Make(s, kind), s.next, write, ok)
    ensures Bytes(t, start)
  {
    Below(s, None);
    FrontElsewhere(s, t, s.next);
    Unmoved(s, t, start);
  }

  lemma SubmitBytes(s: State, kind: Kind, ok: bool, start: int)
    requires Inv(s) && Bytes(s, start)
    ensures Bytes(Submit(s, kind, ok), start)
  {
    if !s.closed {
      Below(s, None);
      match kind {
        case Read =>
          if ok && !s.readLane.busy {
            LaunchReadBytes(s, Submit(s, kind, ok), start);
          } else {
            EnterBytes(s, kind, ok, false, Submit(s, kind, ok), start);
          }
        case Write(_) => EnterBytes(s, kind, ok, true, Submit(s, kind, ok), start);
        case Flush => NoLaneBytes(s, kind, start);
        case Stat => NoLaneBytes(s, kind, start);
      }
    }
  }

  lemma NoLaneBytes(s: State, kind: Kind, start: int)
    requires Inv(s) && Bytes(s, start)
    ensures Bytes(Launch(Make(s, kind), s.next), start) && Bytes(Free(Make(s, kind), s.next), start)
  {
    Below(s, None);
    FrontElsewhere(s, Launch(Make(s, kind), s.next), s.next);
    Unmoved(s, Launch(Make(s, kind), s.next), start);
    FrontElsewhere(s, Free(Make(s, kind), s.next), s.next);
    Unmoved(s, Free(Make(s, kind), s.next), start);
  }

  lemma DisposeBytes(s: State, id: nat, t: State, start: int)
    requires Inv(s) && Bytes(s, start) && id in s.reqs && s.reqs[id].held && t == Dispose(s, id)
    ensures Bytes(t, start)
  {
    DisposeMoves(s, id);
    FrontElsewhere(s, t, id);
    Unmoved(s, t, start);
  }

  /** Letting go of a request moves nothing, and puts no request into the pool or out of it. */
  ghost predicate Untaken(s: State, t: State, id: nat) {
    && OneChange(s, t, id) && t.position == s.position && t.passed == s.passed
    && t.readLane.launched == s.readLane.launched
    && id in s.reqs
    && (if s.reqs[id].phase.Flying? then t.reqs[id].phase == s.reqs[id].phase else !t.reqs[id].phase.Flying?)
  }

  lemma FreeMoves(s: State, u: State, id: nat)
    requires id in s.reqs && !s.reqs[id].phase.Flying?
    requires u == s.(readLane := u.readLane, writeLane := u.writeLane)
    requires u.readLane.launched == s.readLane.launched
    ensures Untaken(s, Free(u, id), id)
  {
  }

  lemma DisposeMoves(s: State, id: nat)
    requires id in s.reqs
    ensures Untaken(s, Dispose(s, id), id)
  {
    if !s.reqs[id].phase.Flying? {
      if id in s.readLane.queue {
        FreeMoves(s, OutOfLane(s, false, id), id);
      } else if id in s.writeLane.queue {
        FreeMoves(s, OutOfLane(s, true, id), id);
      } else {
        FreeMoves(s, s, id);
      }
    }
  }

  // ------------------------------------------------------------------------ work and complete

  lemma WorkBytes(s: State, id: nat, got: Got, t: State, start: int)
    requires Inv(s) && Bytes(s, start) && Enabled(s, Worked(id, got)) && t == Work(s, id, got)
    ensures Bytes(t, start)
  {
    assert NoWrites(t) ==> NoWrites(s) by { assert KindsKept(s, t); }
    assert OnlyReads(t) ==> OnlyReads(s) by { assert KindsKept(s, t); }
    assert Fliers(s, s.readLane, false, s.readLane.busy);
    assert s.reqs[id].kind.Read? ==> Front(t) == got && !Front(s).Took?;
    if !s.reqs[id].kind.Read? {
      assert s.readLane.launched != [] && id == s.readLane.launched[|s.readLane.launched| - 1] ==> !Front(s).Took?;
    }
  }

  lemma AloneInPool(s: State, id: nat)
    requires Inv(s) && OnlyReads(s) && id in s.reqs && s.reqs[id].phase.Flying?
    ensures s.inFlight == 1
  {
    assert Fliers(s, s.readLane, false, s.readLane.busy);
    assert Airborne(s) == {id};
  }

  /** The bytes of a read are settled: delivered, put back, or lost. */
  lemma SettleBytes(s: State, id: nat, got: Got, t: State, start: int)
    requires id in s.reqs && t == Settle(s, id, got)
    requires BytesAt(s.position, s.passed, got, start)
    ensures BytesAt(t.position, t.passed, Failed, start)
  {
    if got.Took? && got.size > 0 && t.passed != s.passed {
      SettlePasses(s, id, got, t);
      ContiguousMore(s.passed, t.passed[|s.passed|], start);
    }
  }

  lemma SettlePasses(s: State, id: nat, got: Got, t: State)
    requires id in s.reqs && t == Settle(s, id, got) && t.passed != s.passed
    ensures got.Took? && t.position == s.position && |t.passed| == |s.passed| + 1
    ensures var segment := t.passed[|s.passed|];
            t.passed == s.passed + [segment] && segment.at == got.at && segment.size == got.size
  {
  }

  lemma SettleDelivers(s: State, id: nat, got: Got, t: State)
    requires id in s.reqs && t == Settle(s, id, got) && AllDelivered(s.passed) && s.inFlight == 0 && s.open
    ensures AllDelivered(t.passed)
  {
  }

  lemma LandReadBytes(s: State, id: nat, got: Got, t: State, start: int)
    requires Inv(s) && Bytes(s, start) && id in s.reqs && s.reqs[id].phase == Flying(Some(got))
    requires s.reqs[id].kind.Read? && t == Land(s, id, got)
    ensures Bytes(t, start) && !Front(t).Took?
  {
    LandIsLanding(s, id, got, t);
    assert KindsKept(s, t);
    assert Front(s) == got && !Front(t).Took?;
    var u := Back(s, id);
    if NoWrites(t) {
      assert NoWrites(s);
      SettleBytes(u, id, got, t, start);
      if OnlyReads(t) {
        assert OnlyReads(s);
        AloneInPool(s, id);
        SettleDelivers(u, id, got, t);
      }
    } else {
      assert !OnlyReads(t);
    }
  }

  lemma LandOtherBytes(s: State, id: nat, got: Got, t: State, start: int)
    requires Inv(s) && Bytes(s, start) && id in s.reqs && s.reqs[id].phase == Flying(Some(got))
    requires !s.reqs[id].kind.Read? && t == Land(s, id, got)
    ensures Bytes(t, start)
  {
    LandIsLanding(s, id, got, t);
    assert KindsKept(s, t);
    Unmoved(s, t, start);
  }

  // ------------------------------------------------------------------------------- the drain

  lemma HeadKinds(s: State, x: State, write: bool)
    requires KindsKept(s, x) && Known(x, write) && LaneOf(x, write).queue != []
    ensures KindsKept(s, RefuseHead(x, write)) && KindsKept(s, LaunchHead(x, write))
  {
  }

  lemma DrainKinds(s: State, write: bool, refusals: nat)
    requires Known(s, write)
    ensures KindsKept(s, Drain(s, write, refusals))
  {
    var P := (x: State) => KindsKept(s, x);
    forall x | P(x) && Known(x, write) && LaneOf(x, write).queue != [] ensures P(RefuseHead(x, write)) {
      HeadKinds(s, x, write);
    }
    forall x, k: nat | P(x) && Known(x, write) && (LaneOf(x, write).queue == [] || k == 0)
      ensures P(Drain(x, write, k))
    {
      if LaneOf(x, write).queue != [] {
        HeadKinds(s, x, write);
      }
    }
    DrainInduction(s, write, refusals, P, P);
  }

  ghost predicate Clear(s: State, start: int) { Bytes(s, start) && !Front(s).Took? }

  lemma HeadClear(x: State, start: int)
    requires Clear(x, start) && Known(x, false) && x.readLane.queue != []
    ensures Clear(RefuseHead(x, false), start) && Clear(LaunchHead(x, false), start)
  {
    HeadKinds(x, x, false);
    Unmoved(x, RefuseHead(x, false), start);
    Unmoved(x, LaunchHead(x, false), start);
  }

  lemma DrainClear(s: State, refusals: nat, start: int)
    requires Known(s, false) && Clear(s, start)
    ensures Clear(Drain(s, false, refusals), start)
  {
    var P := (x: State) => Clear(x, start);
    forall x | P(x) && Known(x, false) && x.readLane.queue != [] ensures P(RefuseHead(x, false)) {
      HeadClear(x, start);
    }
    forall x, k: nat | P(x) && Known(x, false) && (x.readLane.queue == [] || k == 0)
      ensures P(Drain(x, false, k))
    {
      if x.readLane.queue != [] {
        HeadClear(x, start);
      } else {
        Unmoved(x, Drain(x, false, k), start);
      }
    }
    DrainInduction(s, false, refusals, P, P);
  }

  lemma ConcludeKeeps(s: State, id: nat, t: State)
    requires id in s.reqs && t == Conclude(s, id)
    ensures OneChange(s, t, id) && t.readLane == s.readLane && t.position == s.position && t.passed == s.passed
    ensures t.reqs[id].phase == s.reqs[id].phase || t.reqs[id].phase.Freed?
  {
  }

  lemma ConcludeBytes(s: State, id: nat, start: int)
    requires Bytes(s, start) && id in s.reqs && s.reqs[id].phase.Over?
    ensures Bytes(Conclude(s, id), start)
  {
    ConcludeKeeps(s, id, Conclude(s, id));
    FrontElsewhere(s, Conclude(s, id), id);
    Unmoved(s, Conclude(s, id), start);
  }

  lemma WrittenBytes(s: State, id: nat, start: int)
    requires id in s.reqs && s.reqs[id].kind.Write?
    ensures Bytes(s, start)
  {
  }

  lemma CompleteReadBytes(s: State, id: nat, refusals: nat, got: Got, start: int)
    requires Inv(s) && Bytes(s, start) && Enabled(s, Completed(id, refusals)) && s.reqs[id].kind.Read?
    requires s.reqs[id].phase == Flying(Some(got))
    ensures Bytes(Complete(s, id, refusals), start)
  {
    var t := Land(s, id, got);
    LandReadBytes(s, id, got, t, start);
    LandIsLanding(s, id, got, t);
    DrainClear(t, refusals, start);
    LandInv(s, id, got, false, s.writeLane.busy);
    DrainInv(t, false, refusals, id);
    var u := Drain(t, false, refusals);
    assert OkBut(u, Some(id), id, u.reqs[id]);
    ConcludeBytes(u, id, start);
  }

  lemma CompleteWriteBytes(s: State, id: nat, refusals: nat, start: int)
    requires Enabled(s, Completed(id, refusals)) && s.reqs[id].kind.Write?
    ensures Bytes(Complete(s, id, refusals), start)
  {
    var t := Land(s, id, s.reqs[id].phase.got.value);
    DrainKinds(t, true, refusals);
    WrittenBytes(Complete(s, id, refusals), id, start);
  }

  lemma CompleteBytes(s: State, id: nat, refusals: nat, start: int)
    requires Inv(s) && Bytes(s, start) && Enabled(s, Completed(id, refusals))
    ensures Bytes(Complete(s, id, refusals), start)
  {
    var got := s.reqs[id].phase.got.value;
    if s.reqs[id].kind.Read? {
      CompleteReadBytes(s, id, refusals, got, start);
    } else if s.reqs[id].kind.Write? {
      CompleteWriteBytes(s, id, refusals, start);
    } else {
      var t := Land(s, id, got);
      LandOtherBytes(s, id, got, t, start);
      LandIsLanding(s, id, got, t);
      ConcludeBytes(t, id, start);
    }
  }

  lemma StepBytes(s: State, step: Step, start: int)
    requires Inv(s) && Bytes(s, start) && Enabled(s, step)
    ensures Bytes(Apply(s, step), start)
  {
    match step {
      case Submitted(kind, ok) => SubmitBytes(s, kind, ok, start);
      case Worked(id, got) => WorkBytes(s, id, got, Work(s, id, got), start);
      case Completed(id, refusals) => CompleteBytes(s, id, refusals, start);
      case Disposed(id) => DisposeBytes(s, id, Dispose(s, id), start);
      case Closed => Unmoved(s, Close(s), start);
    }
  }
}
