/**
 What every run on a file handle keeps.
 */
module FileIoRuns {
  import opened Basics
  import opened FileIo
  import opened FileIoProofs
  import opened FileIoSteps
  import opened FileIoBytes

  ghost predicate Follows(s: State, t: State) {
    exists step :: Enabled(s, step) && t == Apply(s, step)
  }

  ghost predicate IsRun(run: seq<State>, start: nat) {
    && |run| > 0
    && (exists owns :: run[0] == Init(owns, start))
    && forall i :: 0 <= i < |run| - 1 ==> Follows(run[i], run[i + 1])
  }

  /** An owned descriptor of a closed handle goes as soon as the pool is empty. */
  predicate Tight(s: State) { s.closed && s.owns && s.inFlight == 0 ==> !s.open }

  lemma ConcludeTight(s: State, id: nat)
    requires id in s.reqs
    ensures Tight(Conclude(s, id))
  {
  }

  lemma CompleteTight(s: State, id: nat, refusals: nat)
    requires Enabled(s, Completed(id, refusals))
    ensures Tight(Complete(s, id, refusals))
  {
    ConcludeTight(HandOver(Land(s, id, s.reqs[id].phase.got.value), s.reqs[id].kind, refusals), id);
  }

  lemma SubmitTight(s: State, kind: Kind, ok: bool)
    requires Tight(s)
    ensures Tight(Submit(s, kind, ok))
  {
  }

  lemma DisposeTight(s: State, id: nat)
    requires Tight(s) && id in s.reqs
    ensures Tight(Dispose(s, id))
  {
  }

  lemma StepTight(s: State, step: Step)
    requires Inv(s) && Tight(s) && Enabled(s, step)
    ensures Tight(Apply(s, step))
  {
    match step {
      case Submitted(kind, ok) => SubmitTight(s, kind, ok);
      case Worked(id, got) =>
      case Completed(id, refusals) => CompleteTight(s, id, refusals);
      case Disposed(id) => DisposeTight(s, id);
      case Closed =>
    }
  }

  ghost predicate Good(s: State) { Inv(s) && Tight(s) }

  lemma StepGood(s: State, step: Step)
    requires Good(s) && Enabled(s, step)
    ensures Good(Apply(s, step))
  {
    StepInv(s, step);
    StepTight(s, step);
  }

  lemma FollowsKeeps(s: State, t: State, start: int)
    requires Inv(s) && Tight(s) && Bytes(s, start) && Follows(s, t)
    ensures Inv(t) && Tight(t) && Bytes(t, start)
  {
    var step :| Enabled(s, step) && t == Apply(s, step);
    StepInv(s, step);
    StepTight(s, step);
    StepBytes(s, step, start);
  }

  lemma {:induction false} RunKeeps(run: seq<State>, i: nat, start: nat)
    requires IsRun(run, start) && i < |run|
    ensures Inv(run[i]) && Tight(run[i]) && Bytes(run[i], start)
  {
    if i == 0 {
      var owns :| run[0] == Init(owns, start);
      InitInv(owns, start);
    } else {
      RunKeeps(run, i - 1, start);
      assert Follows(run[i - 1], run[i - 1 + 1]);
      FollowsKeeps(run[i - 1], run[i], start);
    }
  }

  // ------------------------------------------------------------------------------- the bytes

  /** What live readers got, in the order they got it ... */
  function Delivered<T>(passed: seq<Segment>, file: seq<T>): seq<T> {
    if passed == [] then []
    else
      var n := |passed| - 1;
      Delivered(passed[..n], file) + if passed[n].delivered then Part(passed[n], file) else []
  }

  /** ... and what they and nobody got. */
  function Covered<T>(passed: seq<Segment>, file: seq<T>): seq<T> {
    if passed == [] then []
    else var n := |passed| - 1; Covered(passed[..n], file) + Part(passed[n], file)
  }

  function Part<T>(segment: Segment, file: seq<T>): seq<T> {
    if segment.at + segment.size <= |file| then file[segment.at..segment.at + segment.size] else []
  }

  lemma {:induction false} CoveredAll<T>(passed: seq<Segment>, file: seq<T>, start: nat)
    requires Contiguous(passed, start) && End(passed, start) <= |file|
    ensures start <= End(passed, start) && Covered(passed, file) == file[start..End(passed, start)]
  {
    if passed != [] {
      var n := |passed| - 1;
      assert passed[n].at == End(passed[..n], start);
      assert Contiguous(passed[..n], start) by {
        assert forall i :: 0 <= i < n ==> passed[..n][..i] == passed[..i];
      }
      CoveredAll(passed[..n], file, start);
      Splice(file, start, passed[n].at, End(passed, start));
    }
  }

  lemma {:induction false} DeliveredAll<T>(passed: seq<Segment>, file: seq<T>)
    requires AllDelivered(passed)
    ensures Delivered(passed, file) == Covered(passed, file)
  {
    if passed != [] {
      DeliveredAll(passed[..|passed| - 1], file);
    }
  }

  lemma Splice<T>(file: seq<T>, a: nat, b: nat, c: nat)
    requires a <= b <= c <= |file|
    ensures file[a..b] + file[b..c] == file[a..c]
  {
  }

  /** Where the position stands, short of what the one read in the pool has taken. */
  function Reach(s: State): int { s.position - if Front(s).Took? then Front(s).size else 0 }

  lemma RunBytes(run: seq<State>, i: nat, start: nat)
    requires IsRun(run, start) && i < |run|
    ensures Bytes(run[i], start)
  {
    RunKeeps(run, i, start);
  }

  lemma BytesCovered<T>(s: State, start: nat, file: seq<T>)
    requires Bytes(s, start) && NoWrites(s) && s.position <= |file|
    ensures start <= Reach(s) <= |file| && Covered(s.passed, file) == file[start..Reach(s)]
  {
    CoveredAll(s.passed, file, start);
  }

  /** On a handle that does not write, every byte from the start to where the position stands went
      to a live reader or was lost with an abandoned read, once and in order ... */
  lemma BytesAccountedFor<T>(run: seq<State>, i: nat, start: nat, file: seq<T>)
    requires IsRun(run, start) && i < |run| && NoWrites(run[i]) && run[i].position <= |file|
    ensures start <= Reach(run[i]) <= |file| && Covered(run[i].passed, file) == file[start..Reach(run[i])]
  {
    RunBytes(run, i, start);
    BytesCovered(run[i], start, file);
  }

  /** ... and on one that only reads none was lost, whatever is submitted, read short, abandoned
      and completed in whatever order. */
  lemma AbandonedReadsLoseNothing<T>(run: seq<State>, i: nat, start: nat, file: seq<T>)
    requires IsRun(run, start) && i < |run| && OnlyReads(run[i]) && run[i].position <= |file|
    ensures start <= Reach(run[i]) <= |file| && Delivered(run[i].passed, file) == file[start..Reach(run[i])]
  {
    assert NoWrites(run[i]);
    BytesAccountedFor(run, i, start, file);
    RunBytes(run, i, start);
    DeliveredAll(run[i].passed, file);
  }

  lemma DrainMovesNothing(s: State, write: bool, refusals: nat)
    requires Known(s, write)
    ensures var t := Drain(s, write, refusals); t.passed == s.passed && t.position == s.position
  {
    var P := (x: State) => x.passed == s.passed && x.position == s.position;
    DrainInduction(s, write, refusals, P, P);
  }

  /** A read that took something comes back. */
  ghost predicate Returning(s: State, id: nat, refusals: nat, got: Got) {
    && Enabled(s, Completed(id, refusals)) && s.reqs[id].kind.Read?
    && s.reqs[id].phase == Flying(Some(got)) && got.Took? && got.size > 0
  }

  /** Where its bytes go: to its caller if that one is there; otherwise the position goes back by
      as much if nothing else is in the pool, and if something is, they are passed over. */
  lemma WhereBytesGo(run: seq<State>, i: nat, start: nat, id: nat, refusals: nat, got: Got)
    requires IsRun(run, start) && i < |run| && Returning(run[i], id, refusals, got)
    ensures var s, t := run[i], Complete(run[i], id, refusals);
            if !s.reqs[id].pending then
              t.passed == s.passed + [Segment(got.at, got.size, true)] && t.position == s.position
            else if Airborne(s) == {id} then
              t.passed == s.passed && t.position == s.position - got.size
            else
              t.passed == s.passed + [Segment(got.at, got.size, false)] && t.position == s.position
  {
    RunKeeps(run, i, start);
    AloneIff(run[i], id);
    LandIsLanding(run[i], id, got, Land(run[i], id, got));
    LandSettles(run[i], id, got, Land(run[i], id, got));
    CompleteMovesNothing(run[i], id, refusals, got, Land(run[i], id, got));
  }

  /** An abandoned read leaves the file to the next reader as if it had never been, the position
      back where it began, exactly if it is alone in the pool and the position has not moved
      since it took its bytes. */
  lemma GivenBackIff(run: seq<State>, i: nat, start: nat, id: nat, refusals: nat, got: Got)
    requires IsRun(run, start) && i < |run| && Returning(run[i], id, refusals, got) && run[i].reqs[id].pending
    ensures var s, t := run[i], Complete(run[i], id, refusals);
            t.passed == s.passed && t.position == got.at <==>
              Airborne(s) == {id} && s.position == got.at + got.size
  {
    WhereBytesGo(run, i, start, id, refusals, got);
  }

  /** Where nothing is written the position cannot have moved, and being alone decides it. */
  lemma GivenBackIffAlone(run: seq<State>, i: nat, start: nat, id: nat, refusals: nat, got: Got)
    requires IsRun(run, start) && i < |run| && Returning(run[i], id, refusals, got) && run[i].reqs[id].pending
    requires NoWrites(run[i])
    ensures var s, t := run[i], Complete(run[i], id, refusals);
            t.passed == s.passed && t.position == got.at <==> Airborne(s) == {id}
  {
    GivenBackIff(run, i, start, id, refusals, got);
    RunKeeps(run, i, start);
    TakenUpToHere(run[i], id, got, start);
  }

  /** Where nothing is written, the position is where the read in the pool stopped. */
  lemma TakenUpToHere(s: State, id: nat, got: Got, start: int)
    requires Inv(s) && Bytes(s, start) && NoWrites(s) && got.Took?
    requires id in s.reqs && s.reqs[id].kind.Read? && s.reqs[id].phase == Flying(Some(got))
    ensures s.position == got.at + got.size
  {
    assert Fliers(s, s.readLane, false, s.readLane.busy);
    assert Front(s) == got;
  }

  lemma ConcludeMovesNothing(s: State, id: nat)
    requires id in s.reqs
    ensures Conclude(s, id).passed == s.passed && Conclude(s, id).position == s.position
  {
  }

  lemma CompleteMovesNothing(s: State, id: nat, refusals: nat, got: Got, landed: State)
    requires Enabled(s, Completed(id, refusals)) && s.reqs[id].kind.Read? && s.reqs[id].phase == Flying(Some(got))
    requires landed == Land(s, id, got) && landed.readLane == s.readLane && id in landed.reqs
    requires landed.reqs.Keys == s.reqs.Keys
    ensures var t := Complete(s, id, refusals); t.passed == landed.passed && t.position == landed.position
  {
    assert Known(landed, false);
    var u := Drain(landed, false, refusals);
    DrainMovesNothing(landed, false, refusals);
    ConcludeMovesNothing(u, id);
    assert Complete(s, id, refusals) == Conclude(u, id);
  }

  lemma LandSettles(s: State, id: nat, got: Got, t: State)
    requires id in s.reqs && s.reqs[id].kind.Read? && got.Took? && got.size > 0 && s.open && t == Land(s, id, got)
    ensures if !s.reqs[id].pending then
              t.passed == s.passed + [Segment(got.at, got.size, true)] && t.position == s.position
            else if s.inFlight == 1 then
              t.passed == s.passed && t.position == s.position - got.size
            else
              t.passed == s.passed + [Segment(got.at, got.size, false)] && t.position == s.position
  {
  }

  lemma AloneIff(s: State, id: nat)
    requires Counted(s) && id in s.reqs && s.reqs[id].phase.Flying?
    ensures s.inFlight == 1 <==> Airborne(s) == {id}
  {
    assert id in Airborne(s);
    if s.inFlight == 1 {
      assert |Airborne(s) - {id}| == 0;
    }
  }

  // -------------------------------------------------------------------------------- the queues

  /** At most one operation of a lane is in the pool; a request waits only while there is one;
      and they start in the order they were made. */
  lemma OneAtATime(run: seq<State>, i: nat, start: nat, write: bool)
    requires IsRun(run, start) && i < |run|
    ensures var s, lane := run[i], LaneOf(run[i], write);
            && (forall x, y :: x in Airborne(s) && y in Airborne(s) ==>
                  OfLane(s.reqs[x], write) && OfLane(s.reqs[y], write) ==> x == y)
            && (lane.queue != [] ==> exists x :: x in Airborne(s) && OfLane(s.reqs[x], write))
            && Increasing(lane.launched + lane.queue)
  {
    RunKeeps(run, i, start);
    var s, lane := run[i], LaneOf(run[i], write);
    assert LaneInv(s, write, lane.busy);
    if lane.queue != [] {
      assert lane.launched[|lane.launched| - 1] in Airborne(s);
    }
  }

  lemma OpenIff(s: State)
    requires Good(s)
    ensures !s.open <==> s.closed && s.owns && Airborne(s) == {}
  {
    assert s.inFlight == |Airborne(s)|;
  }

  /** The descriptor is closed at most once, exactly when the handle is closed, owns it and has
      nothing in the pool; then nothing waits either, and nothing is ever started on it. */
  lemma DescriptorClosedOnce(run: seq<State>, i: nat, start: nat)
    requires IsRun(run, start) && i < |run|
    ensures var s := run[i];
            && s.closes == One(!s.open) && (!s.open <==> s.closed && s.owns && Airborne(s) == {})
            && (!s.open ==> s.readLane.queue == [] && s.writeLane.queue == [])
            && !s.fault
  {
    RunKeeps(run, i, start);
    assert run[i].inFlight == |Airborne(run[i])|;
    assert LaneInv(run[i], false, run[i].readLane.busy) && LaneInv(run[i], true, run[i].writeLane.busy);
    if !run[i].open {
      OneAtATime(run, i, start, false);
      OneAtATime(run, i, start, true);
    }
  }

  // ----------------------------------------------------------------------------- the requests

  /** A request is freed at most once, never while it is in the pool or queued, and a held one
      is not freed. */
  lemma FreedOnce(run: seq<State>, i: nat, start: nat, id: nat)
    requires IsRun(run, start) && i < |run| && id in run[i].reqs
    ensures Distinct(run[i].freed) && Distinct(run[i].notified)
    ensures id in run[i].freed ==>
              && id !in Airborne(run[i]) && id !in run[i].readLane.queue && id !in run[i].writeLane.queue
              && !run[i].reqs[id].held
  {
    RunKeeps(run, i, start);
    assert OkBut(run[i], None, id, run[i].reqs[id]);
  }

  lemma DrainLeavesAlone(s: State, write: bool, refusals: nat, id: nat)
    requires Known(s, write) && id in s.reqs && id !in LaneOf(s, write).queue
    ensures id in Drain(s, write, refusals).reqs && Drain(s, write, refusals).reqs[id] == s.reqs[id]
  {
    var P := (x: State) => id in x.reqs && x.reqs[id] == s.reqs[id] && id !in LaneOf(x, write).queue;
    DrainInduction(s, write, refusals, P, P);
  }

  /** A completion answers for its request exactly once: the caller is told if it is there,
      and otherwise the request is freed. */
  lemma ToldOrFreed(run: seq<State>, i: nat, start: nat, id: nat, refusals: nat)
    requires IsRun(run, start) && i < |run| && Enabled(run[i], Completed(id, refusals))
    ensures var s, t := run[i], Complete(run[i], id, refusals);
            && id !in s.notified && id !in s.freed
            && (id in t.notified <==> s.reqs[id].held) && (id in t.freed <==> !s.reqs[id].held)
  {
    RunKeeps(run, i, start);
    CompletionAnswers(run[i], id, refusals);
  }

  lemma CompletionAnswers(s: State, id: nat, refusals: nat)
    requires Inv(s) && Enabled(s, Completed(id, refusals))
    ensures var t := Complete(s, id, refusals);
            && id !in s.notified && id !in s.freed
            && (id in t.notified <==> s.reqs[id].held) && (id in t.freed <==> !s.reqs[id].held)
  {
    assert OkBut(s, None, id, s.reqs[id]);
    var got := s.reqs[id].phase.got.value;
    var landed := Land(s, id, got);
    LandIsLanding(s, id, got, landed);
    if s.reqs[id].kind.Read? || s.reqs[id].kind.Write? {
      LaneAnswers(s, id, refusals, s.reqs[id].kind.Write?, landed);
    } else {
      Answers(landed, id);
    }
  }

  lemma LaneAnswers(s: State, id: nat, refusals: nat, write: bool, landed: State)
    requires Inv(s) && Enabled(s, Completed(id, refusals)) && OfLane(s.reqs[id], write)
    requires landed == Land(s, id, s.reqs[id].phase.got.value)
    requires landed == Landing(s, id).(position := landed.position, passed := landed.passed)
    ensures var t := Complete(s, id, refusals);
            (id in t.notified <==> s.reqs[id].held) && (id in t.freed <==> !s.reqs[id].held)
  {
    assert OkBut(s, None, id, s.reqs[id]);
    LandInv(s, id, s.reqs[id].phase.got.value, s.readLane.busy && write, s.writeLane.busy && !write);
    assert s.open && LaneOf(landed, write).busy by { LandIsLanding(s, id, s.reqs[id].phase.got.value, landed); }
    DrainInv(landed, write, refusals, id);
    DrainLeavesAlone(landed, write, refusals, id);
    var u := Drain(landed, write, refusals);
    assert OkBut(u, Some(id), id, u.reqs[id]);
    Answers(u, id);
    assert Complete(s, id, refusals) == Conclude(u, id);
  }

  lemma Answers(u: State, id: nat)
    requires id in u.reqs && Landed(u, id, u.reqs[id])
    ensures var t := Conclude(u, id);
            (id in t.notified <==> u.reqs[id].held) && (id in t.freed <==> !u.reqs[id].held)
  {
  }

  /** With the pool empty every request is freed, or over and in its caller's hands; the only
      ones that are neither are writes given away and then refused by libuv from the queue. */
  lemma LeftOverIff(run: seq<State>, i: nat, start: nat, id: nat)
    requires IsRun(run, start) && i < |run| && id in run[i].reqs && run[i].inFlight == 0
    ensures var s, r := run[i], run[i].reqs[id];
            && (r.phase.Freed? || r.phase.Over?)
            && (r.phase.Over? && !r.held <==> Forgotten(r) && id in s.notified)
  {
    RunKeeps(run, i, start);
    var s := run[i];
    assert OkBut(s, None, id, s.reqs[id]);
    assert Airborne(s) == {} && id !in Airborne(s);
    assert LaneInv(s, false, s.readLane.busy) && LaneInv(s, true, s.writeLane.busy);
    OneAtATime(run, i, start, false);
    OneAtATime(run, i, start, true);
  }
}
