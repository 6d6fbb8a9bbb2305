/**
 Runs on a file handle that show what one might not expect, state by state.
 */
module FileIoWitnesses {
  import opened Basics
  import opened FileIo
  import opened FileIoProofs
  import opened FileIoSteps
  import opened FileIoRuns

  lemma Beginning() returns (run: seq<State>)
    ensures run == [Init(true, 0)] && IsRun(run, 0)
  {
    run := [Init(true, 0)];
  }

  lemma Extend(run: seq<State>, step: Step, t: State) returns (longer: seq<State>)
    requires IsRun(run, 0) && Enabled(run[|run| - 1], step) && Apply(run[|run| - 1], step) == t
    ensures longer == run + [t] && IsRun(longer, 0)
  {
    longer := run + [t];
    assert Follows(run[|run| - 1], t);
    forall i | 0 <= i < |longer| - 1 ensures Follows(longer[i], longer[i + 1]) {
      assert i < |run| - 1 ==> Follows(run[i], run[i + 1]);
    }
  }

  const IDLE: Lane := Lane([], false, [])

  const READING: Lane := Lane([], true, [0])

  /** A state of an open handle that owns its descriptor, with nothing freed or passed yet. */
  function At(reqs: map<nat, Req>, next: nat, reading: Lane, writing: Lane, inFlight: int, position: int): State {
    State(reqs, next, reading, writing, inFlight, false, true, true, position, [], [], 0, [], false)
  }

  const AWAY: Req := Req(Read, Flying(None), true, false)

  const TOOK: Req := Req(Read, Flying(Some(Took(0, 5))), true, false)

  const ABANDONED: Req := Req(Read, Flying(Some(Took(0, 5))), false, true)

  // ------------------------------------------------------------------------- a stat in the pool

  const STATTING: Req := Req(Stat, Flying(None), true, false)

  lemma ReadThenStat()
    ensures var s1 := At(map[0 := AWAY], 1, READING, IDLE, 1, 0);
            && Submit(Init(true, 0), Read, true) == s1
            && Submit(s1, Stat, true) == At(map[0 := AWAY, 1 := STATTING], 2, READING, IDLE, 2, 0)
  {
  }

  lemma ReadTakesAndIsLeft(other: Req, writing: Lane, inFlight: int, next: nat)
    ensures var s := At(map[0 := AWAY, 1 := other], next, READING, writing, inFlight, 0);
            Work(s, 0, Took(0, 5)) == At(map[0 := TOOK, 1 := other], next, READING, writing, inFlight, 5)
    ensures var s := At(map[0 := TOOK, 1 := other], next, READING, writing, inFlight, 5);
            Dispose(s, 0) == At(map[0 := ABANDONED, 1 := other], next, READING, writing, inFlight, 5)
  {
  }

  /** A read and a stat: the caller of the read leaves, its completion finds the stat in the
      pool, and the five bytes it took go to nobody. */
  lemma StatLosesBytes() returns (run: seq<State>)
    ensures IsRun(run, 0) && |run| == 6
    ensures run[5].passed == [Segment(0, 5, false)] && run[5].position == 5
  {
    ReadThenStat();
    ReadTakesAndIsLeft(STATTING, IDLE, 2, 2);
    run := Beginning();
    run := Extend(run, Submitted(Read, true), At(map[0 := AWAY], 1, READING, IDLE, 1, 0));
    run := Extend(run, Submitted(Stat, true), At(map[0 := AWAY, 1 := STATTING], 2, READING, IDLE, 2, 0));
    run := Extend(run, Worked(0, Took(0, 5)), At(map[0 := TOOK, 1 := STATTING], 2, READING, IDLE, 2, 5));
    var s := At(map[0 := ABANDONED, 1 := STATTING], 2, READING, IDLE, 2, 5);
    run := Extend(run, Disposed(0), s);
    assert 1 in Airborne(s);
    WhereBytesGo(run, 4, 0, 0, 0, Took(0, 5));
    run := Extend(run, Completed(0, 0), Complete(s, 0, 0));
  }

  // ------------------------------------------------------------------ a write that came and went

  function Writing(phase: Phase): Req { Req(Write(false), phase, true, false) }

  lemma ReadTakes()
    ensures var s := At(map[0 := AWAY], 1, READING, IDLE, 1, 0);
            Work(s, 0, Took(0, 5)) == At(map[0 := TOOK], 1, READING, IDLE, 1, 5)
  {
  }

  lemma WriteComes()
    ensures var s := At(map[0 := TOOK], 1, READING, IDLE, 1, 5);
            Submit(s, Write(false), true)
            == At(map[0 := TOOK, 1 := Writing(Flying(None))], 2, READING, Lane([], true, [1]), 2, 5)
    ensures var s := At(map[0 := TOOK, 1 := Writing(Flying(None))], 2, READING, Lane([], true, [1]), 2, 5);
            Work(s, 1, Wrote(3))
            == At(map[0 := TOOK, 1 := Writing(Flying(Some(Wrote(3))))], 2, READING, Lane([], true, [1]), 2, 8)
  {
  }

  lemma WriteGoes()
    ensures var s := At(map[0 := TOOK, 1 := Writing(Flying(Some(Wrote(3))))], 2, READING, Lane([], true, [1]), 2, 8);
            Enabled(s, Completed(1, 0)) && Complete(s, 1, 0)
            == At(map[0 := TOOK, 1 := Writing(Over)], 2, READING, Lane([], false, [1]), 1, 8).(notified := [1])
  {
    var s := At(map[0 := TOOK, 1 := Writing(Flying(Some(Wrote(3))))], 2, READING, Lane([], true, [1]), 2, 8);
    var landed := At(map[0 := TOOK, 1 := Writing(Over)], 2, READING, Lane([], true, [1]), 1, 8);
    assert Land(s, 1, Wrote(3)) == landed;
    assert Drain(landed, true, 0) == landed.(writeLane := Lane([], false, [1]));
  }

  lemma ReadIsLeft(s: State)
    requires s == At(map[0 := TOOK, 1 := Writing(Over)], 2, READING, Lane([], false, [1]), 1, 8).(notified := [1])
    ensures Dispose(s, 0) == s.(reqs := map[0 := ABANDONED, 1 := Writing(Over)])
  {
  }

  lemma WriteCameAndWent(s: State) returns (run: seq<State>)
    requires s == At(map[0 := TOOK, 1 := Writing(Over)], 2, READING, Lane([], false, [1]), 1, 8).(notified := [1])
    ensures IsRun(run, 0) && |run| == 6 && run[5] == s
  {
    ReadThenStat();
    ReadTakes();
    WriteComes();
    WriteGoes();
    var lane := Lane([], true, [1]);
    run := Beginning();
    run := Extend(run, Submitted(Read, true), At(map[0 := AWAY], 1, READING, IDLE, 1, 0));
    run := Extend(run, Worked(0, Took(0, 5)), At(map[0 := TOOK], 1, READING, IDLE, 1, 5));
    run := Extend(run, Submitted(Write(false), true),
                  At(map[0 := TOOK, 1 := Writing(Flying(None))], 2, READING, lane, 2, 5));
    run := Extend(run, Worked(1, Wrote(3)),
                  At(map[0 := TOOK, 1 := Writing(Flying(Some(Wrote(3))))], 2, READING, lane, 2, 8));
    run := Extend(run, Completed(1, 0), s);
  }

  /** A read takes five bytes and stays in the pool while a write of three comes and goes; its
      caller leaves, it comes back alone, and the position goes back to three: the first three
      bytes go to nobody. */
  lemma WriteShiftsRewind() returns (run: seq<State>)
    ensures IsRun(run, 0) && |run| == 8
    ensures Returning(run[6], 0, 0, Took(0, 5)) && run[6].reqs[0].pending && Airborne(run[6]) == {0}
    ensures run[7] == Complete(run[6], 0, 0) && run[7].passed == [] && run[7].position == 3
  {
    var s := At(map[0 := TOOK, 1 := Writing(Over)], 2, READING, Lane([], false, [1]), 1, 8).(notified := [1]);
    run := WriteCameAndWent(s);
    ReadIsLeft(s);
    var t := s.(reqs := map[0 := ABANDONED, 1 := Writing(Over)]);
    run := Extend(run, Disposed(0), t);
    assert Airborne(t) == {0};
    WhereBytesGo(run, 6, 0, 0, 0, Took(0, 5));
    run := Extend(run, Completed(0, 0), Complete(t, 0, 0));
  }

  // --------------------------------------------------------------- a write refused from the queue

  function Given(phase: Phase): Req { Req(Write(true), phase, false, false) }

  lemma TwoGivenAway()
    ensures var s1 := At(map[0 := Given(Flying(None))], 1, IDLE, READING, 1, 0);
            && Submit(Init(true, 0), Write(true), true) == s1
            && Submit(s1, Write(true), true)
               == At(map[0 := Given(Flying(None)), 1 := Given(Queued)], 2, IDLE, Lane([1], true, [0]), 1, 0)
  {
  }

  lemma FirstWritten()
    ensures var s := At(map[0 := Given(Flying(None)), 1 := Given(Queued)], 2, IDLE, Lane([1], true, [0]), 1, 0);
            Work(s, 0, Wrote(1))
            == At(map[0 := Given(Flying(Some(Wrote(1)))), 1 := Given(Queued)], 2, IDLE, Lane([1], true, [0]), 1, 1)
  {
  }

  lemma SecondRefused(s: State)
    requires s == At(map[0 := Given(Flying(Some(Wrote(1)))), 1 := Given(Queued)], 2, IDLE, Lane([1], true, [0]), 1, 1)
    ensures Enabled(s, Completed(0, 1))
    ensures Complete(s, 0, 1) == At(map[0 := Given(Freed), 1 := Given(Over)], 2, IDLE, Lane([], false, [0]), 0, 1)
                                 .(notified := [1], freed := [0])
  {
    var landed := At(map[0 := Given(Over), 1 := Given(Queued)], 2, IDLE, Lane([1], true, [0]), 0, 1);
    assert Land(s, 0, Wrote(1)) == landed;
    var t := At(map[0 := Given(Over), 1 := Given(Over)], 2, IDLE, Lane([], true, [0]), 0, 1).(notified := [1]);
    assert [1][1..] == [];
    assert RefuseHead(landed, true) == t;
    assert Drain(landed, true, 1) == Drain(t, true, 0) == t.(writeLane := Lane([], false, [0]));
  }

  lemma TwoGivenRun(s: State) returns (run: seq<State>)
    requires s == At(map[0 := Given(Flying(Some(Wrote(1)))), 1 := Given(Queued)], 2, IDLE, Lane([1], true, [0]), 1, 1)
    ensures IsRun(run, 0) && |run| == 4 && run[3] == s
  {
    TwoGivenAway();
    FirstWritten();
    run := Beginning();
    run := Extend(run, Submitted(Write(true), true), At(map[0 := Given(Flying(None))], 1, IDLE, READING, 1, 0));
    run := Extend(run, Submitted(Write(true), true),
                  At(map[0 := Given(Flying(None)), 1 := Given(Queued)], 2, IDLE, Lane([1], true, [0]), 1, 0));
    run := Extend(run, Worked(0, Wrote(1)), s);
  }

  /** Two writes given away, the second refused when its turn comes: nobody disposes of it. */
  lemma RefusedWriteLeftOver() returns (run: seq<State>)
    ensures IsRun(run, 0) && |run| == 5
    ensures run[4].inFlight == 0 && run[4].reqs == map[0 := Given(Freed), 1 := Given(Over)] && run[4].freed == [0]
  {
    var s := At(map[0 := Given(Flying(Some(Wrote(1)))), 1 := Given(Queued)], 2, IDLE, Lane([1], true, [0]), 1, 1);
    run := TwoGivenRun(s);
    SecondRefused(s);
    run := Extend(run, Completed(0, 1), Complete(s, 0, 1));
  }
}
