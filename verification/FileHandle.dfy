/**
 The handle itself, updated in place by submissions, completions, disposals and the close.
 */
module FileHandle {
  import opened Basics
  import opened FileIo
  import opened FileIoProofs
  import opened FileIoSteps
  import opened FileIoRuns

  lemma {:induction false} WithoutAt(q: seq<nat>, i: nat, id: nat)
    requires i <= |q| && id !in q[..i] && (i < |q| ==> q[i] == id)
    ensures Without(q, id) == if i < |q| then q[..i] + q[i + 1..] else q
  {
    if i > 0 {
      assert q[0] in q[..i] && q[..i][1..] == q[1..][..i - 1];
      WithoutAt(q[1..], i - 1, id);
      if i < |q| {
        assert q[1..][i..] == q[i + 1..];
        assert [q[0]] + (q[1..][..i - 1] + q[i + 1..]) == q[..i] + q[i + 1..];
      } else {
        assert [q[0]] + q[1..] == q;
      }
    } else if q != [] {
      assert q[..0] + q[1..] == q[1..];
    }
  }

  class Handle {
    var reqs: map<nat, Req>
    var next: nat
    var readLane: Lane
    var writeLane: Lane
    var inFlight: int
    var closed: bool
    var owns: bool
    var open: bool
    var position: int
    ghost var notified: seq<nat>
    ghost var freed: seq<nat>
    ghost var closes: nat
    ghost var passed: seq<Segment>
    ghost var fault: bool

    ghost function View(): State
      reads this
    {
      State(reqs, next, readLane, writeLane, inFlight, closed, owns, open, position,
            notified, freed, closes, passed, fault)
    }

    constructor (owns: bool, start: nat)
      ensures View() == Init(owns, start) && Good(View())
    {
      reqs, next := map[], 0;
      readLane, writeLane := Lane([], false, []), Lane([], false, []);
      inFlight, closed, open := 0, false, true;
      this.owns, position := owns, start;
      notified, freed, closes, passed, fault := [], [], 0, [], false;
      new;
      InitInv(owns, start);
    }

    method LaunchReq(id: nat)
      requires id in reqs
      modifies this
      ensures View() == Launch(old(View()), id)
    {
      reqs := reqs[id := reqs[id].(phase := Flying(None))];
      inFlight := inFlight + 1;
      fault := fault || !open;
    }

    method FreeReq(id: nat)
      requires id in reqs
      modifies this
      ensures View() == Free(old(View()), id)
    {
      reqs := reqs[id := reqs[id].(phase := Freed, held := false, pending := false)];
      freed := freed + [id];
    }

    method ReleaseDescriptor()
      modifies this
      ensures View() == ReleaseFd(old(View()))
    {
      if !open || inFlight > 0 || !closed || !owns {
        return;
      }
      open := false;
      closes := closes + 1;
    }

    function MyLane(write: bool): Lane
      reads this
      ensures MyLane(write) == LaneOf(View(), write)
    {
      if write then writeLane else readLane
    }

    method SetLane(write: bool, lane: Lane)
      modifies this`readLane, this`writeLane
      ensures View() == WithLane(old(View()), write, lane)
    {
      if write {
        writeLane := lane;
      } else {
        readLane := lane;
      }
    }

    /** A read or a write waits behind one under way, starts, or is answered with an error. */
    method EnterLane(id: nat, write: bool, ok: bool)
      requires id in reqs
      modifies this
      ensures View() == Enter(old(View()), id, write, ok)
    {
      var lane := MyLane(write);
      if lane.busy {
        SetLane(write, lane.(queue := lane.queue + [id]));
      } else if ok {
        SetLane(write, lane.(busy := true, launched := lane.launched + [id]));
        LaunchReq(id);
      } else {
        reqs := reqs[id := reqs[id].(phase := Over, held := true)];
      }
    }

    method MakeReq(kind: Kind) returns (id: nat)
      modifies this
      ensures View() == Make(old(View()), kind) && id == old(next)
    {
      id := next;
      reqs := reqs[id := Req(kind, Queued, !(kind.Write? && kind.forget), false)];
      next := next + 1;
    }

    /** A flush or a stat goes to the pool at once. */
    method StartReq(kind: Kind, ok: bool)
      modifies this
      ensures var made := Make(old(View()), kind);
              View() == if ok then Launch(made, old(next)) else Free(made, old(next))
    {
      var id := MakeReq(kind);
      if ok {
        LaunchReq(id);
      } else {
        FreeReq(id);
      }
    }

    method PlaceReq(kind: Kind, ok: bool)
      modifies this
      ensures View() == Submit(old(View()), kind, ok)
    {
      if closed {
        return;
      }
      if kind.Read? || kind.Write? {
        var id := MakeReq(kind);
        EnterLane(id, kind.Write?, ok);
      } else {
        StartReq(kind, ok);
      }
    }

    method LaunchNext(write: bool)
      requires MyLane(write).queue != [] && MyLane(write).queue[0] in reqs
      modifies this
      ensures View() == LaunchHead(old(View()), write)
    {
      var lane := MyLane(write);
      SetLane(write, Lane(lane.queue[1..], true, lane.launched + [lane.queue[0]]));
      LaunchReq(lane.queue[0]);
    }

    method RefuseNext(write: bool)
      requires MyLane(write).queue != [] && MyLane(write).queue[0] in reqs
      modifies this
      ensures View() == RefuseHead(old(View()), write)
    {
      var lane := MyLane(write);
      var id := lane.queue[0];
      SetLane(write, lane.(queue := lane.queue[1..]));
      reqs := reqs[id := reqs[id].(phase := Over)];
      notified := notified + [id];
    }

    /** One turn of the hand-over: started, or refused with others behind it. */
    method HandNext(write: bool, left: nat) returns (started: bool)
      requires Known(View(), write) && MyLane(write).queue != []
      modifies this
      ensures started <==> left == 0
      ensures started ==> View() == Drain(old(View()), write, left)
      ensures !started ==> Known(View(), write) && Drain(View(), write, left - 1) == Drain(old(View()), write, left)
      ensures |MyLane(write).queue| == |old(MyLane(write)).queue| - 1
    {
      assert LaneOf(View(), write).queue[0] in View().reqs;
      if left == 0 {
        LaunchNext(write);
        return true;
      }
      DrainMore(View(), write, left);
      RefuseNext(write);
      started := false;
    }

    /** Hands on to the next queued operation of its kind that libuv takes. */
    method DrainLane(write: bool, refusals: nat)
      requires Known(View(), write)
      modifies this
      ensures View() == Drain(old(View()), write, refusals)
    {
      ghost var goal := Drain(View(), write, refusals);
      var left, started := refusals, false;
      while MyLane(write).queue != [] && !started
        invariant if started then View() == goal else Known(View(), write) && Drain(View(), write, left) == goal
        decreases |MyLane(write).queue|
      {
        started := HandNext(write, left);
        left := if started then left else left - 1;
      }
      if !started {
        SetLane(write, MyLane(write).(busy := false));
      }
    }

    /** The bytes of a completed read. */
    method SettleRead(id: nat, got: Got)
      requires id in reqs
      modifies this
      ensures View() == Settle(old(View()), id, got)
    {
      var r := reqs[id];
      if !got.Took? || got.size == 0 {
        return;
      }
      if !r.pending {
        fault := fault || !r.held;
        passed := passed + [Segment(got.at, got.size, true)];
      } else if inFlight == 0 && open {
        position := position - got.size;
      } else {
        passed := passed + [Segment(got.at, got.size, false)];
      }
    }

    method TakeBack(id: nat)
      requires id in reqs
      modifies this
      ensures View() == Back(old(View()), id)
    {
      reqs := reqs[id := reqs[id].(phase := Over)];
      fault := fault || inFlight <= 0;
      inFlight := inFlight - 1;
    }

    /** The part of a completion that settles the operation itself. */
    method LandReq(id: nat, got: Got)
      requires id in reqs
      modifies this
      ensures View() == Land(old(View()), id, got)
    {
      TakeBack(id);
      if reqs[id].kind.Read? {
        SettleRead(id, got);
      } else if reqs[id].kind.Stat? {
        fault := fault || (got.Did? && !reqs[id].pending && !reqs[id].held);
      }
    }

    method ConcludeReq(id: nat)
      requires id in reqs
      modifies this
      ensures View() == Conclude(old(View()), id)
    {
      ReleaseDescriptor();
      var r := reqs[id];
      if r.pending || (r.kind.Write? && r.kind.forget) {
        FreeReq(id);
      } else {
        notified := notified + [id];
      }
    }

    method FinishReq(id: nat, refusals: nat)
      requires Enabled(View(), Completed(id, refusals))
      modifies this
      ensures View() == Complete(old(View()), id, refusals)
    {
      var kind := reqs[id].kind;
      LandReq(id, reqs[id].phase.got.value);
      if kind.Read? || kind.Write? {
        DrainLane(kind.Write?, refusals);
      }
      ConcludeReq(id);
    }

    method RemoveFrom(q: seq<nat>, id: nat) returns (r: seq<nat>)
      ensures r == Without(q, id)
    {
      var i := 0;
      while i < |q| && q[i] != id
        invariant 0 <= i <= |q| && id !in q[..i]
      {
        i := i + 1;
      }
      WithoutAt(q, i, id);
      r := if i < |q| then q[..i] + q[i + 1..] else q;
    }

    method Unqueue(id: nat, write: bool)
      modifies this
      ensures View() == OutOfLane(old(View()), write, id)
    {
      var q := RemoveFrom(MyLane(write).queue, id);
      SetLane(write, MyLane(write).(queue := q));
    }

    method LetGo(id: nat)
      requires id in reqs
      modifies this
      ensures View() == Dispose(old(View()), id)
    {
      if reqs[id].phase.Flying? {
        reqs := reqs[id := reqs[id].(held := false, pending := true)];
        return;
      }
      if id in readLane.queue {
        Unqueue(id, false);
      } else if id in writeLane.queue {
        Unqueue(id, true);
      }
      FreeReq(id);
    }

    // ---------------------------------------------------------------------- the calls from outside

    /** A new request gets the next number; a closed handle takes none. */
    method SubmitReq(kind: Kind, ok: bool)
      requires Good(View())
      modifies this
      ensures Good(View()) && View() == Apply(old(View()), Submitted(kind, ok))
      ensures if old(closed) then View() == old(View()) else old(next) in reqs && reqs[old(next)].kind == kind
    {
      StepGood(View(), Submitted(kind, ok));
      PlaceReq(kind, ok);
    }

    /** A completion callback, start to end: the caller is told if it is there, and otherwise the
        request is freed. */
    method CompleteReq(id: nat, refusals: nat)
      requires Good(View()) && Enabled(View(), Completed(id, refusals))
      modifies this
      ensures Good(View()) && View() == Apply(old(View()), Completed(id, refusals))
      ensures (id in notified <==> old(reqs)[id].held) && (id in freed <==> !old(reqs)[id].held)
    {
      StepGood(View(), Completed(id, refusals));
      CompletionAnswers(View(), id, refusals);
      FinishReq(id, refusals);
    }

    /** The caller disposes of a request it holds: freed now, unless it is in the pool. */
    method DisposeReq(id: nat)
      requires Good(View()) && Enabled(View(), Disposed(id))
      modifies this
      ensures Good(View()) && View() == Apply(old(View()), Disposed(id))
      ensures id in reqs && !reqs[id].held && (reqs[id].phase.Freed? <==> !old(reqs)[id].phase.Flying?)
    {
      StepGood(View(), Disposed(id));
      LetGo(id);
    }

    /** Closes the handle: an owned descriptor goes now exactly if nothing is in the pool. */
    method CloseHandle()
      requires Good(View())
      modifies this
      ensures Good(View()) && View() == Apply(old(View()), Closed)
      ensures closed && (!open <==> owns && Airborne(View()) == {})
    {
      StepGood(View(), Closed);
      if !closed {
        closed := true;
        ReleaseDescriptor();
      }
      OpenIff(View());
    }
  }
}
