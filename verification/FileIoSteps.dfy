/**
 The invariant of a file handle, step by step.
 */
module FileIoSteps {
  import opened Basics
  import opened FileIo
  import opened FileIoProofs

  /** The other requests stand where they stood. */
  ghost predicate SameOthers(s: State, t: State, id: nat) {
    && s.next <= t.next
    && (forall x :: x != id ==> (x in t.readLane.queue <==> x in s.readLane.queue))
    && (forall x :: x != id ==> (x in t.writeLane.queue <==> x in s.writeLane.queue))
    && (forall x :: x != id ==> (x in t.freed <==> x in s.freed))
    && (forall x :: x != id ==> (x in t.notified <==> x in s.notified))
  }

  ghost predicate CountChange(s: State, t: State, id: nat)
    requires id in t.reqs
  {
    t.inFlight == s.inFlight + One(t.reqs[id].phase.Flying?) - One(id in s.reqs && s.reqs[id].phase.Flying?)
  }

  lemma PartsChange(s: State, t: State, id: nat, was: Option<nat>, but: Option<nat>)
    requires Reqs(s, was) && Counted(s) && OneChange(s, t, id) && SameOthers(s, t, id) && CountChange(s, t, id)
    requires OkBut(t, but, id, t.reqs[id]) && forall x :: x != id ==> (was == Some(x) <==> but == Some(x))
    ensures Reqs(t, but) && Counted(t)
  {
    ReqsChange(s, t, id, was, but);
    FlyingChange(s, t, id);
  }

  lemma LogsSame(s: State, t: State)
    requires Logs(s) && s.reqs.Keys <= t.reqs.Keys && t.freed == s.freed && t.notified == s.notified
    ensures Logs(t)
  {
  }

  lemma LogsFree(s: State, t: State, id: nat)
    requires Logs(s) && s.reqs.Keys <= t.reqs.Keys && t.freed == s.freed + [id] && t.notified == s.notified
    requires id in t.reqs && id !in s.freed
    ensures Logs(t)
  {
  }

  lemma LogsNotify(s: State, t: State, id: nat)
    requires Logs(s) && s.reqs.Keys <= t.reqs.Keys && t.freed == s.freed && t.notified == s.notified + [id]
    requires id in t.reqs && id !in s.notified
    ensures Logs(t)
  {
  }

  lemma Below(s: State, but: Option<nat>)
    requires Reqs(s, but) && Logs(s) && LaneOk(s, s.readLane) && LaneOk(s, s.writeLane)
    ensures forall x :: x in s.reqs ==> x < s.next
    ensures s.next !in s.reqs && s.next !in s.freed && s.next !in s.notified
    ensures s.next !in s.readLane.queue && s.next !in s.writeLane.queue
  {
    forall x | x in s.reqs ensures x < s.next {
      assert OkBut(s, but, x, s.reqs[x]);
    }
  }

  // ---------------------------------------------------------------------------------- submit

  ghost predicate LaneInv(s: State, write: bool, busy: bool) {
    LaneOk(s, LaneOf(s, write)) && Fliers(s, LaneOf(s, write), write, busy)
  }

  /** The lane that a request does not belong to is not concerned. */
  lemma OtherLane(s: State, t: State, write: bool, busy: bool, id: nat)
    requires LaneInv(s, write, busy) && OneChange(s, t, id) && LaneOf(t, write) == LaneOf(s, write)
    requires OfLane(t.reqs[id], write) ==>
               (t.reqs[id].phase.Flying? <==> id in s.reqs && s.reqs[id].phase.Flying?)
    ensures LaneInv(t, write, busy)
  {
    LaneSame(s, t, LaneOf(s, write));
    FliersSame(s, t, LaneOf(s, write), LaneOf(t, write), write, busy, id);
  }

  /** A request just made. */
  ghost predicate IsNew(s: State, t: State, id: nat) {
    && id == s.next && t.next == id + 1 && OneChange(s, t, id) && id !in s.reqs
    && t.freed == s.freed && t.notified == s.notified
  }

  lemma NewQueued(s: State, t: State, write: bool, id: nat)
    requires Inv(s) && IsNew(s, t, id) && LaneOf(s, write).busy
    requires t == WithLane(s, write, LaneOf(t, write)).(reqs := t.reqs, next := id + 1)
    requires LaneOf(t, write) == LaneOf(s, write).(queue := LaneOf(s, write).queue + [id])
    requires OfLane(t.reqs[id], write) && t.reqs[id] == Req(t.reqs[id].kind, Queued, !Forgotten(t.reqs[id]), false)
    ensures Inv(t)
  {
    var lane := LaneOf(s, write);
    Below(s, None);
    LogsSame(s, t);
    LaneAppend(s, t, lane, id);
    FliersSame(s, t, lane, LaneOf(t, write), write, lane.busy, id);
    OtherLane(s, t, !write, LaneOf(s, !write).busy, id);
    PartsChange(s, t, id, None, None);
    assert LaneInv(t, write, lane.busy);
  }

  lemma NewLaunched(s: State, t: State, write: bool, id: nat)
    requires Inv(s) && IsNew(s, t, id) && !LaneOf(s, write).busy && !s.closed
    requires t == WithLane(s, write, LaneOf(t, write)).(reqs := t.reqs, next := id + 1, inFlight := s.inFlight + 1)
    requires LaneOf(t, write) == LaneOf(s, write).(busy := true, launched := LaneOf(s, write).launched + [id])
    requires OfLane(t.reqs[id], write)
    requires t.reqs[id] == Req(t.reqs[id].kind, Flying(None), !Forgotten(t.reqs[id]), false)
    ensures Inv(t)
  {
    var lane := LaneOf(s, write);
    Below(s, None);
    LogsSame(s, t);
    LaneLaunchNew(s, t, lane, id);
    FliersLaunch(s, t, lane, LaneOf(t, write), write, id);
    OtherLane(s, t, !write, LaneOf(s, !write).busy, id);
    PartsChange(s, t, id, None, None);
    assert LaneInv(t, write, true);
  }

  /** A change of one request that leaves both lanes as they are. */
  lemma PlainChange(s: State, t: State, id: nat, reading: bool, writing: bool, was: Option<nat>, but: Option<nat>)
    requires InvBut(s, reading, writing, was) && OneChange(s, t, id) && SameOthers(s, t, id) && CountChange(s, t, id)
    requires t.readLane == s.readLane && t.writeLane == s.writeLane
    requires t.reqs[id].kind.Read? || t.reqs[id].kind.Write? ==>
               (t.reqs[id].phase.Flying? <==> id in s.reqs && s.reqs[id].phase.Flying?)
    requires OkBut(t, but, id, t.reqs[id]) && forall x :: x != id ==> (was == Some(x) <==> but == Some(x))
    requires FdOk(t) && Logs(t) && !t.fault
    ensures InvBut(t, reading, writing, but)
  {
    assert LaneInv(s, false, reading) && LaneInv(s, true, writing);
    OtherLane(s, t, false, reading, id);
    OtherLane(s, t, true, writing, id);
    PartsChange(s, t, id, was, but);
    assert LaneInv(t, false, reading) && LaneInv(t, true, writing);
  }

  lemma NewElse(s: State, t: State, id: nat)
    requires Inv(s) && id == s.next && !s.closed && t.next == id + 1 && OneChange(s, t, id)
    requires t.notified == s.notified && t.freed == s.freed + (if t.reqs[id].phase.Freed? then [id] else [])
    requires t == s.(reqs := t.reqs, next := t.next, freed := t.freed, inFlight := t.inFlight) && CountChange(s, t, id)
    requires !t.reqs[id].phase.Queued? && !t.reqs[id].pending
    requires t.reqs[id].held == !t.reqs[id].phase.Freed? && (Forgotten(t.reqs[id]) ==> t.reqs[id].phase.Over?)
    requires t.reqs[id].kind.Read? || t.reqs[id].kind.Write? ==> !t.reqs[id].phase.Flying?
    ensures Inv(t)
  {
    Below(s, None);
    if t.reqs[id].phase.Freed? {
      LogsFree(s, t, id);
    } else {
      LogsSame(s, t);
    }
    PlainChange(s, t, id, s.readLane.busy, s.writeLane.busy, None, None);
  }

  lemma EnterQueued(s: State, kind: Kind, write: bool)
    requires Inv(s) && !s.closed && LaneOf(s, write).busy && (if write then kind.Write? else kind.Read?)
    ensures Inv(Enter(Make(s, kind), s.next, write, true))
    ensures Inv(Enter(Make(s, kind), s.next, write, false))
  {
    Below(s, None);
    NewQueued(s, Enter(Make(s, kind), s.next, write, true), write, s.next);
  }

  lemma EnterLaunched(s: State, kind: Kind, write: bool)
    requires Inv(s) && !s.closed && !LaneOf(s, write).busy && (if write then kind.Write? else kind.Read?)
    ensures Inv(Enter(Make(s, kind), s.next, write, true))
  {
    Below(s, None);
    NewLaunched(s, Enter(Make(s, kind), s.next, write, true), write, s.next);
  }

  lemma EnterRefused(s: State, kind: Kind, write: bool)
    requires Inv(s) && !s.closed && !LaneOf(s, write).busy && (if write then kind.Write? else kind.Read?)
    ensures Inv(Enter(Make(s, kind), s.next, write, false))
  {
    Below(s, None);
    NewElse(s, Enter(Make(s, kind), s.next, write, false), s.next);
  }

  lemma EnterInv(s: State, kind: Kind, ok: bool, write: bool)
    requires Inv(s) && !s.closed && (if write then kind.Write? else kind.Read?)
    ensures Inv(Enter(Make(s, kind), s.next, write, ok))
  {
    if LaneOf(s, write).busy {
      EnterQueued(s, kind, write);
    } else {
      EnterLaunched(s, kind, write);
      EnterRefused(s, kind, write);
    }
  }

  lemma NoLaneInv(s: State, kind: Kind)
    requires Inv(s) && !s.closed && (kind.Flush? || kind.Stat?)
    ensures Inv(Launch(Make(s, kind), s.next)) && Inv(Free(Make(s, kind), s.next))
  {
    Below(s, None);
    NewElse(s, Launch(Make(s, kind), s.next), s.next);
    NewElse(s, Free(Make(s, kind), s.next), s.next);
  }

  lemma SubmitInv(s: State, kind: Kind, ok: bool)
    requires Inv(s)
    ensures Inv(Submit(s, kind, ok))
  {
    if !s.closed {
      match kind {
        case Read => EnterInv(s, kind, ok, false);
        case Write(_) => EnterInv(s, kind, ok, true);
        case Flush => NoLaneInv(s, kind);
        case Stat => NoLaneInv(s, kind);
      }
    }
  }

  // --------------------------------------------------------------------- work, dispose, close

  lemma WorkInv(s: State, id: nat, got: Got)
    requires Inv(s) && Enabled(s, Worked(id, got))
    ensures Inv(Work(s, id, got))
  {
    var t := Work(s, id, got);
    assert OkBut(s, None, id, s.reqs[id]);
    LogsSame(s, t);
    PlainChange(s, t, id, s.readLane.busy, s.writeLane.busy, None, None);
  }

  lemma CloseInv(s: State)
    requires Inv(s)
    ensures Inv(Close(s))
  {
    var t := Close(s);
    SameReqs(s, t, s.readLane.busy, s.writeLane.busy, None);
  }

  /** Nothing but the descriptor changes. */
  lemma SameReqs(s: State, t: State, reading: bool, writing: bool, but: Option<nat>)
    requires InvBut(s, reading, writing, but)
    requires t == s.(closed := t.closed, open := t.open, closes := t.closes) && FdOk(t)
    ensures InvBut(t, reading, writing, but)
  {
    assert Airborne(t) == Airborne(s);
    forall x | x in t.reqs ensures OkBut(t, but, x, t.reqs[x]) {
      assert OkBut(s, but, x, s.reqs[x]);
    }
  }

  lemma DisposeQueued(s: State, id: nat, write: bool)
    requires Inv(s) && id in s.reqs && id in LaneOf(s, write).queue
    ensures Inv(Free(OutOfLane(s, write, id), id))
  {
    var lane := LaneOf(s, write);
    var t := Free(OutOfLane(s, write, id), id);
    assert OkBut(s, None, id, s.reqs[id]);
    LogsFree(s, t, id);
    LaneRemove(s, t, lane, id);
    FliersSame(s, t, lane, LaneOf(t, write), write, lane.busy, id);
    OtherLane(s, t, !write, LaneOf(s, !write).busy, id);
    PartsChange(s, t, id, None, None);
    assert LaneInv(t, write, lane.busy);
  }

  lemma DisposeFlying(s: State, id: nat)
    requires Inv(s) && id in s.reqs && s.reqs[id].held && s.reqs[id].phase.Flying?
    ensures Inv(SetReq(s, id, s.reqs[id].(held := false, pending := true)))
  {
    var t := SetReq(s, id, s.reqs[id].(held := false, pending := true));
    assert OkBut(s, None, id, s.reqs[id]);
    LogsSame(s, t);
    PlainChange(s, t, id, s.readLane.busy, s.writeLane.busy, None, None);
  }

  lemma DisposeOver(s: State, id: nat)
    requires Inv(s) && id in s.reqs && s.reqs[id].held && s.reqs[id].phase.Over?
    ensures Inv(Free(s, id))
  {
    var t := Free(s, id);
    assert OkBut(s, None, id, s.reqs[id]);
    LogsFree(s, t, id);
    PlainChange(s, t, id, s.readLane.busy, s.writeLane.busy, None, None);
  }

  lemma DisposeInv(s: State, id: nat)
    requires Inv(s) && id in s.reqs && s.reqs[id].held
    ensures Inv(Dispose(s, id))
  {
    assert OkBut(s, None, id, s.reqs[id]);
    if s.reqs[id].phase.Flying? {
      DisposeFlying(s, id);
    } else if id in s.readLane.queue {
      DisposeQueued(s, id, false);
    } else if id in s.writeLane.queue {
      DisposeQueued(s, id, true);
    } else {
      DisposeOver(s, id);
    }
  }

  // -------------------------------------------------------------------------------- complete

  /** Off the pool, before anything else happens. */
  function Landing(s: State, id: nat): State
    requires id in s.reqs
  {
    SetPhase(s, id, Over).(inFlight := s.inFlight - 1)
  }

  lemma LandingInv(s: State, id: nat, t: State, reading: bool, writing: bool)
    requires Inv(s) && id in s.reqs && s.reqs[id].phase.Flying? && t == Landing(s, id)
    requires reading == (s.readLane.busy && !s.reqs[id].kind.Read?)
    requires writing == (s.writeLane.busy && !s.reqs[id].kind.Write?)
    ensures InvBut(t, reading, writing, Some(id))
  {
    assert OkBut(s, None, id, s.reqs[id]);
    assert id in Airborne(s);
    LogsSame(s, t);
    LandLanes(s, t, id);
    PartsChange(s, t, id, None, Some(id));
    assert LaneInv(t, false, reading) && LaneInv(t, true, writing);
  }

  lemma InPool(s: State, id: nat)
    requires Inv(s) && id in s.reqs && s.reqs[id].phase.Flying?
    ensures s.open && s.inFlight > 0 && (s.reqs[id].pending || s.reqs[id].held || s.reqs[id].kind.Write?)
    ensures (s.reqs[id].kind.Read? ==> s.readLane.busy) && (s.reqs[id].kind.Write? ==> s.writeLane.busy)
  {
    assert OkBut(s, None, id, s.reqs[id]);
    assert id in Airborne(s);
  }

  lemma SettlePlain(u: State, id: nat, got: Got)
    requires id in u.reqs && (u.reqs[id].pending || u.reqs[id].held)
    ensures var t := Settle(u, id, got); t == u.(position := t.position, passed := t.passed)
    ensures Answer(u, id, got) == u
  {
  }

  lemma LandPlain(s: State, id: nat, got: Got, t: State)
    requires id in s.reqs && s.inFlight > 0 && !s.fault && t == Land(s, id, got)
    requires s.reqs[id].pending || s.reqs[id].held || s.reqs[id].kind.Write?
    ensures t == Landing(s, id).(position := t.position, passed := t.passed)
  {
    assert Back(s, id) == Landing(s, id);
    if !s.reqs[id].kind.Write? {
      SettlePlain(Landing(s, id), id, got);
    }
  }

  lemma LandIsLanding(s: State, id: nat, got: Got, t: State)
    requires Inv(s) && id in s.reqs && s.reqs[id].phase.Flying? && t == Land(s, id, got)
    ensures t == Landing(s, id).(position := t.position, passed := t.passed)
    ensures s.open && (s.reqs[id].kind.Read? ==> s.readLane.busy) && (s.reqs[id].kind.Write? ==> s.writeLane.busy)
  {
    InPool(s, id);
    LandPlain(s, id, got, t);
  }

  /** While `id` comes back, nothing of its kind is in the pool. */
  lemma LandInv(s: State, id: nat, got: Got, reading: bool, writing: bool)
    requires Inv(s) && id in s.reqs && s.reqs[id].phase.Flying?
    requires reading == (s.readLane.busy && !s.reqs[id].kind.Read?)
    requires writing == (s.writeLane.busy && !s.reqs[id].kind.Write?)
    ensures InvBut(Land(s, id, got), reading, writing, Some(id))
  {
    LandingInv(s, id, Landing(s, id), reading, writing);
    LandIsLanding(s, id, got, Land(s, id, got));
    PassedOnly(Landing(s, id), Land(s, id, got), reading, writing, Some(id));
  }

  lemma LandLanes(s: State, t: State, id: nat)
    requires Inv(s) && id in s.reqs && s.reqs[id].phase.Flying? && t == Landing(s, id)
    ensures LaneInv(t, false, s.readLane.busy && !s.reqs[id].kind.Read?)
    ensures LaneInv(t, true, s.writeLane.busy && !s.reqs[id].kind.Write?)
  {
    if s.reqs[id].kind.Read? {
      FliersLand(s, t, s.readLane, false, id);
      LaneSame(s, t, s.readLane);
    } else {
      OtherLane(s, t, false, s.readLane.busy, id);
    }
    if s.reqs[id].kind.Write? {
      FliersLand(s, t, s.writeLane, true, id);
      LaneSame(s, t, s.writeLane);
    } else {
      OtherLane(s, t, true, s.writeLane.busy, id);
    }
  }

  lemma PassedOnly(s: State, t: State, reading: bool, writing: bool, but: Option<nat>)
    requires InvBut(s, reading, writing, but) && t == s.(position := t.position, passed := t.passed)
    ensures InvBut(t, reading, writing, but)
  {
    assert Airborne(t) == Airborne(s);
    forall x | x in t.reqs ensures OkBut(t, but, x, t.reqs[x]) {
      assert OkBut(s, but, x, s.reqs[x]);
    }
  }

  /** What the drain of a lane starts from. */
  ghost predicate Draining(s: State, write: bool, but: nat) {
    && InvBut(s, s.readLane.busy && write, s.writeLane.busy && !write, Some(but))
    && LaneOf(s, write).busy && s.open
  }

  lemma DrainHead(s: State, write: bool, but: nat, t: State)
    requires Draining(s, write, but) && LaneOf(s, write).queue != []
    requires t == LaunchHead(s, write)
    ensures InvBut(t, t.readLane.busy, t.writeLane.busy, Some(but))
  {
    var lane := LaneOf(s, write);
    var id := lane.queue[0];
    assert id in lane.queue;
    assert OkBut(s, Some(but), id, s.reqs[id]);
    LogsSame(s, t);
    LaneDropHead(s, t, lane);
    LaneLaunchHead(s, t, lane);
    FliersLaunch(s, t, lane, LaneOf(t, write), write, id);
    OtherLane(s, t, !write, LaneOf(s, !write).busy, id);
    PartsChange(s, t, id, Some(but), Some(but));
    assert LaneInv(t, write, true) && LaneInv(t, !write, LaneOf(t, !write).busy);
  }

  lemma DrainRefusal(s: State, write: bool, but: nat, t: State)
    requires Draining(s, write, but) && LaneOf(s, write).queue != []
    requires t == RefuseHead(s, write)
    ensures Draining(t, write, but)
  {
    var lane := LaneOf(s, write);
    var id := lane.queue[0];
    assert id in lane.queue;
    assert OkBut(s, Some(but), id, s.reqs[id]);
    LogsNotify(s, t, id);
    LaneDropHead(s, t, lane);
    FliersSame(s, t, lane, LaneOf(t, write), write, false, id);
    OtherLane(s, t, !write, LaneOf(s, !write).busy, id);
    PartsChange(s, t, id, Some(but), Some(but));
    assert LaneInv(t, write, false) && LaneInv(t, !write, LaneOf(t, !write).busy);
  }

  lemma DrainEmpty(s: State, write: bool, but: nat, t: State)
    requires Draining(s, write, but) && LaneOf(s, write).queue == []
    requires t == WithLane(s, write, LaneOf(s, write).(busy := false))
    ensures InvBut(t, t.readLane.busy, t.writeLane.busy, Some(but))
  {
    assert Airborne(t) == Airborne(s);
    forall x | x in t.reqs ensures OkBut(t, Some(but), x, t.reqs[x]) {
      assert OkBut(s, Some(but), x, s.reqs[x]);
    }
  }

  ghost predicate Drained(t: State, but: nat) { InvBut(t, t.readLane.busy, t.writeLane.busy, Some(but)) }

  ghost predicate Known(s: State, write: bool) {
    forall i :: 0 <= i < |LaneOf(s, write).queue| ==> LaneOf(s, write).queue[i] in s.reqs
  }

  lemma DrainMore(s: State, write: bool, refusals: nat)
    requires Known(s, write) && LaneOf(s, write).queue != [] && refusals > 0
    ensures Known(RefuseHead(s, write), write)
    ensures Drain(s, write, refusals) == Drain(RefuseHead(s, write), write, refusals - 1)
  {
  }

  lemma DrainNow(s: State, write: bool, refusals: nat, but: nat)
    requires Known(s, write) && Draining(s, write, but) && (LaneOf(s, write).queue == [] || refusals == 0)
    ensures Drained(Drain(s, write, refusals), but)
  {
    if LaneOf(s, write).queue == [] {
      DrainEmpty(s, write, but, Drain(s, write, refusals));
    } else {
      DrainHead(s, write, but, Drain(s, write, refusals));
    }
  }

  /** Induction over the refusals: `P` holds before the drain, every refusal keeps it, and
      what ends the drain turns it into `Q`. */
  lemma {:induction false} DrainInduction(s: State, write: bool, refusals: nat, P: State -> bool, Q: State -> bool)
    requires P(s) && Known(s, write)
    requires forall x :: P(x) && Known(x, write) && LaneOf(x, write).queue != [] ==> P(RefuseHead(x, write))
    requires forall x, k: nat ::
               P(x) && Known(x, write) && (LaneOf(x, write).queue == [] || k == 0) ==> Q(Drain(x, write, k))
    ensures Q(Drain(s, write, refusals))
    decreases refusals
  {
    if LaneOf(s, write).queue != [] && refusals > 0 {
      DrainMore(s, write, refusals);
      DrainInduction(RefuseHead(s, write), write, refusals - 1, P, Q);
    }
  }

  lemma DrainInv(s: State, write: bool, refusals: nat, but: nat)
    requires Draining(s, write, but)
    ensures Known(s, write) && Drained(Drain(s, write, refusals), but)
  {
    var P := (x: State) => Draining(x, write, but);
    var Q := (x: State) => Drained(x, but);
    forall x | P(x) && LaneOf(x, write).queue != [] ensures P(RefuseHead(x, write)) {
      DrainRefusal(x, write, but, RefuseHead(x, write));
    }
    forall x, k: nat | P(x) && (LaneOf(x, write).queue == [] || k == 0) ensures Q(Drain(x, write, k)) {
      DrainNow(x, write, k, but);
    }
    DrainInduction(s, write, refusals, P, Q);
  }

  lemma ConcludeFreed(s: State, id: nat)
    requires InvBut(s, s.readLane.busy, s.writeLane.busy, Some(id)) && (s.reqs[id].pending || Forgotten(s.reqs[id]))
    ensures Inv(Free(s, id))
  {
    assert OkBut(s, Some(id), id, s.reqs[id]);
    LogsFree(s, Free(s, id), id);
    PlainChange(s, Free(s, id), id, s.readLane.busy, s.writeLane.busy, Some(id), None);
  }

  lemma ConcludeTold(s: State, id: nat)
    requires InvBut(s, s.readLane.busy, s.writeLane.busy, Some(id)) && !s.reqs[id].pending && !Forgotten(s.reqs[id])
    ensures Inv(Notify(s, id))
  {
    assert OkBut(s, Some(id), id, s.reqs[id]);
    LogsNotify(s, Notify(s, id), id);
    PlainChange(s, Notify(s, id), id, s.readLane.busy, s.writeLane.busy, Some(id), None);
  }

  lemma ConcludeInv(s: State, id: nat)
    requires InvBut(s, s.readLane.busy, s.writeLane.busy, Some(id))
    ensures Inv(Conclude(s, id))
  {
    var t := ReleaseFd(s);
    SameReqs(s, t, s.readLane.busy, s.writeLane.busy, Some(id));
    if s.reqs[id].pending || Forgotten(s.reqs[id]) {
      ConcludeFreed(t, id);
    } else {
      ConcludeTold(t, id);
    }
  }

  lemma CompleteLane(s: State, id: nat, refusals: nat, write: bool, t: State)
    requires Inv(s) && Enabled(s, Completed(id, refusals)) && OfLane(s.reqs[id], write)
    requires t == Land(s, id, s.reqs[id].phase.got.value) && Known(t, write) && id in t.reqs
    ensures Inv(Conclude(Drain(t, write, refusals), id))
  {
    LandInv(s, id, s.reqs[id].phase.got.value, s.readLane.busy && write, s.writeLane.busy && !write);
    LandIsLanding(s, id, s.reqs[id].phase.got.value, t);
    var u := Drain(t, write, refusals);
    DrainInv(t, write, refusals, id);
    ConcludeInv(u, id);
  }

  lemma CompleteNoLane(s: State, id: nat, refusals: nat, t: State)
    requires Inv(s) && Enabled(s, Completed(id, refusals)) && !s.reqs[id].kind.Read? && !s.reqs[id].kind.Write?
    requires t == Land(s, id, s.reqs[id].phase.got.value)
    ensures Inv(Conclude(t, id))
  {
    LandInv(s, id, s.reqs[id].phase.got.value, s.readLane.busy, s.writeLane.busy);
    LandIsLanding(s, id, s.reqs[id].phase.got.value, t);
    ConcludeInv(t, id);
  }

  lemma CompleteInv(s: State, id: nat, refusals: nat)
    requires Inv(s) && Enabled(s, Completed(id, refusals))
    ensures Inv(Complete(s, id, refusals))
  {
    var t := Land(s, id, s.reqs[id].phase.got.value);
    match s.reqs[id].kind {
      case Read => CompleteLane(s, id, refusals, false, t);
      case Write(_) => CompleteLane(s, id, refusals, true, t);
      case Flush => CompleteNoLane(s, id, refusals, t);
      case Stat => CompleteNoLane(s, id, refusals, t);
    }
  }

  lemma StepInv(s: State, step: Step)
    requires Inv(s) && Enabled(s, step)
    ensures Inv(Apply(s, step))
  {
    match step {
      case Submitted(kind, ok) => SubmitInv(s, kind, ok);
      case Worked(id, got) => WorkInv(s, id, got);
      case Completed(id, refusals) => CompleteInv(s, id, refusals);
      case Disposed(id) => DisposeInv(s, id);
      case Closed => CloseInv(s);
    }
  }
}
