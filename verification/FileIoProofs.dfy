/**
 What every step on a file handle keeps.
 */
module FileIoProofs {
  import opened Basics
  import opened FileIo

  // -------------------------------------------------------------------------------- requests

  predicate Forgotten(r: Req) { r.kind.Write? && r.kind.forget }

  predicate OfLane(r: Req, write: bool) { if write then r.kind.Write? else r.kind.Read? }

  /** A request is queued exactly while it stands in the queue of its kind; a caller that left
      in mid-flight left a note; nobody holds a freed one. */
  predicate ReqOk(s: State, id: nat, r: Req) {
    && id < s.next
    && (r.pending ==> r.phase.Flying? && !r.held && !Forgotten(r))
    && (r.held ==> !r.phase.Freed? && (Forgotten(r) ==> r.phase.Over?))
    && (!r.held && !Forgotten(r) ==> r.pending || r.phase.Freed?)
    && (r.phase.Queued? ==> r.kind.Read? || r.kind.Write?)
    && (id in s.readLane.queue <==> r.phase.Queued? && r.kind.Read?)
    && (id in s.writeLane.queue <==> r.phase.Queued? && r.kind.Write?)
    && (id in s.freed <==> r.phase.Freed?)
    && (id in s.notified ==> r.phase.Over? || r.phase.Freed?)
    && (Forgotten(r) ==> (id in s.notified <==> r.phase.Over? && !r.held))
  }

  /** The one that has just come back from the pool and is yet to be answered for. */
  predicate Landed(s: State, id: nat, r: Req) {
    && id < s.next && r.phase.Over?
    && (r.pending <==> !r.held && !Forgotten(r)) && (r.held ==> !Forgotten(r))
    && id !in s.readLane.queue && id !in s.writeLane.queue && id !in s.freed && id !in s.notified
  }

  ghost predicate OkBut(s: State, but: Option<nat>, id: nat, r: Req) {
    if but == Some(id) then Landed(s, id, r) else ReqOk(s, id, r)
  }

  ghost predicate Reqs(s: State, but: Option<nat>) {
    && (forall id :: id in s.reqs ==> OkBut(s, but, id, s.reqs[id]))
    && (but.Some? ==> but.value in s.reqs)
  }

  /** One request changes, and nothing the others depend on. */
  lemma ReqsChange(s: State, t: State, id: nat, was: Option<nat>, but: Option<nat>)
    requires Reqs(s, was) && s.next <= t.next && id in t.reqs && t.reqs == s.reqs[id := t.reqs[id]]
    requires OkBut(t, but, id, t.reqs[id])
    requires forall x :: x != id ==> (was == Some(x) <==> but == Some(x))
    requires forall x :: x != id ==> (x in t.readLane.queue <==> x in s.readLane.queue)
    requires forall x :: x != id ==> (x in t.writeLane.queue <==> x in s.writeLane.queue)
    requires forall x :: x != id ==> (x in t.freed <==> x in s.freed)
    requires forall x :: x != id ==> (x in t.notified <==> x in s.notified)
    ensures Reqs(t, but)
  {
    forall x | x in t.reqs && x != id ensures OkBut(t, but, x, t.reqs[x]) {
      assert OkBut(s, was, x, s.reqs[x]);
    }
  }

  // ----------------------------------------------------------------------------------- lanes

  predicate Increasing(q: seq<nat>) { forall i, j :: 0 <= i < j < |q| ==> q[i] < q[j] }

  /** A lane: started and waiting requests in the order they were made, and none waits
      without one under way. */
  ghost predicate LaneOk(s: State, lane: Lane) {
    && Increasing(lane.launched + lane.queue)
    && (forall i :: 0 <= i < |lane.launched| ==> lane.launched[i] in s.reqs)
    && (forall i :: 0 <= i < |lane.queue| ==> lane.queue[i] in s.reqs)
    && (!lane.busy ==> lane.queue == [])
  }

  /** If `busy`, the last one started is in the pool, and no other of its kind. */
  ghost predicate Fliers(s: State, lane: Lane, write: bool, busy: bool) {
    && (forall x :: x in s.reqs && s.reqs[x].phase.Flying? && OfLane(s.reqs[x], write) ==>
          busy && lane.launched != [] && x == lane.launched[|lane.launched| - 1])
    && (busy ==>
          && lane.launched != []
          && var x := lane.launched[|lane.launched| - 1];
             x in s.reqs && s.reqs[x].phase.Flying? && OfLane(s.reqs[x], write))
  }

  ghost predicate OneChange(s: State, t: State, id: nat) {
    id in t.reqs && t.reqs == s.reqs[id := t.reqs[id]] && (id in s.reqs ==> t.reqs[id].kind == s.reqs[id].kind)
  }

  lemma FliersSame(s: State, t: State, lane: Lane, lane': Lane, write: bool, busy: bool, id: nat)
    requires Fliers(s, lane, write, busy) && OneChange(s, t, id) && lane'.launched == lane.launched
    requires OfLane(t.reqs[id], write) ==>
               (t.reqs[id].phase.Flying? <==> id in s.reqs && s.reqs[id].phase.Flying?)
    ensures Fliers(t, lane', write, busy)
  {
  }

  lemma FliersLaunch(s: State, t: State, lane: Lane, lane': Lane, write: bool, id: nat)
    requires Fliers(s, lane, write, false) && OneChange(s, t, id) && lane'.launched == lane.launched + [id]
    requires OfLane(t.reqs[id], write) && t.reqs[id].phase.Flying?
    ensures Fliers(t, lane', write, true)
  {
  }

  lemma FliersLand(s: State, t: State, lane: Lane, write: bool, id: nat)
    requires Fliers(s, lane, write, true) && OneChange(s, t, id)
    requires id in s.reqs && OfLane(s.reqs[id], write) && s.reqs[id].phase.Flying? && !t.reqs[id].phase.Flying?
    ensures Fliers(t, lane, write, false)
  {
  }

  lemma LaneSame(s: State, t: State, lane: Lane)
    requires LaneOk(s, lane) && s.reqs.Keys <= t.reqs.Keys
    ensures LaneOk(t, lane)
  {
  }

  lemma LaneAppend(s: State, t: State, lane: Lane, id: nat)
    requires LaneOk(s, lane) && s.reqs.Keys <= t.reqs.Keys && id in t.reqs && lane.busy
    requires forall x :: x in s.reqs ==> x < id
    ensures LaneOk(t, lane.(queue := lane.queue + [id]))
  {
    var all := lane.launched + lane.queue;
    assert lane.launched + (lane.queue + [id]) == all + [id];
    forall i | 0 <= i < |all| ensures all[i] < id {
      assert all[i] in s.reqs;
    }
  }

  lemma LaneLaunchNew(s: State, t: State, lane: Lane, id: nat)
    requires LaneOk(s, lane) && s.reqs.Keys <= t.reqs.Keys && id in t.reqs && lane.queue == []
    requires forall x :: x in s.reqs ==> x < id
    ensures LaneOk(t, lane.(busy := true, launched := lane.launched + [id]))
  {
    assert lane.launched + [] == lane.launched;
    forall i | 0 <= i < |lane.launched| ensures lane.launched[i] < id {
      assert lane.launched[i] in s.reqs;
    }
  }

  lemma LaneLaunchHead(s: State, t: State, lane: Lane)
    requires LaneOk(s, lane) && s.reqs.Keys <= t.reqs.Keys && lane.queue != []
    ensures LaneOk(t, Lane(lane.queue[1..], true, lane.launched + [lane.queue[0]]))
  {
    assert lane.launched + [lane.queue[0]] + lane.queue[1..] == lane.launched + lane.queue;
  }

  lemma IncreasingCons(x: nat, q: seq<nat>)
    requires Increasing(q) && forall y :: y in q ==> x < y
    ensures Increasing([x] + q)
  {
    forall i, j | 0 <= i < j < |[x] + q| ensures ([x] + q)[i] < ([x] + q)[j] {
      assert q[j - 1] in q;
    }
  }

  lemma {:induction false} WithoutIs(q: seq<nat>, id: nat)
    requires Increasing(q)
    ensures Increasing(Without(q, id))
    ensures forall x :: x in Without(q, id) <==> x in q && x != id
  {
    if q != [] {
      WithoutIs(q[1..], id);
      if q[0] != id {
        forall x | x in Without(q[1..], id) ensures q[0] < x {
          assert x in q[1..];
        }
        IncreasingCons(q[0], Without(q[1..], id));
      }
    }
  }

  lemma IncreasingSub(a: seq<nat>, b: seq<nat>, c: seq<nat>)
    requires Increasing(a + b) && Increasing(c) && forall x :: x in c ==> x in b
    ensures Increasing(a + c)
  {
    assert forall i :: 0 <= i < |a| ==> (a + b)[i] == a[i];
    assert forall i :: 0 <= i < |b| ==> (a + b)[|a| + i] == b[i];
    forall i, j | 0 <= i < |a| && 0 <= j < |c| ensures a[i] < c[j] {
      assert c[j] in b;
    }
  }

  lemma TailIncreasing(a: seq<nat>, b: seq<nat>)
    requires Increasing(a + b)
    ensures Increasing(b)
  {
    assert forall i :: 0 <= i < |b| ==> (a + b)[|a| + i] == b[i];
  }

  lemma LaneRemove(s: State, t: State, lane: Lane, id: nat)
    requires LaneOk(s, lane) && s.reqs.Keys <= t.reqs.Keys
    ensures LaneOk(t, lane.(queue := Without(lane.queue, id)))
    ensures forall x :: x in Without(lane.queue, id) <==> x in lane.queue && x != id
  {
    TailIncreasing(lane.launched, lane.queue);
    WithoutIs(lane.queue, id);
    IncreasingSub(lane.launched, lane.queue, Without(lane.queue, id));
    forall i | 0 <= i < |Without(lane.queue, id)| ensures Without(lane.queue, id)[i] in t.reqs {
      assert Without(lane.queue, id)[i] in lane.queue;
    }
  }

  lemma LaneDropHead(s: State, t: State, lane: Lane)
    requires LaneOk(s, lane) && s.reqs.Keys <= t.reqs.Keys && lane.queue != []
    ensures LaneOk(t, lane.(queue := lane.queue[1..]))
    ensures forall x :: x in lane.queue[1..] <==> x in lane.queue && x != lane.queue[0]
  {
    LaneRemove(s, t, lane, lane.queue[0]);
  }

  // ----------------------------------------------------------------------------------- count

  ghost function Airborne(s: State): set<nat> { set id | id in s.reqs && s.reqs[id].phase.Flying? }

  lemma FlyingChange(s: State, t: State, id: nat)
    requires id in t.reqs && t.reqs == s.reqs[id := t.reqs[id]]
    ensures |Airborne(t)| == |Airborne(s)| + One(t.reqs[id].phase.Flying?)
                             - One(id in s.reqs && s.reqs[id].phase.Flying?)
  {
    var rest := Airborne(s) - {id};
    assert Airborne(s) == if id in Airborne(s) then rest + {id} else rest;
    assert Airborne(t) == if t.reqs[id].phase.Flying? then rest + {id} else rest;
  }

  ghost predicate Counted(s: State) { s.inFlight == |Airborne(s)| }

  // -------------------------------------------------------------------------------- the rest

  ghost predicate Distinct(q: seq<nat>) { forall i, j :: 0 <= i < j < |q| ==> q[i] != q[j] }

  /** The descriptor is closed at most once, and only when nothing is in the pool. */
  predicate FdOk(s: State) {
    && s.closes == One(!s.open)
    && (!s.open ==> s.closed && s.owns && s.inFlight == 0)
  }

  ghost predicate Logs(s: State) {
    && Distinct(s.freed) && Distinct(s.notified)
    && (forall i :: 0 <= i < |s.freed| ==> s.freed[i] in s.reqs)
    && (forall i :: 0 <= i < |s.notified| ==> s.notified[i] in s.reqs)
  }

  /** The invariant with `reading` and `writing` saying whether one of the kind is in the pool,
      and all requests but `but` in order. */
  ghost predicate InvBut(s: State, reading: bool, writing: bool, but: Option<nat>) {
    && Reqs(s, but) && Counted(s) && FdOk(s) && Logs(s) && !s.fault
    && LaneOk(s, s.readLane) && LaneOk(s, s.writeLane)
    && Fliers(s, s.readLane, false, reading) && Fliers(s, s.writeLane, true, writing)
  }

  ghost predicate Inv(s: State) { InvBut(s, s.readLane.busy, s.writeLane.busy, None) }

  lemma InitInv(owns: bool, start: nat)
    ensures Inv(Init(owns, start))
  {
    assert Airborne(Init(owns, start)) == {};
  }
}
