/**
 The two queues of a file handle as they stand in memory: requests linked through one field,
 with a pointer to the first and one to the last.
 */
module RequestQueue {

  class Request {
    const id: nat
    var next: Request?

    constructor (id: nat)
      ensures this.id == id && next == null
    {
      this.id := id;
      next := null;
    }
  }

  ghost function Position(q: seq<Request>, r: Request): (i: nat)
    ensures i <= |q| && (i < |q| ==> q[i] == r) && (forall j :: 0 <= j < i ==> q[j] != r)
    ensures i < |q| <==> r in q
  {
    if q == [] then 0 else if q[0] == r then 0 else 1 + Position(q[1..], r)
  }

  /** The queue without one of its requests. */
  ghost function Without(q: seq<Request>, r: Request): seq<Request> {
    var i := Position(q, r);
    if i < |q| then q[..i] + q[i + 1..] else q
  }

  ghost function After(q: seq<Request>, i: nat): Request? { if i + 1 < |q| then q[i + 1] else null }

  ghost predicate Distinct(q: seq<Request>) { forall i, j :: 0 <= i < j < |q| ==> q[i] != q[j] }

  lemma CutDistinct(q: seq<Request>, i: nat)
    requires i + 1 < |q| && Distinct(q)
    ensures Distinct(q[..i + 1] + q[i + 2..]) && q[i + 1] !in q[..i + 1] + q[i + 2..]
  {
  }

  lemma AfterCut(q: seq<Request>, i: nat)
    requires i + 1 < |q|
    ensures var c := q[..i + 1] + q[i + 2..];
            && (forall j :: 0 <= j <= i ==> c[j] == q[j])
            && (forall j :: i < j < |c| ==> c[j] == q[j + 1] && After(c, j) == After(q, j + 1))
            && (forall j :: 0 <= j < i ==> After(c, j) == After(q, j))
            && After(c, i) == After(q, i + 1)
  {
  }

  class Fifo {
    var head: Request?
    var tail: Request?
    ghost var items: seq<Request>

    ghost predicate Valid()
      reads this, items
    {
      && Distinct(items)
      && (forall i :: 0 <= i < |items| ==> items[i].next == After(items, i))
      && head == (if items == [] then null else items[0])
      && tail == (if items == [] then null else items[|items| - 1])
    }

    constructor ()
      ensures Valid() && items == []
    {
      head := null;
      tail := null;
      items := [];
    }

    method Push(r: Request)
      requires Valid() && r !in items
      modifies this, items, r
      ensures Valid() && items == old(items) + [r]
    {
      r.next := null;
      if tail != null {
        tail.next := r;
      } else {
        head := r;
      }
      tail := r;
      items := items + [r];
    }

    method Pop() returns (r: Request)
      requires Valid() && items != []
      modifies this, items
      ensures Valid() && r == old(items)[0] && items == old(items)[1..] && r.next == null
    {
      r := head;
      assert r.next == After(items, 0);
      head := r.next;
      if head == null {
        tail := null;
      }
      r.next := null;
      items := items[1..];
      assert forall i :: 0 <= i < |items| ==>
        items[i] == old(items)[i + 1] && After(items, i) == After(old(items), i + 1);
    }

    /** The request before `r`, if there is one. */
    method Before(r: Request) returns (prev: Request?, ghost i: nat)
      requires Valid() && head != r
      ensures prev != null ==> i + 1 < |items| && prev == items[i] && items[i + 1] == r
      ensures prev == null ==> r !in items
    {
      prev := head;
      i := 0;
      while prev != null && prev.next != r
        invariant prev != null ==> i < |items| && prev == items[i]
        invariant prev == null ==> i >= |items|
        invariant forall j :: 0 <= j <= i && j < |items| ==> items[j] != r
        decreases |items| - i
      {
        assert prev.next == After(items, i);
        prev := prev.next;
        i := i + 1;
      }
      if prev != null {
        assert prev.next == After(items, i);
      }
    }

    /** Takes out the request behind `prev`. */
    method Cut(prev: Request, r: Request, ghost i: nat)
      requires Valid() && i + 1 < |items| && prev == items[i] && r == items[i + 1]
      modifies this, items
      ensures Valid() && items == old(items)[..i + 1] + old(items)[i + 2..] && r.next == null
    {
      assert r.next == After(items, i + 1);
      prev.next := r.next;
      if tail == r {
        tail := prev;
      }
      r.next := null;
      AfterCut(items, i);
      CutDistinct(items, i);
      items := items[..i + 1] + items[i + 2..];
    }

    /** Takes a request out, wherever it stands. A request that does not stand in this queue is
        left as it is: it may be linked into another one. */
    method Unlink(r: Request) returns (found: bool)
      requires Valid()
      modifies this, items
      ensures Valid() && found == (r in old(items)) && items == Without(old(items), r)
      ensures found ==> r.next == null
      ensures !found ==> forall i :: 0 <= i < |items| ==> items[i].next == old(items[i].next)
    {
      if head == r {
        var _ := Pop();
        assert Position(old(items), r) == 0;
        return true;
      }
      ghost var i;
      var prev;
      prev, i := Before(r);
      if prev == null {
        return false;
      }
      Cut(prev, r, i);
      assert Position(old(items), r) == i + 1;
      found := true;
    }
  }

  /** A disposed request stands in one of the two queues or in neither; the queue it does not
      stand in, and its links, stay as they are. */
  method UnlinkFromEither(first: Fifo, second: Fifo, r: Request)
    requires first != second && first.Valid() && second.Valid()
    requires forall i, j :: 0 <= i < |first.items| && 0 <= j < |second.items| ==> first.items[i] != second.items[j]
    modifies first, second, first.items, second.items
    ensures first.Valid() && second.Valid()
    ensures first.items == Without(old(first.items), r) && second.items == Without(old(second.items), r)
  {
    var found := first.Unlink(r);
    assert forall j :: 0 <= j < |second.items| ==> second.items[j] !in old(first.items);
    assert forall j :: 0 <= j < |second.items| ==> second.items[j].next == old(second.items[j].next);
    if !found {
      var _ := second.Unlink(r);
    }
  }
}
