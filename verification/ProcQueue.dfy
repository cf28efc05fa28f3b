/**
  Process queues: circular, doubly linked, named by a pointer to the tail.
  A method is told, as ghost argument q, which sequence of blocks (head first) the queue holds.
  */
module ProcQueue {
  import opened Collections
  import opened Types

  ghost predicate IsProcQ(tail: Pcb?, q: seq<Pcb>)
    reads q`next, q`prev
  {
    && Distinct(q)
    && (if q == [] then tail == null
        else tail == q[|q| - 1] && tail.next == q[0] && q[0].prev == tail)
    && (forall i {:trigger q[i].next} :: 0 <= i < |q| - 1 ==> q[i].next == q[i + 1])
    && (forall i {:trigger q[i].prev} :: 1 <= i < |q| ==> q[i].prev == q[i - 1])
  }

  method MkEmptyProcQ() returns (tail: Pcb?)
    ensures IsProcQ(tail, [])
  {
    tail := null;
  }

  method EmptyProcQ(tp: Pcb?, ghost q: seq<Pcb>) returns (empty: bool)
    requires IsProcQ(tp, q)
    ensures empty <==> q == []
  {
    empty := tp == null;
  }

  method HeadProcQ(tp: Pcb?, ghost q: seq<Pcb>) returns (head: Pcb?)
    requires IsProcQ(tp, q)
    ensures head == if q == [] then null else q[0]
  {
    if tp == null {
      return null;
    }
    head := tp.next;
  }

  method InsertProcQ(tp: Pcb?, p: Pcb?, ghost q: seq<Pcb>) returns (tail: Pcb?)
    requires IsProcQ(tp, q) && p !in q
    modifies q`next, q`prev, Cell(p)`next, Cell(p)`prev
    ensures p == null ==> tail == tp && IsProcQ(tail, q)
    ensures p != null ==> IsProcQ(tail, q + [p])
  {
    if p == null {
      return tp;
    }
    if tp == null {
      p.next := p;
      p.prev := p;
    } else {
      var head := tp.next;
      tp.next := p;
      p.prev := tp;
      p.next := head;
      head.prev := p;
    }
    tail := p;
  }

  method RemoveProcQ(tp: Pcb?, ghost q: seq<Pcb>) returns (tail: Pcb?, head: Pcb?)
    requires IsProcQ(tp, q)
    modifies q`next, q`prev
    ensures q == [] ==> head == null && tail == null
    ensures q != [] ==> head == q[0] && IsProcQ(tail, q[1..]) && head.next == null && head.prev == null
  {
    if tp == null {
      return null, null;
    }
    tail := tp;
    head := tp.next;
    if head == tail {
      tail := null;
    } else {
      tail.next := head.next;
      head.next.prev := tail;
    }
    head.next := null;
    head.prev := null;
  }

  method OutProcQ(tp: Pcb?, p: Pcb?, ghost q: seq<Pcb>) returns (tail: Pcb?, out: Pcb?)
    requires IsProcQ(tp, q)
    modifies q`next, q`prev
    ensures p in q ==> out == p && IsProcQ(tail, Minus<Pcb>(q, {p})) && p.next == null && p.prev == null
    ensures p !in q ==> out == null && tail == tp && IsProcQ(tail, q)
    ensures p !in q ==> forall x | x in q :: x.next == old(x.next) && x.prev == old(x.prev)
  {
    if tp == null || p == null {
      return tp, null;
    }
    tail := tp;
    var current := tail.next;
    ghost var k := 0;
    // the source tests at the end of each round whether it is back at the head
    while true
      invariant 0 <= k < |q| && current == q[k] && tail == tp
      invariant forall j :: 0 <= j < k ==> q[j] != p
      invariant IsProcQ(tp, q)
      invariant forall x | x in q :: x.next == old(x.next) && x.prev == old(x.prev)
      decreases |q| - k
    {
      if current == p {
        MinusAt(q, k);
        tail := Unlink(tp, p, q, k);
        return tail, p;
      }
      current := current.next;
      if current == tail.next {
        break;
      }
      k := k + 1;
    }
    assert k == |q| - 1 && q[k] != p;
    out := null;
  }

  /** The branch of OutProcQ that has found p. */
  method Unlink(tp: Pcb, p: Pcb, ghost q: seq<Pcb>, ghost k: nat) returns (tail: Pcb?)
    requires IsProcQ(tp, q) && k < |q| && p == q[k]
    modifies q`next, q`prev
    ensures IsProcQ(tail, q[..k] + q[k + 1..])
    ensures p.next == null && p.prev == null
  {
    tail := tp;
    if p.next == p {
      tail := null;
    } else {
      p.prev.next := p.next;
      p.next.prev := p.prev;
      if p == tail {
        tail := p.prev;
      }
    }
    p.next := null;
    p.prev := null;
  }
}
