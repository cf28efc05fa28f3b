/** The free list of process control blocks. */
module PcbPool {
  import opened Collections
  import opened Types

  class FreePcbs {
    var head: Pcb?
    ghost var free: seq<Pcb>

    /** free is the null-terminated chain of next links that starts at head, without repetition. */
    ghost predicate Valid()
      reads this, free`next
    {
      && Distinct(free)
      && head == (if free == [] then null else free[0])
      && (forall i {:trigger free[i].next} :: 0 <= i < |free| ==>
        free[i].next == if i + 1 < |free| then free[i + 1] else null)
    }

    /** Builds the table of maxProc blocks and frees each of them. */
    constructor (maxProc: nat)
      ensures Valid() && |free| == maxProc
      ensures fresh(free) && forall p | p in free :: p.state == ZERO_STATE
    {
      head := null;
      free := [];
      new;
      for i := 0 to maxProc
        invariant Valid() && |free| == i
        invariant fresh(free) && forall p | p in free :: p.state == ZERO_STATE
      {
        var p := new Pcb();
        FreePcb(p);
      }
    }

    method AllocPcb() returns (p: Pcb?)
      requires Valid()
      modifies this, Cell(head)
      ensures Valid()
      ensures old(free) == [] ==> p == null && free == []
      ensures old(free) != [] ==> p == old(free[0]) && free == old(free)[1..]
      ensures p != null ==> p.next == null && p.prev == null && p.parent == null && p.child == null
      ensures p != null ==> p.leftSib == null && p.rightSib == null
      ensures p != null ==> p.state == old(head.state).(reg := ZERO_STATE.reg)
      ensures p != null ==> p.time == 0 && p.semAdd == None && p.support == None
    {
      if head == null {
        return null;
      }
      p := head;
      head := p.next;
      free := free[1..];
      p.next, p.prev, p.parent, p.child, p.leftSib, p.rightSib := null, null, null, null, null, null;
      ClearRegisters(p);
      p.time := 0;
      p.semAdd := None;
      p.support := None;
    }

    /** The register loop of AllocPcb; the other words of the processor state keep their old values. */
    static method ClearRegisters(p: Pcb)
      modifies p`state
      ensures p.state == old(p.state).(reg := ZERO_STATE.reg)
    {
      for j := 0 to STATE_REG_NUM
        invariant p.state == old(p.state).(reg := p.state.reg)
        invariant forall i :: 0 <= i < j ==> p.state.reg[i] == 0
      {
        p.state := p.state.(reg := p.state.reg[j := 0]);
      }
      assert p.state.reg == ZERO_STATE.reg;
    }

    method FreePcb(p: Pcb?)
      requires Valid() && p !in free
      modifies this, Cell(p)`next, Cell(p)`prev, Cell(head)`prev
      ensures Valid()
      ensures free == if p == null then old(free) else [p] + old(free)
    {
      if p == null {
        return;
      }
      if head == null {
        p.next := null;
        p.prev := null;
      } else {
        p.next := head;
        p.prev := null;
        head.prev := p;
      }
      head := p;
      free := [p] + free;
    }
  }
}
