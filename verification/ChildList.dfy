/**
  Child lists of the process tree. As for queues, a ghost argument kids says which
  sequence of blocks (first child first) hangs below a parent.
  */
module ChildList {
  import opened Collections
  import opened Types

  /** The left-sibling link of the first child is not part of this: RemoveChild leaves it dangling. */
  ghost predicate IsChildList(p: Pcb, kids: seq<Pcb>)
    reads p`child, kids`parent, kids`leftSib, kids`rightSib
  {
    && Distinct(kids)
    && p.child == (if kids == [] then null else kids[0])
    && (forall i {:trigger kids[i].parent} :: 0 <= i < |kids| ==> kids[i].parent == p)
    && (forall i {:trigger kids[i].rightSib} :: 0 <= i < |kids| ==>
      kids[i].rightSib == if i + 1 < |kids| then kids[i + 1] else null)
    && (forall i {:trigger kids[i].leftSib} :: 1 <= i < |kids| ==> kids[i].leftSib == kids[i - 1])
  }

  method EmptyChild(p: Pcb?, ghost kids: seq<Pcb>) returns (empty: bool)
    requires p != null ==> IsChildList(p, kids)
    ensures empty <==> p == null || kids == []
  {
    if p == null || p.child == null {
      return true;
    }
    empty := p.child == null;
  }

  method InsertChild(prnt: Pcb?, p: Pcb?, ghost kids: seq<Pcb>)
    requires prnt != null && p != null ==> IsChildList(prnt, kids) && p !in kids
    modifies Cell(prnt)`child, kids`leftSib, Cell(p)`parent, Cell(p)`leftSib, Cell(p)`rightSib
    ensures prnt != null && p != null ==> IsChildList(prnt, [p] + kids) && p.leftSib == null
    ensures prnt == null || p == null ==> unchanged(Cell(prnt)) && unchanged(Cell(p)) && unchanged(kids)
  {
    if prnt == null || p == null {
      return;
    }
    if prnt.child == null {
      prnt.child := p;
      p.parent := prnt;
      p.leftSib := null;
      p.rightSib := null;
      return;
    }
    p.parent := prnt;
    p.leftSib := null;
    p.rightSib := prnt.child;
    prnt.child.leftSib := p;
    prnt.child := p;
  }

  method RemoveChild(p: Pcb?, ghost kids: seq<Pcb>) returns (child: Pcb?)
    requires p != null ==> IsChildList(p, kids)
    modifies Cell(p)`child, kids`parent, kids`leftSib, kids`rightSib
    ensures p == null || kids == [] ==> child == null && unchanged(Cell(p)) && unchanged(kids)
    ensures p != null && kids != [] ==> child == kids[0] && IsChildList(p, kids[1..])
    ensures p != null && kids != [] ==> child.parent == null && child.leftSib == null && child.rightSib == null
    ensures p != null && |kids| > 1 ==> kids[1].leftSib == child
    ensures forall x | x in kids && x != child ::
      x.leftSib == old(x.leftSib) && x.rightSib == old(x.rightSib) && x.parent == old(x.parent)
  {
    if p == null || p.child == null {
      return null;
    }
    child := p.child;
    p.child := child.rightSib;
    child.parent := null;
    child.rightSib := null;
    child.leftSib := null;
  }

  /** The parent of a block, as a set of at most one block. */
  ghost function ParentCell(p: Pcb?): set<Pcb>
    reads Cell(p)`parent
  {
    if p == null then {} else Cell(p.parent)
  }

  /** The block that gets a new left link when p is taken out: its right sibling, unless p is the first child. */
  ghost function Relinked(p: Pcb?): Pcb?
    reads Cell(p)`parent, Cell(p)`rightSib, ParentCell(p)`child
  {
    if p == null || p.parent == null || p.parent.child == p then null else p.rightSib
  }

  /** The block that keeps its link to p when p is taken out: its right sibling, if p is the first child. */
  ghost function Bereft(p: Pcb?): Pcb?
    reads Cell(p)`parent, Cell(p)`rightSib, ParentCell(p)`child
  {
    if p == null || p.parent == null || p.parent.child != p then null else p.rightSib
  }

  /** kids is the child list of the parent of p; whether p occurs in it is found out by the search. */
  method OutChild(p: Pcb?, ghost kids: seq<Pcb>) returns (out: Pcb?)
    requires p != null && p.parent != null ==> IsChildList(p.parent, kids)
    modifies ParentCell(p)`child, kids`parent, kids`leftSib, kids`rightSib
    ensures p == null || old(p.parent) == null || p !in kids ==>
      out == null && unchanged(Cell(p)) && unchanged(old(ParentCell(p))) && unchanged(kids)
    ensures p != null && old(p.parent) != null && p in kids ==>
      && out == p && IsChildList(old(p.parent), Minus<Pcb>(kids, {p}))
      && p.parent == null && p.leftSib == null && p.rightSib == null
    ensures p != null && old(p.parent) != null && p in kids ==> forall x | x in kids && x != p ::
      x.leftSib == if x == old(Relinked(p)) then old(p.leftSib) else old(x.leftSib)
    ensures p != null && p in kids && old(Bereft(p)) != null ==> old(Bereft(p)).leftSib == p
    ensures forall x | x in kids && x != p :: x.parent == old(x.parent)
  {
    hide IsChildList, Minus;
    if p == null || p.parent == null {
      return null;
    }
    var prnt := p.parent;
    ListHead(prnt, kids, p);
    if prnt.child == p {
      CutFirst(prnt, p, kids);
    } else {
      var cur, k := Predecessor(prnt, p, kids);
      if cur == null {
        return null;
      }
      CutLater(prnt, cur, p, kids, k);
    }
    ghost var rest := Minus<Pcb>(kids, {p});
    p.parent := null;
    p.rightSib := null;
    p.leftSib := null;
    assert forall x | x in rest :: x != p;
    out := p;
  }

  lemma ListHead(prnt: Pcb, kids: seq<Pcb>, p: Pcb)
    requires IsChildList(prnt, kids)
    ensures prnt.child == p <==> kids != [] && kids[0] == p
    ensures p in kids && p.rightSib != null ==> p.rightSib in kids && p.rightSib != p
  {
    assert kids != [] ==> kids[0] in kids;
  }

  /** The branch of OutChild for a first child. */
  method CutFirst(prnt: Pcb, ghost p: Pcb, ghost kids: seq<Pcb>)
    requires IsChildList(prnt, kids) && kids != [] && kids[0] == p
    modifies prnt`child, kids`parent, kids`leftSib, kids`rightSib
    ensures IsChildList(prnt, Minus<Pcb>(kids, {p}))
    ensures forall x | x in kids && x != p :: x.leftSib == old(x.leftSib) && x.parent == old(x.parent)
    ensures old(p.rightSib) != null ==> old(p.rightSib).leftSib == p
  {
    MinusAt(kids, 0);
    var first := RemoveChild(prnt, kids);
  }

  /** The branch of OutChild that has found p just after cur. */
  method CutLater(ghost prnt: Pcb, cur: Pcb, p: Pcb, ghost kids: seq<Pcb>, ghost k: nat)
    requires IsChildList(prnt, kids) && k + 1 < |kids| && cur == kids[k] && p == kids[k + 1]
    modifies cur`rightSib, kids`leftSib
    ensures IsChildList(prnt, Minus<Pcb>(kids, {p}))
    ensures forall x | x in kids :: x.leftSib == if x == old(p.rightSib) then old(p.leftSib) else old(x.leftSib)
  {
    MinusAt(kids, k + 1);
    Splice(prnt, cur, p, kids, k);
  }

  /** The search of OutChild for the block before p, which is not the first child. */
  method Predecessor(prnt: Pcb, p: Pcb, ghost kids: seq<Pcb>) returns (cur: Pcb?, ghost k: nat)
    requires IsChildList(prnt, kids) && prnt.child != p
    ensures cur == null ==> p !in kids
    ensures cur != null ==> k + 1 < |kids| && cur == kids[k] && p == kids[k + 1]
  {
    cur, k := prnt.child, 0;
    while cur != null && cur.rightSib != p
      invariant 0 <= k <= |kids| && cur == if k < |kids| then kids[k] else null
      invariant forall j :: 0 <= j <= k && j < |kids| ==> kids[j] != p
      decreases |kids| - k
    {
      cur := cur.rightSib;
      k := k + 1;
    }
  }

  /** Links cur, which is just before p, with what is just after p. */
  method Splice(ghost prnt: Pcb, cur: Pcb, p: Pcb, ghost kids: seq<Pcb>, ghost k: nat)
    requires IsChildList(prnt, kids) && k + 1 < |kids| && cur == kids[k] && p == kids[k + 1]
    modifies cur`rightSib, kids`leftSib
    ensures IsChildList(prnt, kids[..k + 1] + kids[k + 2..])
    ensures forall x | x in kids :: x.leftSib == if x == p.rightSib then cur else old(x.leftSib)
  {
    cur.rightSib := p.rightSib;
    if p.rightSib != null {
      p.rightSib.leftSib := cur;
    }
  }
}
