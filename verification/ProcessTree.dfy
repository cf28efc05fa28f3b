/**
  The process tree in the PCB table: every child list and every parent link of the
  forest fo is there, and the operations on one list leave all others alone.
  */
module ProcessTree {
  import opened Collections
  import opened Types
  import opened ChildList
  import opened NucleusState

  ghost predicate ListsOk(pool: set<Pcb>, kids: map<Pcb, seq<Pcb>>)
    reads pool`parent, pool`child, pool`leftSib, pool`rightSib
  {
    kids.Keys <= pool && forall p | p in kids :: Elements(kids[p]) <= pool && IsChildList(p, kids[p])
  }

  ghost predicate ParentsOk(pool: set<Pcb>, parent: map<Pcb, Pcb?>)
    reads pool`parent
  {
    parent.Keys <= pool && forall p | p in parent :: p.parent == parent[p]
  }

  /** All lists but that of prnt are in place. */
  ghost predicate OthersOk(pool: set<Pcb>, kids: map<Pcb, seq<Pcb>>, prnt: Pcb)
    reads pool`parent, pool`child, pool`leftSib, pool`rightSib
  {
    kids.Keys <= pool &&
    forall p | p in kids && p != prnt :: Elements(kids[p]) <= pool && IsChildList(p, kids[p])
  }

  lemma ListChanged(pool: set<Pcb>, kids: map<Pcb, seq<Pcb>>, prnt: Pcb, list: seq<Pcb>)
    requires OthersOk(pool, kids, prnt) && prnt in pool && Elements(list) <= pool && IsChildList(prnt, list)
    ensures ListsOk(pool, kids[prnt := list])
  {
    hide IsChildList;
  }

  /** No block is on two child lists, and a block without parent is on none. */
  lemma ListsApart(pool: set<Pcb>, kids: map<Pcb, seq<Pcb>>)
    requires ListsOk(pool, kids)
    ensures forall p, c | p in kids && c in kids[p] :: c.parent == p && c in pool
  {
    forall p, c | p in kids && c in kids[p] ensures c.parent == p && c in pool {
      assert c in Elements(kids[p]);
    }
  }

  /** insertChild(prnt, p) for a block p that is nobody's child */
  method Adopt(ghost pool: set<Pcb>, ghost fo: Forest, prnt: Pcb, p: Pcb)
    requires ListsOk(pool, fo.kids) && ParentsOk(pool, fo.parent) && prnt in fo.kids && p in pool && p.parent == null
    modifies pool`parent, pool`child, pool`leftSib, pool`rightSib
    ensures ListsOk(pool, fo.kids[prnt := [p] + fo.kids[prnt]]) && ParentsOk(pool, fo.parent[p := prnt])
  {
    hide IsChildList;
    ListsApart(pool, fo.kids);
    InsertChild(prnt, p, fo.kids[prnt]);
    forall q | q in fo.kids && q != prnt ensures IsChildList(q, fo.kids[q]) {
      assert forall c | c in fo.kids[q] ::
        c.parent == old(c.parent) && c.leftSib == old(c.leftSib) && c.rightSib == old(c.rightSib);
    }
    ListChanged(pool, fo.kids, prnt, [p] + fo.kids[prnt]);
  }

  /** removeChild(p) for the list of p, and that nothing happens to others */
  method CutHead(ghost pool: set<Pcb>, ghost kids: map<Pcb, seq<Pcb>>, p: Pcb) returns (child: Pcb)
    requires ListsOk(pool, kids) && p in kids && kids[p] != []
    modifies pool`parent, pool`child, pool`leftSib, pool`rightSib
    ensures child == kids[p][0] && child.parent == null
    ensures OthersOk(pool, kids, p) && IsChildList(p, kids[p][1..])
    ensures forall x | x in pool && x != child ::
      x.leftSib == old(x.leftSib) && x.rightSib == old(x.rightSib) && x.parent == old(x.parent)
    ensures forall x | x in pool && x != p :: x.child == old(x.child)
  {
    hide IsChildList;
    ListsApart(pool, kids);
    child := RemoveChild(p, kids[p]);
    forall q | q in kids && q != p ensures IsChildList(q, kids[q]) {
      assert forall c | c in kids[q] ::
        c.parent == old(c.parent) && c.leftSib == old(c.leftSib) && c.rightSib == old(c.rightSib);
    }
  }

  /** removeChild(p) */
  method TakeFirst(ghost pool: set<Pcb>, ghost fo: Forest, p: Pcb) returns (child: Pcb?)
    requires ListsOk(pool, fo.kids) && ParentsOk(pool, fo.parent) && p in fo.kids
    modifies pool`parent, pool`child, pool`leftSib, pool`rightSib
    ensures fo.kids[p] == [] ==> child == null && ListsOk(pool, fo.kids) && ParentsOk(pool, fo.parent)
    ensures fo.kids[p] != [] ==> child == fo.kids[p][0]
    ensures fo.kids[p] != [] ==> ListsOk(pool, DetachFirst(fo, p).kids) && ParentsOk(pool, DetachFirst(fo, p).parent)
    ensures forall x | x in pool && x != child :: x.leftSib == old(x.leftSib) && x.rightSib == old(x.rightSib)
    ensures forall x | x in pool && x != p :: x.child == old(x.child)
  {
    hide IsChildList;
    FirstOf(pool, fo.kids, p);
    if p.child == null {
      child := RemoveChild(p, []);
    } else {
      child := CutHead(pool, fo.kids, p);
      ListChanged(pool, fo.kids, p, fo.kids[p][1..]);
    }
  }

  lemma FirstOf(pool: set<Pcb>, kids: map<Pcb, seq<Pcb>>, p: Pcb)
    requires ListsOk(pool, kids) && p in kids
    ensures p.child == (if kids[p] == [] then null else kids[p][0])
    ensures kids[p] == [] ==> IsChildList(p, [])
    ensures kids[p] != [] ==> kids[p][0] in pool
  {
    assert kids[p] != [] ==> kids[p][0] in Elements(kids[p]);
  }

  /** The forest without the link between p and its parent. */
  ghost function Orphaned(fo: Forest, p: Pcb): Forest
    requires p in fo.parent && (fo.parent[p] != null ==> fo.parent[p] in fo.kids)
  {
    var prnt := fo.parent[p];
    if prnt == null then fo
    else fo.(kids := fo.kids[prnt := Minus<Pcb>(fo.kids[prnt], {p})], parent := fo.parent[p := null])
  }

  lemma SiblingsListed(prnt: Pcb, list: seq<Pcb>, p: Pcb)
    requires IsChildList(prnt, list) && p in list
    ensures p.parent == prnt && (Relinked(p) != null ==> Relinked(p) in list) && (Bereft(p) != null ==> Bereft(p) in list)
  {
  }

  /** outChild(p) for a block p on the list of prnt: what happens to that list, and that nothing happens to others. */
  method CutOut(ghost pool: set<Pcb>, ghost kids: map<Pcb, seq<Pcb>>, ghost prnt: Pcb, p: Pcb) returns (out: Pcb?)
    requires ListsOk(pool, kids) && prnt in kids && p in kids[prnt] && p in pool
    modifies pool`parent, pool`child, pool`leftSib, pool`rightSib
    ensures out == p && p.parent == null
    ensures OthersOk(pool, kids, prnt) && IsChildList(prnt, Minus<Pcb>(kids[prnt], {p}))
    ensures forall x | x in pool && x != p :: x.parent == old(x.parent)
    ensures forall x | x in pool && x != p ::
      x.leftSib == if x == old(Relinked(p)) then old(p.leftSib) else old(x.leftSib)
  {
    hide IsChildList, Relinked, Bereft;
    ListsApart(pool, kids);
    SiblingsListed(prnt, kids[prnt], p);
    out := OutChild(p, kids[prnt]);
    forall q | q in kids && q != prnt ensures IsChildList(q, kids[q]) {
      assert forall c | c in kids[q] ::
        c.parent == old(c.parent) && c.leftSib == old(c.leftSib) && c.rightSib == old(c.rightSib);
    }
  }

  lemma NobodyRelinked(p: Pcb)
    ensures p.parent == null ==> Relinked(p) == null && Bereft(p) == null
  {
  }

  /** outChild(p) */
  method Orphan(ghost pool: set<Pcb>, ghost fo: Forest, p: Pcb) returns (out: Pcb?)
    requires ListsOk(pool, fo.kids) && ParentsOk(pool, fo.parent) && p in fo.parent
    requires fo.parent[p] != null ==> fo.parent[p] in fo.kids && p in fo.kids[fo.parent[p]]
    modifies pool`parent, pool`child, pool`leftSib, pool`rightSib
    ensures ListsOk(pool, Orphaned(fo, p).kids)
    ensures ParentsOk(pool, Orphaned(fo, p).parent)
    ensures out == if fo.parent[p] == null then null else p
    ensures forall x | x in pool && x != p ::
      x.leftSib == if x == old(Relinked(p)) then old(p.leftSib) else old(x.leftSib)
  {
    hide IsChildList, Relinked, Bereft;
    ghost var prnt := p.parent;
    if p.parent == null {
      NobodyRelinked(p);
      assert Orphaned(fo, p) == fo;
      out := OutChild(p, []);
    } else {
      ghost var list := fo.kids[prnt];
      out := CutOut(pool, fo.kids, prnt, p);
      ListChanged(pool, fo.kids, prnt, Minus<Pcb>(list, {p}));
    }
  }
}
