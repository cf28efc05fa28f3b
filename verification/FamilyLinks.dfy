/**
  Where the links of the process tree lead. Parent, child and right-sibling links of live processes
  lead to live processes; so does the left-sibling link, except possibly that of a first child.
  */
module FamilyLinks {
  import opened Collections
  import opened Types
  import opened PcbPool
  import opened ChildList
  import opened ProcessTree
  import opened NucleusState
  import opened NucleusInvariants
  import opened NucleusKernel
  import opened SubtreeTermination
  import opened ProcessTermination

  /** x has a parent, whose first child is another process. */
  ghost predicate LaterChild(x: Pcb)
    reads x`parent, ParentCell(x)`child
  {
    x.parent != null && x.parent.child != x
  }

  lemma ListedLinks(prnt: Pcb, list: seq<Pcb>, i: nat)
    requires IsChildList(prnt, list) && i < |list|
    ensures prnt.child == list[0] && list[i].parent == prnt && (i == 0 <==> prnt.child == list[i])
    ensures list[i].rightSib == if i + 1 < |list| then list[i + 1] else null
    ensures i + 1 < |list| ==> list[i + 1] != list[i]
    ensures i > 0 ==> list[i].leftSib == list[i - 1] && list[i - 1] != list[i]
  {
  }

  lemma KidsLive(s: State, p: Pcb)
    requires Inv(s) && p in s.pl.live
    ensures p in s.fo.parent && p in s.fo.kids && forall c | c in s.fo.kids[p] :: c in s.pl.live
    ensures s.fo.parent[p] != null ==>
      s.fo.parent[p] in s.pl.live && s.fo.parent[p] in s.fo.kids && p in s.fo.kids[s.fo.parent[p]]
  {
    hide Located, Queued, CurrentOk, Rooted, Words, KidsDistinct;
  }

  lemma ListOf(k: Kernel, p: Pcb)
    requires k.Rep() && p in k.st.fo.kids
    ensures IsChildList(p, k.st.fo.kids[p])
  {
    hide Kernel.Rep, IsChildList, ParentsOk;
    k.TreeIs();
  }

  /** The links of a live process lead to live processes, but for the left link of a first child. */
  lemma TreeLinks(k: Kernel, p: Pcb)
    requires k.Rep() && Inv(k.st) && p in k.st.pl.live
    ensures p.parent == null || p.parent in k.st.pl.live
    ensures p.child == null || p.child in k.st.pl.live
    ensures p.parent != null ==> p.rightSib == null || p.rightSib in k.st.pl.live
    ensures LaterChild(p) ==> p.leftSib in k.st.pl.live
  {
    hide Inv, Kernel.Rep, IsChildList;
    KidsLive(k.st, p);
    k.ParentIs(p);
    ListOf(k, p);
    if k.st.fo.kids[p] != [] {
      ListedLinks(p, k.st.fo.kids[p], 0);
    } else {
      NoFirst(p);
    }
    if p.parent != null {
      var list := k.st.fo.kids[p.parent];
      var i :| 0 <= i < |list| && list[i] == p;
      KidsLive(k.st, p.parent);
      ListOf(k, p.parent);
      ListedLinks(p.parent, list, i);
    }
  }

  lemma NoFirst(p: Pcb)
    ensures IsChildList(p, []) ==> p.child == null
  {
  }

  /** The left link of a later child names the child before it, and that one names it. */
  lemma Neighbours(k: Kernel, x: Pcb)
    requires k.Rep() && Inv(k.st) && x in k.st.pl.live && LaterChild(x)
    ensures var y := x.leftSib;
      y != null && y in k.st.pl.live && y != x && y.parent == x.parent && y.rightSib == x
    ensures var y := x.leftSib; y in k.st.fo.parent && x in k.st.fo.parent && k.st.fo.parent[y] == k.st.fo.parent[x] == x.parent
  {
    hide Inv, Kernel.Rep, IsChildList;
    KidsLive(k.st, x);
    k.ParentIs(x);
    var list := k.st.fo.kids[x.parent];
    var i :| 0 <= i < |list| && list[i] == x;
    KidsLive(k.st, x.parent);
    ListOf(k, x.parent);
    ListedLinks(x.parent, list, i);
    ListedLinks(x.parent, list, i - 1);
    assert list[i - 1] in list;
    KidsLive(k.st, x.leftSib);
    k.ParentIs(x.leftSib);
    TreeLinks(k, x);
  }

  /** A right sibling is a later child, and names the process it is right of. */
  lemma RightNeighbour(k: Kernel, p: Pcb)
    requires k.Rep() && Inv(k.st) && p in k.st.pl.live && p.parent != null && p.rightSib != null
    ensures var d := p.rightSib;
      d in k.st.pl.live && d != p && d.parent == p.parent && LaterChild(d) && d.leftSib == p
  {
    hide Inv, Kernel.Rep, IsChildList;
    KidsLive(k.st, p);
    k.ParentIs(p);
    var list := k.st.fo.kids[p.parent];
    var i :| 0 <= i < |list| && list[i] == p;
    KidsLive(k.st, p.parent);
    ListOf(k, p.parent);
    ListedLinks(p.parent, list, i);
    assert list[i + 1] in list;
    ListedLinks(p.parent, list, i + 1);
  }

  // ---------------------------------------------------------------- a process ends

  /** A sibling of a survivor survives, unless it is the root of the subtree that ends. */
  lemma SiblingSurvives(fo: Forest, p: Pcb, x: Pcb, y: Pcb)
    requires Rooted(fo) && x in fo.parent && y in fo.parent && fo.parent[x] != null && fo.parent[x] == fo.parent[y]
    requires x !in Subtree(fo, p) && y in Subtree(fo, p)
    ensures y == p
  {
  }

  lemma BereftSurvives(k: Kernel, p: Pcb)
    requires k.Rep() && Inv(k.st) && Rooted(k.st.fo) && p in k.st.pl.live && Bereft(p) != null
    ensures var d := Bereft(p); d in k.st.pl.live && LaterChild(d) && d !in Subtree(k.st.fo, p) && d.leftSib == p
  {
    hide Inv, Kernel.Rep;
    KidsLive(k.st, p);
    k.ParentIs(p);
    RightNeighbour(k, p);
    var d := p.rightSib;
    KidsLive(k.st, d);
    k.ParentIs(d);
    if d in Subtree(k.st.fo, p) {
      DescendsYounger(k.st.fo, p.parent, p);
    }
  }

  /** What the left link of a later child x says before p ends: it names a survivor, or x is the right sibling of p. */
  lemma BeforeTheEnd(k: Kernel, p: Pcb, x: Pcb)
    requires k.Rep() && Inv(k.st) && Rooted(k.st.fo) && p in k.st.pl.live
    requires x in k.st.pl.live && x !in Subtree(k.st.fo, p) && LaterChild(x)
    ensures x == Bereft(p) ==> x.leftSib == p && x != Relinked(p)
    ensures x == Relinked(p) ==> p.leftSib != null && p.leftSib in k.st.pl.live && p.leftSib !in Subtree(k.st.fo, p)
    ensures x != Bereft(p) && x != Relinked(p) ==>
      x.leftSib != null && x.leftSib in k.st.pl.live && x.leftSib !in Subtree(k.st.fo, p)
    ensures x == Bereft(p) ==> p in Subtree(k.st.fo, p)
  {
    hide Inv, Kernel.Rep, Subtree, Rooted;
    Neighbours(k, x);
    KidsLive(k.st, p);
    RootInSubtree(k.st.fo, p);
    if p.parent != null && p.rightSib != null {
      RightNeighbour(k, p);
    }
    if x.leftSib in Subtree(k.st.fo, p) {
      SiblingSurvives(k.st.fo, p, x, x.leftSib);
    }
    if x == Relinked(p) {
      Neighbours(k, p);
      if p.leftSib in Subtree(k.st.fo, p) {
        SiblingSurvives(k.st.fo, p, x, p.leftSib);
      }
    }
  }

  /**
    The end of the current process p with all its descendants, and what it means for the left links of later
    children that survive: one comes to name a block that is free if and only if p was a first child with a
    right sibling, and then it is the link of that sibling, and it names p.
    */
  method EndCurrent(k: Kernel)
    requires k.Rep() && Inv(k.st) && k.st.pl.current != null && Rooted(k.st.fo) && Endable(k.st, k.st.pl.current)
    requires k.st.pl.waitsOn.Keys == k.st.pl.live
    modifies k`st, k`readyQueue, k`memory, k`softBlockedCount, k`processCount
    modifies k.pcbs, k.asl, k.asl.table, k.cfg.pool
    ensures var p, dead := old(k.st).pl.current, Subtree(old(k.st).fo, old(k.st).pl.current);
      && k.Rep() && k.st == Kill(old(k.st), dead)
      && (forall x | x in k.st.pl.live && old(LaterChild(x)) ::
            x.leftSib !in k.st.pl.live <==> x == old(Bereft(p)))
      && (old(Bereft(p)) != null ==> old(Bereft(p)) in k.st.pl.live && old(Bereft(p)).leftSib == p && p in k.pcbs.free)
  {
    hide Inv, Kernel.Rep, Subtree, Rooted, LaterChild, Bereft, Relinked, Kill;
    k.Known();
    var p := k.currentProcess;
    ghost var s, dead := k.st, Subtree(k.st.fo, k.st.pl.current);
    forall x | x in s.pl.live && x !in dead && LaterChild(x)
      ensures x == Bereft(p) ==> x.leftSib == p && x != Relinked(p) && p in dead
      ensures x == Relinked(p) ==> p.leftSib != null && p.leftSib in s.pl.live && p.leftSib !in dead
      ensures x != Bereft(p) && x != Relinked(p) ==> x.leftSib != null && x.leftSib in s.pl.live && x.leftSib !in dead
    {
      BeforeTheEnd(k, p, x);
    }
    if Bereft(p) != null {
      BereftSurvives(k, p);
    }
    k.LiveInPool();
    TerminateProcess(k, p);
    KillFacts(s, dead);
    RootInSubtree(s.fo, p);
    k.PlacesAre();
  }

  method ThreeBlocks() returns (pool: FreePcbs, first: Pcb, second: Pcb, third: Pcb)
    ensures fresh(pool) && fresh({first, second, third}) && pool.Valid() && pool.free == []
    ensures first != second && first != third && second != third && first.child == null
  {
    pool := new FreePcbs(3);
    ghost var table := pool.free;
    assert table[0] in table && table[1] in table && table[2] in table;
    first := pool.AllocPcb();
    assert pool.free == [table[1], table[2]];
    second := pool.AllocPcb();
    assert pool.free == [table[2]];
    third := pool.AllocPcb();
  }

  /** The case at its smallest: of two children the first ends, and the other goes on naming its block, which is free. */
  method FirstChildEnds() returns (pool: FreePcbs, prnt: Pcb, c: Pcb, d: Pcb)
    ensures pool.Valid() && c in pool.free && d !in pool.free && prnt !in pool.free
    ensures prnt.child == d && d.parent == prnt && d.leftSib == c
  {
    hide IsChildList, Bereft, Relinked;
    pool, prnt, d, c := ThreeBlocks();
    NewParent(prnt);
    InsertChild(prnt, d, []);
    assert [d] + [] == [d];
    InsertChild(prnt, c, [d]);
    assert [c] + [d] == [c, d];
    RightOfFirst(prnt, c, d);
    var out := OutChild(c, [c, d]);
    OnlyLeft(prnt, c, d);
    pool.FreePcb(c);
  }

  lemma NewParent(p: Pcb)
    ensures p.child == null ==> IsChildList(p, [])
  {
  }

  lemma RightOfFirst(prnt: Pcb, c: Pcb, d: Pcb)
    requires IsChildList(prnt, [c, d])
    ensures c.parent == prnt && Bereft(c) == d
  {
    ListedLinks(prnt, [c, d], 0);
  }

  lemma OnlyLeft(prnt: Pcb, c: Pcb, d: Pcb)
    requires IsChildList(prnt, Minus<Pcb>([c, d], {c})) && c != d
    ensures prnt.child == d && d.parent == prnt
  {
    assert [c, d][1..] == [d];
    MinusUntouched([d], {c});
    ListedLinks(prnt, [d], 0);
  }
}
