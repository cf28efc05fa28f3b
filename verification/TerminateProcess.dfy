/** terminateProcess: the loop over the children, the recursion, and the removal of the process itself. */
module ProcessTermination {
  import opened Collections
  import opened Types
  import opened NucleusState
  import opened NucleusInvariants
  import opened NucleusKernel
  import opened ChildList
  import opened ProcessTree
  import opened SubtreeTermination
  import opened LeafRemoval

  /** The process to end is the running one, or a detached one that is no ancestor of it. */
  ghost predicate Endable(s: State, p: Pcb)
    requires Rooted(s.fo)
  {
    && p in s.pl.live && p in s.fo.parent
    && (p != s.pl.current ==> s.fo.parent[p] == null && (s.pl.current != null ==> s.pl.current !in Subtree(s.fo, p)))
  }

  /** Measure of the recursion: children are younger than their parents. */
  ghost function Age(fo: Forest, p: Pcb): nat {
    if p in fo.birth && fo.birth[p] < fo.stamp then fo.stamp - fo.birth[p] else 0
  }

  lemma InvRooted(s: State)
    requires Inv(s)
    ensures Rooted(s.fo) && Kinship(s.fo) && Located(s.pl) && InvButCurrent(s) && CurrentOk(s.pl)
    ensures s.pl.waitsOn.Keys == s.pl.live && s.fo.parent.Keys == s.pl.live && s.fo.kids.Keys == s.pl.live
    ensures s.pl.live <= s.cfg.pool
  {
    hide Queued, Words, Distinct;
    InvDomain(s);
    DomainsFacts(s);
  }

  lemma CurrentKept(pl: Places, dead: set<Pcb>)
    requires CurrentOk(pl) && (pl.current != null ==> pl.current !in dead)
    ensures CurrentOk(KillPlaces(pl, dead))
  {
  }

  /** After some branches below p are dead, the invariant still holds. */
  lemma KilledInv(s: State, p: Pcb, dead: set<Pcb>)
    requires Inv(s) && Rooted(s.fo) && Endable(s, p) && Partial(s.fo, p, dead)
    ensures s.pl.waitsOn.Keys == s.pl.live && Inv(Kill(s, dead))
  {
    hide Located, Queued, Rooted, Kinship, Words, Distinct, Closed, CurrentOk, Kill, Subtree;
    InvRooted(s);
    SubtreeLive(s.fo, p);
    KillInv(s, dead);
    CurrentKept(s.pl, dead);
    assert Kill(s, dead).pl == KillPlaces(s.pl, dead) by { KillFields(s, dead); }
  }

  lemma DetachInv(s: State, p: Pcb)
    requires Inv(s) && p in s.fo.kids && s.fo.kids[p] != []
    ensures Inv(s.(fo := DetachFirst(s.fo, p)))
  {
    hide Located, Queued, CurrentOk, Rooted, Kinship, Words, Domains;
    DetachRooted(s.fo, p);
    DetachKinship(s.fo, p);
    assert s.fo.kids[p][0] in s.fo.parent by { FirstChild(s.fo, p); }
    DetachDomains(s, p);
    assert Words(s.(fo := DetachFirst(s.fo, p))) by { WordsKept(s, DetachFirst(s.fo, p)); }
  }

  lemma DetachDomains(s: State, p: Pcb)
    requires Domains(s) && p in s.fo.kids && s.fo.kids[p] != [] && s.fo.kids[p][0] in s.fo.parent
    ensures Domains(s.(fo := DetachFirst(s.fo, p)))
  {
  }

  lemma WordsKept(s: State, fo: Forest)
    requires Words(s)
    ensures Words(s.(fo := fo))
  {
  }

  /** Killing does not change what the other children of p are; killing the detached branch too is killing both at once. */
  lemma BranchKilled(s: State, p: Pcb, dead: set<Pcb>, branch: set<Pcb>)
    requires Located(s.pl) && s.pl.waitsOn.Keys == s.pl.live && dead !! branch
    requires var fo1 := KillForest(s.fo, dead);
      p in fo1.kids && fo1.kids[p] != [] && fo1.kids[p][0] in branch && fo1.kids[p][0] in fo1.parent
    ensures var s1 := Kill(s, dead);
      var s2 := s1.(fo := DetachFirst(s1.fo, p));
      s2.pl.waitsOn.Keys == s2.pl.live && Kill(s2, branch) == Kill(s, dead + branch)
  {
    hide Located, KillPlaces, KillForest, KillCounts;
    KillTwice(s, dead, branch);
    KillDetached(KillForest(s.fo, dead), p, branch);
    var s1 := Kill(s, dead);
    KillForestOnly(s1, DetachFirst(s1.fo, p), branch);
  }

  lemma KillForestOnly(s: State, fo: Forest, dead: set<Pcb>)
    requires s.pl.waitsOn.Keys == s.pl.live
    ensures Kill(s.(fo := fo), dead) == Kill(s, dead).(fo := KillForest(fo, dead))
  {
  }

  /** The state in which the first child of p that is left is ended. */
  ghost function NextState(s: State, p: Pcb): State
    requires p in s.fo.kids && s.fo.kids[p] != []
  {
    s.(fo := DetachFirst(s.fo, p))
  }

  /** One round of the loop: its recursive call is allowed, and kills one more branch. */
  lemma Round(s: State, p: Pcb, dead: set<Pcb>) returns (more: set<Pcb>)
    requires Inv(s) && Rooted(s.fo) && Endable(s, p) && Partial(s.fo, p, dead) && s.pl.waitsOn.Keys == s.pl.live
    requires p in Kill(s, dead).fo.kids && Kill(s, dead).fo.kids[p] != []
    ensures var s1, c := NextState(Kill(s, dead), p), Kill(s, dead).fo.kids[p][0];
      && Inv(s1) && Rooted(s1.fo) && Endable(s1, c) && Age(s1.fo, c) < Age(s.fo, p) && s1.pl.waitsOn.Keys == s1.pl.live
      && Partial(s.fo, p, more) && Kill(s1, Subtree(s1.fo, c)) == Kill(s, more)
      && more == dead + Subtree(s1.fo, c) && c in more && c != s1.pl.current
      && Kill(s, more).pl.live < Kill(s, dead).pl.live
  {
    hide Located, Queued, Rooted, Kinship, Words, CurrentOk, Inv, Closed, Descends, PruneKids;
    InvRooted(s);
    KilledInv(s, p, dead);
    var s1 := NextState(Kill(s, dead), p);
    var c := Kill(s, dead).fo.kids[p][0];
    DetachInv(Kill(s, dead), p);
    NextBranch(s.fo, p, dead);
    more := dead + Subtree(s1.fo, c);
    BranchKilled(s, p, dead, Subtree(s1.fo, c));
    InvRooted(s1);
    assert Age(s1.fo, c) < Age(s.fo, p) by { Younger(s.fo, p, s1.fo, c); }
    assert c in Kill(s, dead).pl.live && c in more;
  }

  lemma Younger(fo: Forest, p: Pcb, fo1: Forest, c: Pcb)
    requires Rooted(fo) && Rooted(fo1) && p in fo.parent && c in fo1.parent
    requires fo1.stamp == fo.stamp && fo1.birth[c] > fo.birth[p]
    ensures Age(fo1, c) < Age(fo, p)
  {
  }

  lemma LoopDone(s: State, p: Pcb, dead: set<Pcb>)
    requires Inv(s) && Rooted(s.fo) && Endable(s, p) && Partial(s.fo, p, dead) && s.pl.waitsOn.Keys == s.pl.live
    requires p in Kill(s, dead).fo.kids && Kill(s, dead).fo.kids[p] == []
    ensures var s1 := Kill(s, dead);
      && s1.pl.waitsOn.Keys == s1.pl.live && Kill(s1, {p}) == Kill(s, Subtree(s.fo, p))
      && dead + {p} == Subtree(s.fo, p)
  {
    hide Queued, Rooted, Kinship, Words, CurrentOk, Located, Closed, Descends, Inv, Kill;
    InvRooted(s);
    KilledInv(s, p, dead);
    KillForestIs(s, dead);
    AllBranches(s.fo, p, dead);
    KillTwice(s, dead, {p});
  }

  lemma KillForestIs(s: State, dead: set<Pcb>)
    requires s.pl.waitsOn.Keys == s.pl.live
    ensures Kill(s, dead).fo == KillForest(s.fo, dead)
  {
  }

  lemma Start(s: State, p: Pcb)
    requires Inv(s) && Rooted(s.fo) && Endable(s, p)
    ensures Partial(s.fo, p, {}) && s.pl.waitsOn.Keys == s.pl.live && Kill(s, {}) == s
    ensures p in s.fo.kids && p in s.fo.parent
  {
    hide Located, Distinct, Rooted, Kinship, Words, CurrentOk, Kill, Subtree;
    InvRooted(s);
    NobodyKilled(s);
  }

  lemma NobodyLeaves(pl: Places)
    requires forall a | a in pl.blocked :: pl.blocked[a] != []
    ensures KillPlaces(pl, {}) == pl
  {
    hide Minus;
    MinusUntouched(pl.ready, {});
    forall a | a in pl.blocked ensures Minus(pl.blocked[a], {}) == pl.blocked[a] {
      MinusUntouched(pl.blocked[a], {});
    }
    assert PruneQueues(pl.blocked, {}) == pl.blocked;
    assert pl.waitsOn - {} == pl.waitsOn;
  }

  lemma NobodyOrphaned(fo: Forest)
    ensures KillForest(fo, {}) == fo
  {
    hide Minus;
    forall p | p in fo.kids ensures Minus(fo.kids[p], {}) == fo.kids[p] {
      MinusUntouched(fo.kids[p], {});
    }
    assert PruneKids(fo.kids, {}) == fo.kids;
    assert fo.parent - {} == fo.parent && fo.birth - {} == fo.birth;
  }

  lemma NobodyCounted(s: State)
    requires s.pl.waitsOn.Keys == s.pl.live
    ensures KillCounts(s, {}) == s.ct
  {
    hide Waiters, SoftBlocked;
    assert KillCounts(s, {}).user == s.ct.user;
  }

  lemma NobodyKilled(s: State)
    requires s.pl.waitsOn.Keys == s.pl.live
    requires forall a | a in s.pl.blocked :: s.pl.blocked[a] != []
    ensures Kill(s, {}) == s
  {
    hide KillPlaces, KillForest, KillCounts;
    NobodyLeaves(s.pl);
    NobodyOrphaned(s.fo);
    NobodyCounted(s);
    assert s.cpu.regs - {} == s.cpu.regs && s.cpu.time - {} == s.cpu.time && s.cpu.support - {} == s.cpu.support;
  }

  // ---------------------------------------------------------------- the links of bystanders

  datatype Links = Links(left: Pcb?, right: Pcb?, first: Pcb?)

  ghost function LinksOf(pool: set<Pcb>): map<Pcb, Links>
    reads pool
  {
    map x | x in pool :: Links(x.leftSib, x.rightSib, x.child)
  }

  /** The block that gets a new left link when p ends: nobody, unless p is running. */
  ghost function Heir(k: Kernel, p: Pcb): Pcb?
    reads k`currentProcess, p`parent, p`rightSib, ParentCell(p)`child
  {
    if p == k.currentProcess then Relinked(p) else null
  }

  /** Outside of gone, only the first-child link of p may have changed. */
  ghost predicate Spared(m0: map<Pcb, Links>, m1: map<Pcb, Links>, gone: set<Pcb>, p: Pcb) {
    m1.Keys == m0.Keys &&
    forall x | x in m0 && x !in gone ::
      m1[x].left == m0[x].left && m1[x].right == m0[x].right && (x != p ==> m1[x].first == m0[x].first)
  }

  /** Outside of gone, the left link of d has become left, and no other has changed. */
  ghost predicate LeftMoved(m0: map<Pcb, Links>, m1: map<Pcb, Links>, gone: set<Pcb>, d: Pcb?, left: Pcb?) {
    m1.Keys == m0.Keys &&
    forall x | x in m0 && x !in gone :: m1[x].left == if x == d then left else m0[x].left
  }

  /** Heir, from the links alone. */
  ghost function HeirIn(m: map<Pcb, Links>, p: Pcb, prnt: Pcb?, running: bool): Pcb?
    requires p in m && (prnt != null ==> prnt in m)
  {
    if running && prnt != null && m[prnt].first != p then m[p].right else null
  }

  lemma HeirIs(k: Kernel, p: Pcb)
    requires p in k.cfg.pool && (p.parent != null ==> p.parent in k.cfg.pool)
    ensures var m := LinksOf(k.cfg.pool);
      m.Keys == k.cfg.pool && Heir(k, p) == HeirIn(m, p, p.parent, p == k.currentProcess) && p.leftSib == m[p].left
  {
  }

  lemma HeirKept(m0: map<Pcb, Links>, m1: map<Pcb, Links>, dead: set<Pcb>, p: Pcb, prnt: Pcb?, running: bool)
    requires Spared(m0, m1, dead, p) && p in m0 && p !in dead
    requires prnt != null ==> prnt in m0 && prnt !in dead && prnt != p
    ensures HeirIn(m1, p, prnt, running) == HeirIn(m0, p, prnt, running) && m1[p].left == m0[p].left
  {
  }

  lemma ParentInPool(s: State, p: Pcb)
    requires Inv(s) && Rooted(s.fo) && Endable(s, p)
    ensures p in s.cfg.pool && p in s.fo.parent && (s.fo.parent[p] != null ==> s.fo.parent[p] in s.cfg.pool)
  {
    hide Located, Queued, Kinship, Words, CurrentOk;
    InvRooted(s);
  }

  lemma SparedNone(m: map<Pcb, Links>, p: Pcb)
    ensures Spared(m, m, {}, p)
  {
  }

  lemma SparedTwice(m0: map<Pcb, Links>, m1: map<Pcb, Links>, m2: map<Pcb, Links>, d: set<Pcb>, e: set<Pcb>, p: Pcb)
    requires Spared(m0, m1, d, p) && Spared(m1, m2, e, p) && d <= e
    ensures Spared(m0, m2, e, p)
  {
  }

  /** First the descendants d of p end, then p. */
  lemma MovedAfter(m0: map<Pcb, Links>, m1: map<Pcb, Links>, m2: map<Pcb, Links>, d: set<Pcb>, p: Pcb, h: Pcb?, left: Pcb?)
    requires Spared(m0, m1, d, p)
    ensures LeftMoved(m1, m2, {p}, h, left) ==> LeftMoved(m0, m2, d + {p}, h, left)
    ensures Spared(m1, m2, {p}, p) ==> Spared(m0, m2, d + {p}, p)
  {
  }

  /** p is taken out of the place where it is. */
  method TakeOut(k: Kernel, p: Pcb)
    requires k.Rep() && Inv(k.st) && p in k.st.pl.live
    modifies k`st, k`readyQueue, k`memory, k`softBlockedCount, k.asl, k.asl.table, k.cfg.pool
    ensures k.Rep() && p in old(k.st).fo.parent && p in old(k.st).pl.waitsOn
    ensures old(k.st).fo.parent[p] != null ==> old(k.st).fo.parent[p] in old(k.st).fo.kids
    ensures old(k.st).pl.waitsOn[p] != None ==> old(k.st).pl.waitsOn[p].value in old(k.st).pl.blocked
    ensures k.st == TakenOut(old(k.st), p)
    ensures forall x | x in k.cfg.pool && x != p :: x.leftSib == if x == old(Heir(k, p)) then old(p.leftSib) else old(x.leftSib)
    ensures p != old(k.currentProcess) ==> (
      forall x | x in k.cfg.pool :: x.rightSib == old(x.rightSib) && x.child == old(x.child))
  {
    hide Kernel.Rep, Inv, Leave, Orphaned;
    LeafFacts(k.st, p);
    k.Known();
    var a := k.SemaphoreOf(p);
    if p == k.currentProcess {
      var out := k.OutChild(p);
    } else if a != None {
      var out := k.OutBlocked(p);
      k.Known();
      if !(DevAddr(k.devBase, 0) <= a.value && a.value <= DevAddr(k.devBase, CLOCK_INDEX)) {
        k.SetMemory(a.value, k.memory[a.value] + 1);
      } else {
        k.AddSoftBlocked(-1);
      }
    } else {
      var out := k.ReadyOut(p);
    }
  }

  lemma TakenOutNowhere(s: State, p: Pcb)
    requires Inv(s) && p in s.pl.live && p in s.fo.parent && p in s.pl.waitsOn
    requires s.fo.parent[p] != null ==> s.fo.parent[p] in s.fo.kids
    requires s.pl.waitsOn[p] != None ==> s.pl.waitsOn[p].value in s.pl.blocked
    ensures Nowhere(TakenOut(s, p).pl, p) && p in TakenOut(s, p).pl.live
  {
    hide Located, Rooted, Kinship, Words, Queued, Orphaned, Minus, Domains;
    OnlyThere(s.pl, p);
  }

  lemma OnlyThere(pl: Places, p: Pcb)
    requires Located(pl) && p in pl.live
    ensures p in pl.waitsOn && (p in pl.ready ==> pl.waitsOn[p] == None && p != pl.current)
    ensures forall a | a in pl.blocked && p in pl.blocked[a] :: pl.waitsOn[p] == Some(a)
  {
    hide ReadyComplete, BlockedComplete;
  }

  /** Everything terminateProcess does after its loop. */
  method RemoveProcess(k: Kernel, p: Pcb)
    requires k.Rep() && Inv(k.st) && Rooted(k.st.fo) && Endable(k.st, p) && k.st.pl.waitsOn.Keys == k.st.pl.live
    modifies k`st, k`readyQueue, k`memory, k`softBlockedCount, k`processCount
    modifies k.pcbs, k.asl, k.asl.table, k.cfg.pool
    ensures k.Rep() && k.st == Kill(old(k.st), {p})
    ensures forall x | x in k.cfg.pool && x != p :: x.leftSib == if x == old(Heir(k, p)) then old(p.leftSib) else old(x.leftSib)
    ensures p != old(k.currentProcess) ==> (
      forall x | x in k.cfg.pool :: x.rightSib == old(x.rightSib) && x.child == old(x.child))
  {
    hide Kernel.Rep, Inv, TakenOut, Nowhere, Kill, Rooted, Departed;
    LeafFacts(k.st, p);
    RemovedIsKill(k.st, p);
    TakenOutNowhere(k.st, p);
    TakeOut(k, p);
    k.HeadInPool();
    k.LiveInPool();
    k.FreePcb(p);
    k.AddProcesses(-1);
  }

  /** The end of p when all its descendants, dead, are gone. */
  method EndItself(k: Kernel, p: Pcb, ghost s: State, ghost dead: set<Pcb>)
    requires Inv(s) && Rooted(s.fo) && Endable(s, p) && Partial(s.fo, p, dead) && s.pl.waitsOn.Keys == s.pl.live
    requires k.Rep() && k.st == Kill(s, dead) && p in k.st.fo.kids && k.st.fo.kids[p] == []
    modifies k`st, k`readyQueue, k`memory, k`softBlockedCount, k`processCount
    modifies k.pcbs, k.asl, k.asl.table, k.cfg.pool
    ensures k.Rep() && k.st == Kill(s, Subtree(s.fo, p)) && dead + {p} == Subtree(s.fo, p)
    ensures LeftMoved(old(LinksOf(k.cfg.pool)), LinksOf(k.cfg.pool), {p}, old(Heir(k, p)), old(p.leftSib))
    ensures p != old(k.currentProcess) ==> Spared(old(LinksOf(k.cfg.pool)), LinksOf(k.cfg.pool), {p}, p)
  {
    hide Kernel.Rep, Inv, Kill, Rooted, Subtree, Endable, Partial, Relinked;
    LoopDone(s, p, dead);
    LoopEnd(s, p, dead);
    RemoveProcess(k, p);
  }

  /** One round of the loop: the first child left of p is detached and ended, with all below it. */
  method EndFirstChild(k: Kernel, p: Pcb, ghost s: State, ghost dead: set<Pcb>) returns (ghost more: set<Pcb>)
    requires Inv(s) && Rooted(s.fo) && Endable(s, p) && Partial(s.fo, p, dead) && s.pl.waitsOn.Keys == s.pl.live
    requires k.Rep() && k.st == Kill(s, dead) && p in k.st.fo.kids && k.st.fo.kids[p] != []
    modifies k`st, k`readyQueue, k`memory, k`softBlockedCount, k`processCount
    modifies k.pcbs, k.asl, k.asl.table, k.cfg.pool
    ensures k.Rep() && k.st == Kill(s, more) && Partial(s.fo, p, more) && dead <= more
    ensures k.st.pl.live < old(k.st).pl.live && k.currentProcess == old(k.currentProcess)
    ensures Spared(old(LinksOf(k.cfg.pool)), LinksOf(k.cfg.pool), more, p)
    decreases Age(s.fo, p), 0
  {
    hide Kernel.Rep, Inv, Kill, Rooted, Subtree, Endable, Partial, Age, DetachFirst, Relinked;
    more := Round(s, p, dead);
    k.Known();
    var child := k.RemoveChild(p);
    TerminateProcess(k, child);
    k.Known();
  }

  /** The loop over the children. Outside of what dies, only the child link of p changes. */
  method EndChildren(k: Kernel, p: Pcb) returns (ghost dead: set<Pcb>)
    requires k.Rep() && Inv(k.st) && Rooted(k.st.fo) && Endable(k.st, p) && k.st.pl.waitsOn.Keys == k.st.pl.live
    modifies k`st, k`readyQueue, k`memory, k`softBlockedCount, k`processCount
    modifies k.pcbs, k.asl, k.asl.table, k.cfg.pool
    ensures k.Rep() && k.st == Kill(old(k.st), dead) && Partial(old(k.st).fo, p, dead)
    ensures p in k.st.fo.kids && k.st.fo.kids[p] == [] && k.currentProcess == old(k.currentProcess)
    ensures Spared(old(LinksOf(k.cfg.pool)), LinksOf(k.cfg.pool), dead, p)
    decreases Age(k.st.fo, p), 1
  {
    hide *;
    ghost var s := k.st;
    dead := {};
    SparedNone(LinksOf(k.cfg.pool), p);
    Start(s, p);
    var empty := k.EmptyChild(p);
    while !empty
      invariant k.Rep() && k.st == Kill(s, dead) && Partial(s.fo, p, dead)
      invariant p in k.st.fo.kids && (empty <==> k.st.fo.kids[p] == [])
      invariant k.currentProcess == old(k.currentProcess)
      invariant Spared(old(LinksOf(k.cfg.pool)), LinksOf(k.cfg.pool), dead, p)
      decreases |k.st.pl.live|
    {
      ghost var live, was := k.st.pl.live, LinksOf(k.cfg.pool);
      ghost var more := EndFirstChild(k, p, s, dead);
      SparedTwice(old(LinksOf(k.cfg.pool)), was, LinksOf(k.cfg.pool), dead, more, p);
      dead := more;
      SubsetSize(k.st.pl.live, live);
      PartialKeeps(s, p, dead);
      empty := k.EmptyChild(p);
    }
  }

  /**
    SYS2 for p and all its descendants. The pointer to the current process is left alone. Of the left
    links of the others, only that of a right sibling of p changes, and only if p is not a first child.
    */
  method TerminateProcess(k: Kernel, p: Pcb)
    requires k.Rep() && Inv(k.st) && Rooted(k.st.fo) && Endable(k.st, p) && k.st.pl.waitsOn.Keys == k.st.pl.live
    modifies k`st, k`readyQueue, k`memory, k`softBlockedCount, k`processCount
    modifies k.pcbs, k.asl, k.asl.table, k.cfg.pool
    ensures k.Rep() && k.st == Kill(old(k.st), Subtree(old(k.st).fo, p))
    ensures var dead := Subtree(old(k.st).fo, p);
      && LeftMoved(old(LinksOf(k.cfg.pool)), LinksOf(k.cfg.pool), dead, old(Heir(k, p)), old(p.leftSib))
      && (p != old(k.currentProcess) ==> Spared(old(LinksOf(k.cfg.pool)), LinksOf(k.cfg.pool), dead, p))
    decreases Age(k.st.fo, p), 2
  {
    hide Kernel.Rep, Inv, Kill, Rooted, Subtree, Endable, Partial, Age, DetachFirst, Spared, LeftMoved, LinksOf;
    ghost var s, was := k.st, LinksOf(k.cfg.pool);
    Start(s, p);
    k.ParentIs(p);
    k.Known();
    ParentInPool(s, p);
    HeirIs(k, p);
    ghost var dead := EndChildren(k, p);
    ParentKept(s, p, dead);
    k.ParentIs(p);
    HeirIs(k, p);
    HeirKept(was, LinksOf(k.cfg.pool), dead, p, p.parent, p == k.currentProcess);
    ghost var between := LinksOf(k.cfg.pool);
    ghost var heir, left := Heir(k, p), p.leftSib;
    EndItself(k, p, s, dead);
    MovedAfter(was, between, LinksOf(k.cfg.pool), dead, p, heir, left);
  }

  /** The parent of p is neither p nor among the dead below p. */
  lemma ParentKept(s: State, p: Pcb, dead: set<Pcb>)
    requires Inv(s) && Rooted(s.fo) && Endable(s, p) && Partial(s.fo, p, dead) && s.pl.waitsOn.Keys == s.pl.live
    ensures var fo := Kill(s, dead).fo;
      && p !in dead && p in fo.parent && p in s.fo.parent && fo.parent[p] == s.fo.parent[p]
      && (fo.parent[p] != null ==> fo.parent[p] != p && fo.parent[p] !in dead && fo.parent[p] in s.cfg.pool)
      && p in s.cfg.pool
  {
    hide Located, Queued, Kinship, Words, CurrentOk, Closed, Kill, Descends;
    InvRooted(s);
    KillForestIs(s, dead);
    if s.fo.parent[p] != null && s.fo.parent[p] in dead {
      DescendsYounger(s.fo, s.fo.parent[p], p);
    }
  }

  /** p itself is not among the dead while the loop is running. */
  lemma PartialKeeps(s: State, p: Pcb, dead: set<Pcb>)
    requires Inv(s) && Rooted(s.fo) && Endable(s, p) && Partial(s.fo, p, dead) && s.pl.waitsOn.Keys == s.pl.live
    ensures p in Kill(s, dead).fo.kids
  {
    hide Located, Queued, Rooted, Kinship, Words, CurrentOk, Subtree;
    InvRooted(s);
    KillForestIs(s, dead);
  }

  lemma LoopEnd(s: State, p: Pcb, dead: set<Pcb>)
    requires Inv(s) && Rooted(s.fo) && Endable(s, p) && Partial(s.fo, p, dead) && s.pl.waitsOn.Keys == s.pl.live
    ensures var s1 := Kill(s, dead);
      Inv(s1) && Rooted(s1.fo) && s1.pl.waitsOn.Keys == s1.pl.live && Endable(s1, p)
  {
    hide Located, Queued, Rooted, Kinship, Words, CurrentOk, Closed, Inv, Descends;
    InvRooted(s);
    KilledInv(s, p, dead);
    KillForestIs(s, dead);
    KillFields(s, dead);
    var s1 := Kill(s, dead);
    InvRooted(s1);
    if p != s.pl.current && s.pl.current != null && s.pl.current in Subtree(s1.fo, p) {
      StillBelow(s.fo, dead, p, s.pl.current);
    }
  }

  lemma {:induction false} StillBelow(fo: Forest, dead: set<Pcb>, p: Pcb, x: Pcb)
    requires Rooted(fo) && Rooted(KillForest(fo, dead)) && x in KillForest(fo, dead).parent
    requires Descends(KillForest(fo, dead), x, p)
    ensures Descends(fo, x, p)
    decreases fo.birth[x]
  {
    if x != p {
      StillBelow(fo, dead, p, fo.parent[x]);
    }
  }
}
