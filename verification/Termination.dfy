/** Termination of a process with all its descendants. */
module SubtreeTermination {
  import opened Collections
  import opened Types
  import opened ActiveSemaphores
  import opened NucleusState
  import opened NucleusInvariants
  import opened NucleusRuns
  import opened UserSemaphores
  import opened Endings

  // ---------------------------------------------------------------- what the subtree is

  /** The process reached from r by taking child number route[0], then child number route[1] of that, and so on. */
  ghost function Walk(fo: Forest, r: Pcb, route: seq<nat>): Pcb?
  {
    if route == [] then r
    else if r in fo.kids && route[0] < |fo.kids[r]| then Walk(fo, fo.kids[r][route[0]], route[1..])
    else null
  }

  lemma {:induction false} WalkOn(fo: Forest, r: Pcb, route: seq<nat>, i: nat)
    ensures var x := Walk(fo, r, route);
      Walk(fo, r, route + [i]) == if x != null && x in fo.kids && i < |fo.kids[x]| then fo.kids[x][i] else null
  {
    if route == [] {
      assert (route + [i])[1..] == [];
    } else {
      assert (route + [i])[1..] == route[1..] + [i];
      if r in fo.kids && route[0] < |fo.kids[r]| {
        WalkOn(fo, fo.kids[r][route[0]], route[1..], i);
      }
    }
  }

  lemma {:induction false} DescendantIsReached(fo: Forest, r: Pcb, x: Pcb) returns (route: seq<nat>)
    requires Rooted(fo) && Kinship(fo) && x in fo.parent && Descends(fo, x, r)
    ensures Walk(fo, r, route) == x
    decreases fo.birth[x]
  {
    if x == r {
      route := [];
    } else {
      var up := DescendantIsReached(fo, r, fo.parent[x]);
      var i :| 0 <= i < |fo.kids[fo.parent[x]]| && fo.kids[fo.parent[x]][i] == x;
      WalkOn(fo, r, up, i);
      route := up + [i];
    }
  }

  lemma {:induction false} ReachedIsDescendant(fo: Forest, r: Pcb, route: seq<nat>)
    requires Rooted(fo) && Kinship(fo) && r in fo.parent && Walk(fo, r, route) != null
    ensures Walk(fo, r, route) in fo.parent && Descends(fo, Walk(fo, r, route), r)
    decreases |route|
  {
    if route != [] {
      var up, i := route[..|route| - 1], route[|route| - 1];
      assert route == up + [i];
      WalkOn(fo, r, up, i);
      ReachedIsDescendant(fo, r, up);
      assert fo.kids[Walk(fo, r, up)][i] in fo.kids[Walk(fo, r, up)];
    }
  }

  /** The subtree of r is what can be reached from r along child lists. */
  lemma SubtreeIsReachable(fo: Forest, r: Pcb, x: Pcb)
    requires Rooted(fo) && Kinship(fo) && r in fo.parent
    ensures x in Subtree(fo, r) <==> exists route :: Walk(fo, r, route) == x
  {
    hide Rooted, Kinship, Walk, Descends;
    if x in Subtree(fo, r) {
      var route := DescendantIsReached(fo, r, x);
    }
    if route :| Walk(fo, r, route) == x {
      ReachedIsDescendant(fo, r, route);
    }
  }

  // ---------------------------------------------------------------- killing in stages

  lemma KillPlacesTwice(pl: Places, d: set<Pcb>, e: set<Pcb>)
    ensures KillPlaces(KillPlaces(pl, d), e) == KillPlaces(pl, d + e)
  {
    var l, r := KillPlaces(KillPlaces(pl, d), e), KillPlaces(pl, d + e);
    MinusTwice(pl.ready, d, e);
    PruneQueuesTwice(pl.blocked, d, e);
    assert l.waitsOn == r.waitsOn;
  }

  lemma PruneQueuesTwice(m: map<Addr, seq<Pcb>>, d: set<Pcb>, e: set<Pcb>)
    ensures PruneQueues(PruneQueues(m, d), e) == PruneQueues(m, d + e)
  {
    hide PruneQueues;
    var l, r := PruneQueues(PruneQueues(m, d), e), PruneQueues(m, d + e);
    forall a | a in m ensures Minus(Minus(m[a], d), e) == Minus(m[a], d + e) {
      MinusTwice(m[a], d, e);
    }
    forall a | a in r ensures a in l {
      assert Minus(m[a], d) != [];
    }
  }

  lemma PruneKidsTwice(m: map<Pcb, seq<Pcb>>, d: set<Pcb>, e: set<Pcb>)
    ensures PruneKids(PruneKids(m, d), e) == PruneKids(m, d + e)
  {
    hide PruneKids, Minus;
    forall p | p in m ensures Minus(Minus(m[p], d), e) == Minus(m[p], d + e) {
      MinusTwice(m[p], d, e);
    }
  }

  lemma KillForestTwice(fo: Forest, d: set<Pcb>, e: set<Pcb>)
    ensures KillForest(KillForest(fo, d), e) == KillForest(fo, d + e)
  {
    hide PruneKids;
    PruneKidsTwice(fo.kids, d, e);
    assert fo.parent - d - e == fo.parent - (d + e);
    assert fo.birth - d - e == fo.birth - (d + e);
  }

  lemma CountTwice(w: set<Pcb>, d: set<Pcb>, e: set<Pcb>)
    requires d !! e
    ensures |w * d| + |(w - d) * e| == |w * (d + e)|
  {
    assert w * (d + e) == (w * d) + ((w - d) * e);
  }

  lemma SoftLeft(cfg: Config, pl: Places, d: set<Pcb>)
    requires Located(pl)
    ensures KillPlaces(pl, d).waitsOn.Keys == pl.live - d && KillPlaces(pl, d).live == pl.live - d
    ensures SoftBlocked(cfg, KillPlaces(pl, d)) == SoftBlocked(cfg, pl) - d
  {
    hide ReadySound, ReadyComplete, BlockedSound, BlockedComplete, Minus, PruneQueues;
  }

  lemma UserTwice(s: State, d: set<Pcb>, e: set<Pcb>)
    requires Located(s.pl) && d !! e
    ensures KillPlaces(s.pl, d).waitsOn.Keys == KillPlaces(s.pl, d).live
    ensures forall a | a in s.ct.user ::
      |Waiters(s.pl, a) * d| + |Waiters(KillPlaces(s.pl, d), a) * e| == |Waiters(s.pl, a) * (d + e)|
  {
    hide Located, Waiters, KillPlaces;
    LocatedDomain(s.pl);
    SoftLeft(s.cfg, s.pl, d);
    forall a | a in s.ct.user
      ensures |Waiters(s.pl, a) * d| + |Waiters(KillPlaces(s.pl, d), a) * e| == |Waiters(s.pl, a) * (d + e)|
    {
      WaitersKill(s.pl, d, a);
      CountTwice(Waiters(s.pl, a), d, e);
    }
  }

  lemma KillFields(s: State, d: set<Pcb>)
    requires s.pl.waitsOn.Keys == s.pl.live
    ensures Kill(s, d).cfg == s.cfg && Kill(s, d).pl == KillPlaces(s.pl, d) && Kill(s, d).ct == KillCounts(s, d)
  {
  }

  lemma KillUserTwice(s: State, d: set<Pcb>, e: set<Pcb>)
    requires Located(s.pl) && d !! e && s.pl.waitsOn.Keys == s.pl.live
    ensures Kill(s, d).pl.waitsOn.Keys == Kill(s, d).pl.live
    ensures KillCounts(Kill(s, d), e).user == KillCounts(s, d + e).user
  {
    hide Located, KillPlaces, Waiters, SoftBlocked, Kill;
    KillFields(s, d);
    SoftLeft(s.cfg, s.pl, d);
    UserTwice(s, d, e);
  }

  lemma KillCountsTwice(s: State, d: set<Pcb>, e: set<Pcb>)
    requires Located(s.pl) && d !! e && s.pl.waitsOn.Keys == s.pl.live
    ensures Kill(s, d).pl.waitsOn.Keys == Kill(s, d).pl.live
    ensures KillCounts(Kill(s, d), e) == KillCounts(s, d + e)
  {
    hide Located, KillPlaces, Waiters, SoftBlocked, Kill;
    KillFields(s, d);
    SoftLeft(s.cfg, s.pl, d);
    KillUserTwice(s, d, e);
    CountTwice(SoftBlocked(s.cfg, s.pl), d, e);
    assert |d + e| == |d| + |e|;
  }

  /** Killing d and then e is killing both at once. */
  lemma KillTwice(s: State, d: set<Pcb>, e: set<Pcb>)
    requires Located(s.pl) && d !! e
    ensures Kill(s, d).pl.waitsOn.Keys == Kill(s, d).pl.live
    ensures Kill(Kill(s, d), e) == Kill(s, d + e)
  {
    hide Located, KillPlaces, KillForest, KillCounts;
    assert s.pl.waitsOn.Keys == s.pl.live by { LocatedDomain(s.pl); }
    KillPlacesTwice(s.pl, d, e);
    KillForestTwice(s.fo, d, e);
    KillCountsTwice(s, d, e);
    assert s.cpu.regs - d - e == s.cpu.regs - (d + e);
    assert s.cpu.time - d - e == s.cpu.time - (d + e);
    assert s.cpu.support - d - e == s.cpu.support - (d + e);
  }

  /** A child that is about to be killed may be taken off its parent's list first. */
  lemma KillDetached(fo: Forest, p: Pcb, dead: set<Pcb>)
    requires p in fo.kids && fo.kids[p] != [] && fo.kids[p][0] in dead && fo.kids[p][0] in fo.parent
    ensures KillForest(DetachFirst(fo, p), dead) == KillForest(fo, dead)
  {
    hide PruneKids;
    var fo1 := DetachFirst(fo, p);
    assert PruneKids(fo1.kids, dead) == PruneKids(fo.kids, dead);
    assert fo1.parent - dead == fo.parent - dead;
  }

  // ---------------------------------------------------------------- the loop of terminateProcess

  /** What the loop has killed so far: whole branches below r. */
  ghost predicate Partial(fo: Forest, r: Pcb, dead: set<Pcb>)
    requires Rooted(fo)
  {
    Closed(fo, dead) && dead <= Subtree(fo, r) && r !in dead
  }

  lemma DetachRooted(fo: Forest, p: Pcb)
    requires Rooted(fo) && Kinship(fo) && p in fo.kids && fo.kids[p] != []
    ensures Rooted(DetachFirst(fo, p))
  {
    assert fo.kids[p][0] in fo.kids[p];
  }

  lemma DetachKidsSound(fo: Forest, p: Pcb)
    requires Kinship(fo) && p in fo.kids && fo.kids[p] != []
    ensures KidsDistinct(DetachFirst(fo, p)) && KidsSound(DetachFirst(fo, p))
  {
    hide KidsComplete;
    var c, rest := fo.kids[p][0], fo.kids[p][1..];
    assert fo.kids[p] == [c] + rest && c !in rest;
    assert c in fo.kids[p];
  }

  lemma DetachKinship(fo: Forest, p: Pcb)
    requires Kinship(fo) && p in fo.kids && fo.kids[p] != []
    ensures Kinship(DetachFirst(fo, p))
  {
    DetachKidsSound(fo, p);
    var c, rest := fo.kids[p][0], fo.kids[p][1..];
    assert fo.kids[p] == [c] + rest && c in fo.kids[p];
  }

  lemma {:induction false} DescendsYounger(fo: Forest, x: Pcb, r: Pcb)
    requires Rooted(fo) && x in fo.parent && Descends(fo, x, r)
    ensures r in fo.parent && fo.birth[r] <= fo.birth[x]
    ensures x != r ==> fo.birth[r] < fo.birth[x]
    decreases fo.birth[x]
  {
    if x != r {
      DescendsYounger(fo, fo.parent[x], r);
    }
  }

  /** Below a detached child c of r are descendants of r, other than r, in the first forest. */
  lemma {:induction false} DescendsLift(fo: Forest, dead: set<Pcb>, r: Pcb, x: Pcb)
    requires Rooted(fo) && Kinship(fo) && Closed(fo, dead) && r in fo.kids && r !in dead
    requires var fo1 := KillForest(fo, dead); r in fo1.kids && fo1.kids[r] != [] && Rooted(DetachFirst(fo1, r))
    requires var fo1 := KillForest(fo, dead);
      x in DetachFirst(fo1, r).parent && Descends(DetachFirst(fo1, r), x, fo1.kids[r][0])
    ensures x in fo.parent && Descends(fo, x, r) && x != r
    decreases fo.birth[x]
  {
    var fo1 := KillForest(fo, dead);
    var c := fo1.kids[r][0];
    assert c in fo.kids[r];
    if x != c {
      DescendsLift(fo, dead, r, DetachFirst(fo1, r).parent[x]);
      DescendsYounger(fo, fo.parent[x], r);
    }
  }

  /** One round of the loop: the first child left is detached, then it is killed with all its descendants. */
  lemma NextBranch(fo: Forest, r: Pcb, dead: set<Pcb>)
    requires Rooted(fo) && Kinship(fo) && r in fo.parent && Partial(fo, r, dead)
    requires KillForest(fo, dead).kids[r] != []
    ensures var fo1 := KillForest(fo, dead);
      var fo2, c := DetachFirst(fo1, r), fo1.kids[r][0];
      && Rooted(fo2) && Kinship(fo2) && c in fo2.parent && fo2.parent[c] == null
      && r in fo2.parent && fo2.stamp == fo.stamp && fo2.birth[c] > fo.birth[r]
      && c in Subtree(fo2, c) && Subtree(fo2, c) !! dead && Partial(fo, r, dead + Subtree(fo2, c))
  {
    hide Kinship, Closed, PruneKids, Minus, Descends;
    var fo1 := KillForest(fo, dead);
    KillRooted(fo, dead);
    KillKinship(fo, dead);
    DetachRooted(fo1, r);
    DetachKinship(fo1, r);
    var fo2, c := DetachFirst(fo1, r), fo1.kids[r][0];
    FirstChild(fo1, r);
    var sub := Subtree(fo2, c);
    RootInSubtree(fo2, c);
    forall x | x in sub ensures x in Subtree(fo, r) && x != r && x !in dead {
      DescendsLift(fo, dead, r, x);
    }
    BranchClosed(fo, r, dead);
  }

  lemma FirstChild(fo: Forest, r: Pcb)
    requires Rooted(fo) && Kinship(fo) && r in fo.kids && fo.kids[r] != []
    ensures fo.kids[r][0] in fo.parent && fo.birth[fo.kids[r][0]] > fo.birth[r] && fo.parent[fo.kids[r][0]] == r
  {
    assert fo.kids[r][0] in fo.kids[r];
  }

  lemma BranchClosed(fo: Forest, r: Pcb, dead: set<Pcb>)
    requires Rooted(fo) && Closed(fo, dead) && r in fo.kids
    requires var fo1 := KillForest(fo, dead); r in fo1.kids && fo1.kids[r] != [] && Rooted(DetachFirst(fo1, r))
    requires KillForest(fo, dead).kids[r][0] in KillForest(fo, dead).parent
    ensures var fo1 := KillForest(fo, dead);
      Closed(fo, dead + Subtree(DetachFirst(fo1, r), fo1.kids[r][0]))
  {
    hide PruneKids, Minus, Kinship;
    var fo1 := KillForest(fo, dead);
    var fo2, c := DetachFirst(fo1, r), fo1.kids[r][0];
    forall x | x in fo.parent && fo.parent[x] != null && fo.parent[x] in dead + Subtree(fo2, c)
      ensures x in dead + Subtree(fo2, c)
    {
      if x !in dead && x != c {
        assert fo2.parent[x] == fo.parent[x];
      }
    }
  }

  /** When r has no child left, everything below it is dead. */
  lemma AllBranches(fo: Forest, r: Pcb, dead: set<Pcb>)
    requires Rooted(fo) && Kinship(fo) && r in fo.parent && Partial(fo, r, dead)
    requires KillForest(fo, dead).kids[r] == []
    ensures dead + {r} == Subtree(fo, r)
  {
    hide Kinship, Closed, Descends, Minus, Rooted;
    RootInSubtree(fo, r);
    NoKidsLeft(fo, r, dead);
    forall x | x in Subtree(fo, r) && x != r ensures x in dead {
      BelowIsDead(fo, r, dead, x);
    }
  }

  lemma NoKidsLeft(fo: Forest, r: Pcb, dead: set<Pcb>)
    requires Kinship(fo) && r in fo.parent && r !in dead && KillForest(fo, dead).kids[r] == []
    ensures r in fo.kids && Minus(fo.kids[r], dead) == []
  {
  }

  lemma {:induction false} BelowIsDead(fo: Forest, r: Pcb, dead: set<Pcb>, x: Pcb)
    requires Rooted(fo) && Kinship(fo) && r in fo.parent && Closed(fo, dead) && Minus(fo.kids[r], dead) == []
    requires x in fo.parent && Descends(fo, x, r) && x != r
    ensures x in dead
    decreases fo.birth[x]
  {
    if fo.parent[x] == r {
      assert x in fo.kids[r];
      assert x !in Minus(fo.kids[r], dead);
    } else {
      BelowIsDead(fo, r, dead, fo.parent[x]);
    }
  }

  // ---------------------------------------------------------------- the exception as a whole

  /** What SYS2, or a fault without support structure, leaves behind. */
  lemma TerminationExact(s: State, e: Event)
    requires Inv(s) && Shape(s) && Enabled(s, e) && Kills(s, e)
    ensures var s1, dead := Step(s, e).state, Subtree(s.fo, s.pl.current);
      && s1.pl.live == s.pl.live - dead && s.pl.current in dead && dead <= s.pl.live
      && s1.ct.procs == s.ct.procs - |dead|
      && s1.ct.soft == s.ct.soft - |SoftBlocked(s.cfg, s.pl) * dead| && s1.ct.dev == s.ct.dev
      && s1.ct.user.Keys == s.ct.user.Keys
      && (forall a | a in s.ct.user :: s1.ct.user[a] == s.ct.user[a] + |Waiters(s.pl, a) * dead|)
      && (forall a | a in s.pl.blocked :: QueueOf(s1.pl.blocked, a) == Minus(s.pl.blocked[a], dead))
      && s1.pl.blocked.Keys <= s.pl.blocked.Keys
      && Minus(s.pl.ready, dead) == (if s1.pl.current != null then [s1.pl.current] else []) + s1.pl.ready
  {
    hide Located, Queued, CurrentOk, Rooted, Kinship, Words, Step, Minus, Subtree, Waiters, SoftBlocked, Domains;
    DomainsFacts(s);
    RootInSubtree(s.fo, s.pl.current);
    SubtreeLive(s.fo, s.pl.current);
    KillEnds(s, e);
  }

  /** After the killing the scheduler moves at most the head of the ready queue. */
  lemma KillEnds(s: State, e: Event)
    requires Shape(s) && Rooted(s.fo) && Enabled(s, e) && Kills(s, e)
    ensures var s1, k := Step(s, e).state, Kill(s, Subtree(s.fo, s.pl.current));
      && s1.ct == k.ct && s1.fo == k.fo && s1.pl.live == k.pl.live && s1.pl.blocked == k.pl.blocked
      && k.pl.ready == (if s1.pl.current != null then [s1.pl.current] else []) + s1.pl.ready
  {
    hide Rooted, Step, Subtree, Domains, Kill, Work;
    StepEnds(s, e);
    KillsWork(s, e);
  }

  lemma KillsWork(s: State, e: Event)
    requires Shape(s) && Rooted(s.fo) && Enabled(s, e) && Kills(s, e)
    ensures var m, k := Work(s, e), Kill(s, Subtree(s.fo, s.pl.current));
      m.ct == k.ct && m.pl == Idle(k.pl) && m.fo == k.fo && !PassesUp(s, e) && !Stray(s, e)
  {
    hide Minus, Subtree;
  }

  /** Survivors keep their parents, none of which is gone, and their surviving children in order. Sibling links are not part of the forest. */
  lemma SurvivorsKeepFamily(s: State, e: Event, p: Pcb)
    requires Inv(s) && Shape(s) && Enabled(s, e) && Kills(s, e) && p in Step(s, e).state.pl.live
    ensures var fo1, dead := Step(s, e).state.fo, Subtree(s.fo, s.pl.current);
      && p in fo1.parent && p in s.fo.parent && fo1.parent[p] == s.fo.parent[p] && fo1.parent[p] !in dead
      && p in fo1.kids && p in s.fo.kids && fo1.kids[p] == Minus(s.fo.kids[p], dead)
  {
    hide Located, Queued, CurrentOk, Rooted, Kinship, Words, Step, Minus, Subtree, Closed;
    KillEnds(s, e);
    SubtreeClosed(s.fo, s.pl.current);
    TerminationExact(s, e);
    assert s.fo.parent[p] !in Subtree(s.fo, s.pl.current) by { OutsideStays(s.fo, Subtree(s.fo, s.pl.current), p); }
  }

  lemma OutsideStays(fo: Forest, dead: set<Pcb>, p: Pcb)
    requires Closed(fo, dead) && p in fo.parent && p !in dead
    ensures fo.parent[p] !in dead
  {
  }

  /** Two survivors in the queue of a keep their order. */
  lemma SurvivorsKeepOrder(s: State, e: Event, a: Addr, x: Pcb, y: Pcb)
    requires Inv(s) && Shape(s) && Enabled(s, e) && Kills(s, e)
    requires a in s.pl.blocked && Before(s.pl.blocked[a], x, y)
    requires x in Step(s, e).state.pl.live && y in Step(s, e).state.pl.live
    ensures Before(QueueOf(Step(s, e).state.pl.blocked, a), x, y)
  {
    hide Located, Queued, CurrentOk, Kinship, Words, Step, Before, Minus, Subtree;
    TerminationExact(s, e);
    MinusKeepsOrder(s.pl.blocked[a], Subtree(s.fo, s.pl.current), x, y);
  }
}
