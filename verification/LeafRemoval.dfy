/**
  The last part of terminateProcess, for a process without children: wherever it is,
  taking it out there and freeing its block is killing just that process.
  */
module LeafRemoval {
  import opened Collections
  import opened Types
  import opened ActiveSemaphores
  import opened NucleusState
  import opened NucleusInvariants
  import opened ProcessTree
  import opened NucleusKernel

  /** The word of a user semaphore gets one unit back, the counter of soft-blocked processes loses one. */
  ghost function Released(s: State, a: Addr): State {
    if !IsDevAddr(s.cfg.devBase, a) then
      (if a in s.ct.user then SetUser(s, a, s.ct.user[a] + 1) else s)
    else AddSoft(s, -1)
  }

  /** p has been taken out of where it is. */
  ghost function TakenOut(s: State, p: Pcb): State
    requires p in s.fo.parent && p in s.pl.waitsOn
    requires s.fo.parent[p] != null ==> s.fo.parent[p] in s.fo.kids
    requires s.pl.waitsOn[p] != None ==> s.pl.waitsOn[p].value in s.pl.blocked
  {
    if p == s.pl.current then s.(fo := Orphaned(s.fo, p))
    else match s.pl.waitsOn[p]
      case Some(a) => Released(s.(pl := Leave(s.pl, p, a)), a)
      case None => s.(pl := s.pl.(ready := Minus(s.pl.ready, {p})))
  }

  ghost function Removed(s: State, p: Pcb): State
    requires p in s.fo.parent && p in s.pl.waitsOn
    requires s.fo.parent[p] != null ==> s.fo.parent[p] in s.fo.kids
    requires s.pl.waitsOn[p] != None ==> s.pl.waitsOn[p].value in s.pl.blocked
  {
    var s1 := Departed(TakenOut(s, p), p);
    s1.(ct := s1.ct.(procs := s1.ct.procs - 1))
  }

  lemma KidsLeaf(fo: Forest, p: Pcb)
    requires ForestDomain(fo) && KidsSound(fo) && p in fo.parent
    ensures forall q | q in fo.kids && fo.parent[p] != q :: Minus(fo.kids[q], {p}) == fo.kids[q]
  {
    hide Minus;
    forall q | q in fo.kids && fo.parent[p] != q ensures Minus(fo.kids[q], {p}) == fo.kids[q] {
      MinusUntouched(fo.kids[q], {p});
    }
  }

  lemma OrphanedKids(fo: Forest, p: Pcb)
    requires ForestDomain(fo) && KidsSound(fo) && p in fo.parent && (fo.parent[p] != null ==> fo.parent[p] in fo.kids)
    ensures (Orphaned(fo, p).kids - {p}).Keys == fo.kids.Keys - {p}
    ensures forall q | q in fo.kids && q != p :: (Orphaned(fo, p).kids - {p})[q] == Minus(fo.kids[q], {p})
  {
    hide Minus, KidsSound;
    KidsLeaf(fo, p);
  }

  lemma OrphanedPruned(fo: Forest, p: Pcb)
    requires ForestDomain(fo) && KidsSound(fo) && p in fo.parent && (fo.parent[p] != null ==> fo.parent[p] in fo.kids)
    ensures Orphaned(fo, p).kids - {p} == PruneKids(fo.kids, {p})
  {
    hide KidsSound, Minus, PruneKids, Orphaned;
    OrphanedKids(fo, p);
  }

  lemma ForestLeaf(fo: Forest, p: Pcb)
    requires Kinship(fo) && p in fo.parent && (fo.parent[p] != null ==> fo.parent[p] in fo.kids)
    ensures Dropped(Orphaned(fo, p), p) == KillForest(fo, {p})
  {
    hide KidsDistinct, KidsSound, KidsComplete, Minus, PruneKids;
    OrphanedPruned(fo, p);
    assert Orphaned(fo, p).parent - {p} == fo.parent - {p};
  }

  lemma OtherQueues(pl: Places, p: Pcb)
    requires pl.waitsOn.Keys == pl.live && BlockedSound(pl) && p in pl.live
    ensures forall a | a in pl.blocked && pl.waitsOn[p] != Some(a) :: Minus(pl.blocked[a], {p}) == pl.blocked[a]
  {
    hide Minus;
    forall a | a in pl.blocked && pl.waitsOn[p] != Some(a) ensures Minus(pl.blocked[a], {p}) == pl.blocked[a] {
      MinusUntouched(pl.blocked[a], {p});
    }
  }

  lemma QueuesLeaf(pl: Places, p: Pcb)
    requires Located(pl) && Queued(pl) && p in pl.live
    ensures pl.waitsOn[p] == None ==> PruneQueues(pl.blocked, {p}) == pl.blocked
    ensures pl.waitsOn[p] != None ==> pl.waitsOn[p].value in pl.blocked
    ensures pl.waitsOn[p] != None ==> PruneQueues(pl.blocked, {p}) == Leave(pl, p, pl.waitsOn[p].value).blocked
  {
    hide ReadySound, ReadyComplete, BlockedSound, Minus, PruneQueues, Distinct;
    OtherQueues(pl, p);
  }

  lemma ReadyLeaf(pl: Places, p: Pcb)
    requires Located(pl) && p in pl.live
    ensures p == pl.current || pl.waitsOn[p] != None ==> Minus(pl.ready, {p}) == pl.ready
  {
    hide ReadyComplete, BlockedSound, BlockedComplete;
    if p == pl.current || pl.waitsOn[p] != None {
      MinusUntouched(pl.ready, {p});
    }
  }

  lemma PlacesLeaf(s: State, p: Pcb)
    requires Located(s.pl) && Queued(s.pl) && CurrentOk(s.pl) && p in s.pl.live && p in s.fo.parent
    requires s.fo.parent[p] != null ==> s.fo.parent[p] in s.fo.kids
    ensures s.pl.waitsOn[p] != None ==> s.pl.waitsOn[p].value in s.pl.blocked
    ensures Gone(TakenOut(s, p).pl, p) == KillPlaces(s.pl, {p})
  {
    hide ReadySound, ReadyComplete, BlockedSound, BlockedComplete, PruneQueues, Minus, Queued;
    assert s.pl.waitsOn.Keys == s.pl.live;
    QueuesLeaf(s.pl, p);
    ReadyLeaf(s.pl, p);
  }

  lemma SingleMember<T>(w: set<T>, p: T)
    ensures |w * {p}| == if p in w then 1 else 0
  {
    assert w * {p} == if p in w then {p} else {};
  }

  lemma WaitersLeaf(s: State, p: Pcb)
    requires s.pl.waitsOn.Keys == s.pl.live && p in s.pl.live
    ensures forall a: Addr :: |Waiters(s.pl, a) * {p}| == if s.pl.waitsOn[p] == Some(a) then 1 else 0
    ensures |SoftBlocked(s.cfg, s.pl) * {p}| ==
      if s.pl.waitsOn[p] != None && IsDevAddr(s.cfg.devBase, s.pl.waitsOn[p].value) then 1 else 0
  {
    forall a: Addr ensures |Waiters(s.pl, a) * {p}| == if s.pl.waitsOn[p] == Some(a) then 1 else 0 {
      SingleMember(Waiters(s.pl, a), p);
    }
    SingleMember(SoftBlocked(s.cfg, s.pl), p);
  }

  /** Only a user semaphore or a device semaphore is waited for. */
  lemma WaitedWord(s: State, p: Pcb)
    requires Located(s.pl) && Words(s) && p in s.pl.live && s.pl.waitsOn[p] != None
    ensures var a := s.pl.waitsOn[p].value;
      a in s.pl.blocked && !IsDummy(a) && (a in s.ct.user <==> !IsDevAddr(s.cfg.devBase, a))
  {
    hide ReadySound, ReadyComplete, BlockedSound;
  }

  lemma CountsLeaf(s: State, p: Pcb)
    requires s.pl.waitsOn.Keys == s.pl.live && p in s.pl.live && p in s.fo.parent
    requires s.fo.parent[p] != null ==> s.fo.parent[p] in s.fo.kids
    requires p == s.pl.current ==> s.pl.waitsOn[p] == None
    requires s.pl.waitsOn[p] != None ==>
      var a := s.pl.waitsOn[p].value; a in s.pl.blocked && (a in s.ct.user <==> !IsDevAddr(s.cfg.devBase, a))
    ensures KillCounts(s, {p}) == TakenOut(s, p).ct.(procs := s.ct.procs - 1)
  {
    hide Waiters, SoftBlocked, IsDevAddr, Leave, Orphaned, Minus;
    WaitersLeaf(s, p);
    assert KillCounts(s, {p}).user == TakenOut(s, p).ct.user;
  }

  /** What terminateProcess finds when it looks for a process p without children. */
  lemma LeafFacts(s: State, p: Pcb)
    requires Inv(s) && p in s.pl.live
    ensures p in s.fo.parent && p in s.pl.waitsOn && s.pl.waitsOn.Keys == s.pl.live
    ensures s.fo.parent[p] != null ==> s.fo.parent[p] in s.fo.kids && p in s.fo.kids[s.fo.parent[p]]
    ensures p == s.pl.current ==> s.pl.waitsOn[p] == None
    ensures s.pl.waitsOn[p] != None ==> var a := s.pl.waitsOn[p].value;
      && a in s.pl.blocked && p in s.pl.blocked[a] && !IsDummy(a)
      && (a in s.ct.user <==> !IsDevAddr(s.cfg.devBase, a))
  {
    hide ReadySound, ReadyComplete, BlockedSound, KidsDistinct, KidsSound, Rooted, Queued, Words;
    if s.pl.waitsOn[p] != None {
      WaitedWord(s, p);
    }
    DomainsFacts(s);
  }

  lemma RemovedIsKill(s: State, p: Pcb)
    requires Inv(s) && p in s.pl.live && p in s.fo.parent && p in s.pl.waitsOn && s.pl.waitsOn.Keys == s.pl.live
    requires p != s.pl.current ==> s.fo.parent[p] == null
    requires s.fo.parent[p] != null ==> s.fo.parent[p] in s.fo.kids
    requires s.pl.waitsOn[p] != None ==> s.pl.waitsOn[p].value in s.pl.blocked
    ensures Removed(s, p) == Kill(s, {p})
  {
    hide Located, Kinship, Rooted, Queued, Words, CurrentOk, Domains;
    hide KillForest, KillPlaces, KillCounts, Minus, Leave, Gone, Dropped, IsDevAddr;
    LeafFacts(s, p);
    PlacesLeaf(s, p);
    CountsLeaf(s, p);
    ForestLeaf(s.fo, p);
    TakenOutKeeps(s, p);
  }

  lemma TakenOutKeeps(s: State, p: Pcb)
    requires p in s.fo.parent && p in s.pl.waitsOn && (p != s.pl.current ==> s.fo.parent[p] == null)
    requires s.fo.parent[p] != null ==> s.fo.parent[p] in s.fo.kids
    requires s.pl.waitsOn[p] != None ==> s.pl.waitsOn[p].value in s.pl.blocked
    ensures TakenOut(s, p).fo == Orphaned(s.fo, p) && TakenOut(s, p).cpu == s.cpu && TakenOut(s, p).cfg == s.cfg
    ensures TakenOut(s, p).ct.procs == s.ct.procs
  {
  }
}
