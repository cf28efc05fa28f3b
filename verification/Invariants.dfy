/** Every exception preserves the invariant of the nucleus. */
module NucleusInvariants {
  import opened Collections
  import opened Types
  import opened ActiveSemaphores
  import opened NucleusState

  ghost predicate PlacesOk(pl: Places) {
    Located(pl) && Queued(pl) && CurrentOk(pl)
  }

  lemma DistinctAppend<T>(q: seq<T>, x: T)
    requires Distinct(q) && x !in q
    ensures Distinct(q + [x])
  {
  }

  lemma DistinctConcat<T>(q: seq<T>, r: seq<T>)
    requires Distinct(q) && Distinct(r) && forall x | x in r :: x !in q
    ensures Distinct(q + r)
  {
    forall i, j | 0 <= i < j < |q + r| ensures (q + r)[i] != (q + r)[j] {
      if i < |q| <= j {
        assert (q + r)[j] in r;
      }
    }
  }

  // ---------------------------------------------------------------- moves between queues

  lemma BlockLocated(pl: Places, a: Addr)
    requires Located(pl) && CurrentOk(pl) && pl.current != null
    ensures Located(Block(pl, a))
  {
    assert pl.current !in pl.ready;
  }

  lemma BlockQueued(pl: Places, a: Addr)
    requires Located(pl) && Queued(pl) && CurrentOk(pl) && pl.current != null
    ensures Queued(Block(pl, a))
  {
    assert pl.current !in QueueOf(pl.blocked, a);
  }

  lemma WakeLocated(pl: Places, a: Addr)
    requires PlacesOk(pl)
    ensures Located(Wake(pl, a)) && CurrentOk(Wake(pl, a))
  {
    if a in pl.blocked {
      var p, rest := pl.blocked[a][0], pl.blocked[a][1..];
      assert pl.blocked[a] == [p] + rest && p !in rest;
    }
  }

  lemma WakeQueued(pl: Places, a: Addr)
    requires PlacesOk(pl)
    ensures Queued(Wake(pl, a))
  {
    if a in pl.blocked {
      var p, rest := pl.blocked[a][0], pl.blocked[a][1..];
      assert p in pl.blocked[a] && p !in pl.ready;
      DistinctAppend(pl.ready, p);
      assert forall i | 0 <= i < |rest| :: rest[i] == pl.blocked[a][i + 1];
    }
  }

  lemma WakeAllLocated(pl: Places, a: Addr)
    requires PlacesOk(pl)
    ensures Located(WakeAll(pl, a)) && CurrentOk(WakeAll(pl, a))
  {
  }

  lemma WakeAllQueued(pl: Places, a: Addr)
    requires PlacesOk(pl)
    ensures Queued(WakeAll(pl, a))
  {
    var q := QueueOf(pl.blocked, a);
    assert forall p | p in q :: p !in pl.ready;
    DistinctConcat(pl.ready, q);
  }

  lemma SliceOk(pl: Places)
    requires PlacesOk(pl) && pl.current != null
    ensures PlacesOk(Idle(Enqueue(pl, pl.current)))
  {
    assert pl.current !in pl.ready;
    DistinctAppend(pl.ready, pl.current);
  }

  lemma DispatchOk(pl: Places)
    requires PlacesOk(pl) && pl.current == null && pl.ready != []
    ensures PlacesOk(pl.(ready := pl.ready[1..], current := pl.ready[0]))
  {
    var p, rest := pl.ready[0], pl.ready[1..];
    assert pl.ready == [p] + rest && p !in rest;
  }

  lemma KillReady(pl: Places, dead: set<Pcb>)
    requires Located(pl)
    ensures ReadySound(KillPlaces(pl, dead)) && ReadyComplete(KillPlaces(pl, dead))
  {
  }

  lemma KillBlocked(pl: Places, dead: set<Pcb>)
    requires Located(pl)
    ensures BlockedSound(KillPlaces(pl, dead)) && BlockedComplete(KillPlaces(pl, dead))
  {
    hide PruneQueues, Minus;
    var pl' := KillPlaces(pl, dead);
    forall p | p in pl'.live && pl'.waitsOn[p] != None
      ensures pl'.waitsOn[p].value in pl'.blocked && p in pl'.blocked[pl'.waitsOn[p].value]
    {
      var a := pl.waitsOn[p].value;
      assert p in pl.blocked[a] && p in Minus(pl.blocked[a], dead);
    }
  }

  lemma KillLocated(pl: Places, dead: set<Pcb>)
    requires Located(pl)
    ensures Located(KillPlaces(pl, dead))
  {
    hide ReadySound, ReadyComplete, BlockedSound, BlockedComplete;
    KillReady(pl, dead);
    KillBlocked(pl, dead);
  }

  lemma KillQueued(pl: Places, dead: set<Pcb>)
    requires Queued(pl)
    ensures Queued(KillPlaces(pl, dead))
  {
  }

  // ---------------------------------------------------------------- the process tree

  /** Children of the dead are dead. */
  ghost predicate Closed(fo: Forest, dead: set<Pcb>) {
    forall p | p in fo.parent && fo.parent[p] != null && fo.parent[p] in dead :: p in dead
  }

  lemma KillRooted(fo: Forest, dead: set<Pcb>)
    requires Rooted(fo) && Closed(fo, dead)
    ensures Rooted(KillForest(fo, dead))
  {
  }

  lemma PrunedKid(m: map<Pcb, seq<Pcb>>, dead: set<Pcb>, p: Pcb, c: Pcb)
    requires p in PruneKids(m, dead) && c in PruneKids(m, dead)[p]
    ensures p in m && p !in dead && c in m[p] && c !in dead
  {
    hide PruneKids;
  }

  lemma KidSound(fo: Forest, p: Pcb, c: Pcb)
    requires KidsSound(fo) && p in fo.kids && c in fo.kids[p]
    ensures c in fo.parent && fo.parent[c] == p
  {
  }

  lemma KidsAreSound(fo: Forest)
    requires forall p, c | p in fo.kids && c in fo.kids[p] :: c in fo.parent && fo.parent[c] == p
    ensures KidsSound(fo)
  {
  }

  lemma KillKidsSound(fo: Forest, dead: set<Pcb>)
    requires ForestDomain(fo) && KidsSound(fo)
    ensures KidsSound(KillForest(fo, dead))
  {
    hide PruneKids, Minus, KidsSound;
    var fo' := KillForest(fo, dead);
    forall p, c | p in fo'.kids && c in fo'.kids[p] ensures c in fo'.parent && fo'.parent[c] == p {
      PrunedKid(fo.kids, dead, p, c);
      KidSound(fo, p, c);
    }
    KidsAreSound(fo');
  }

  lemma KillKidsComplete(fo: Forest, dead: set<Pcb>)
    requires ForestDomain(fo) && KidsComplete(fo) && Closed(fo, dead)
    ensures KidsComplete(KillForest(fo, dead))
  {
  }

  lemma KillKinship(fo: Forest, dead: set<Pcb>)
    requires Kinship(fo) && Closed(fo, dead)
    ensures Kinship(KillForest(fo, dead))
  {
    hide KidsSound, KidsComplete, Closed;
    KillKidsSound(fo, dead);
    KillKidsComplete(fo, dead);
  }

  lemma SubtreeClosed(fo: Forest, r: Pcb)
    requires Rooted(fo)
    ensures Closed(fo, Subtree(fo, r))
  {
  }

  lemma BornRooted(s: State, init: CpuState, given: Option<int>, p: Pcb)
    requires Rooted(s.fo) && s.pl.current != null && s.pl.current in s.fo.kids && p !in s.fo.parent
    ensures Rooted(Born(s, init, given, p).fo)
  {
  }

  lemma BornKinship(s: State, init: CpuState, given: Option<int>, p: Pcb)
    requires Rooted(s.fo) && Kinship(s.fo) && s.pl.current != null && s.pl.current in s.fo.kids && p !in s.fo.parent
    ensures Kinship(Born(s, init, given, p).fo)
  {
    hide KidsDistinct, KidsSound, KidsComplete, Rooted;
    BornKidsDistinct(s, init, given, p);
    BornKidsSound(s, init, given, p);
    BornKidsComplete(s, init, given, p);
  }

  lemma BornKidsDistinct(s: State, init: CpuState, given: Option<int>, p: Pcb)
    requires Kinship(s.fo) && s.pl.current != null && s.pl.current in s.fo.kids && p !in s.fo.parent
    ensures KidsDistinct(Born(s, init, given, p).fo)
  {
    hide KidsComplete;
    assert p !in s.fo.kids[s.pl.current];
  }

  lemma BornKidsComplete(s: State, init: CpuState, given: Option<int>, p: Pcb)
    requires ForestDomain(s.fo) && KidsComplete(s.fo) && s.pl.current != null && s.pl.current in s.fo.kids
    requires p !in s.fo.parent
    ensures KidsComplete(Born(s, init, given, p).fo)
  {
  }

  lemma BornKidsSound(s: State, init: CpuState, given: Option<int>, p: Pcb)
    requires ForestDomain(s.fo) && KidsSound(s.fo) && s.pl.current != null && s.pl.current in s.fo.kids
    requires p !in s.fo.parent
    ensures KidsSound(Born(s, init, given, p).fo)
  {
    var fo, fo' := s.fo, Born(s, init, given, p).fo;
    forall q, c | q in fo'.kids && c in fo'.kids[q] ensures c in fo'.parent && fo'.parent[c] == q {
      if c != p {
        assert c in fo.kids[q];
      }
    }
  }

  lemma BornPlaces(s: State, init: CpuState, given: Option<int>, p: Pcb)
    requires PlacesOk(s.pl) && s.pl.current != null && s.pl.current in s.fo.kids && p !in s.pl.live
    ensures PlacesOk(Born(s, init, given, p).pl)
  {
  }

  lemma InvDomain(s: State)
    requires Inv(s)
    ensures s.pl.waitsOn.Keys == s.pl.live
  {
  }

  // ---------------------------------------------------------------- steps that move nobody

  lemma ChargeInv(s: State, p: Pcb, dt: int)
    requires Inv(s) && p in s.pl.live
    ensures Inv(Charge(s, p, dt))
  {
    hide Located, Queued, CurrentOk, Rooted, Kinship;
  }

  lemma SaveInv(s: State, p: Pcb, cs: CpuState)
    requires Inv(s) && p in s.pl.live
    ensures Inv(Save(s, p, cs))
  {
    hide Located, Queued, CurrentOk, Rooted, Kinship;
  }

  lemma SetUserInv(s: State, a: Addr, v: int)
    requires Inv(s) && a in s.ct.user
    ensures Inv(SetUser(s, a, v))
  {
    hide Located, Queued, CurrentOk, Rooted, Kinship;
  }

  lemma SetDevInv(s: State, i: nat, v: int)
    requires Inv(s) && i < |s.ct.dev|
    ensures Inv(SetDev(s, i, v))
  {
    hide Located, Queued, CurrentOk, Rooted, Kinship;
  }

  lemma AddSoftInv(s: State, d: int)
    requires Inv(s)
    ensures Inv(AddSoft(s, d))
  {
    hide Located, Queued, CurrentOk, Rooted, Kinship;
  }

  lemma AtInv(s: State, t: Times, start: int)
    requires Inv(s)
    ensures Inv(At(s.(cpu := s.cpu.(start := start)), t))
    ensures Inv(At(s, t))
  {
    hide Located, Queued, CurrentOk, Rooted, Kinship;
  }

  /** The places change, and only keys of semaphores get a queue. */
  lemma PlacesInv(s: State, pl: Places)
    requires Inv(s) && PlacesOk(pl) && pl.live == s.pl.live
    requires forall a | a in pl.blocked :: a in s.ct.user || IsDevIndexAddr(s.cfg.devBase, a)
    ensures Inv(s.(pl := pl))
  {
    hide Located, Queued, CurrentOk, Rooted, Kinship, IsDevIndexAddr;
  }

  // ---------------------------------------------------------------- how handlers end

  lemma ScheduleInv(s: State, t: Times)
    requires Inv(s) && Shape(s) && s.pl.current == null
    ensures Inv(Schedule(s, t).state)
  {
    hide Located, Queued, CurrentOk, Rooted, Kinship, IsDevIndexAddr;
    if s.pl.ready != [] {
      var pl := s.pl.(ready := s.pl.ready[1..], current := s.pl.ready[0]);
      DispatchOk(s.pl);
      PlacesInv(s, pl);
      AtInv(s.(pl := pl), t, t.resume);
    } else {
      AtInv(s, t, s.cpu.start);
    }
  }

  lemma ChargeCurrentInv(s: State, t: Times)
    requires Inv(s) && Shape(s) && s.pl.current != null
    ensures Inv(ChargeCurrent(s, t))
  {
    hide Located, Queued, CurrentOk, Rooted, Kinship, Words;
    ChargeInv(s, s.pl.current, t.mid - s.cpu.start);
  }

  lemma BlockCurrentInv(s: State, a: Addr, t: Times)
    requires Inv(s) && Shape(s) && s.pl.current != null
    requires a in s.ct.user || IsDevIndexAddr(s.cfg.devBase, a)
    ensures Inv(BlockCurrent(s, a, t))
  {
    hide Located, Queued, CurrentOk, Rooted, Kinship, IsDevIndexAddr;
    var s1 := ChargeCurrent(s, t);
    ChargeInv(s, s.pl.current, t.mid - s.cpu.start);
    BlockLocated(s1.pl, a);
    BlockQueued(s1.pl, a);
    assert CurrentOk(Block(s1.pl, a)) by { NobodyRuns(Block(s1.pl, a)); }
    PlacesInv(s1, Block(s1.pl, a));
  }

  lemma NobodyRuns(pl: Places)
    requires pl.current == null
    ensures CurrentOk(pl)
  {
  }

  lemma InterruptedInv(s: State, saved: CpuState, t: Times)
    requires Inv(s) && Shape(s)
    ensures Inv(Interrupted(s, saved, t))
  {
    hide Inv;
    if s.pl.current != null {
      var s1 := Save(s, s.pl.current, saved);
      SaveInv(s, s.pl.current, saved);
      ChargeInv(s1, s.pl.current, t.arrive - s.cpu.start);
    }
  }

  lemma FinishInv(s: State, m: State, e: Event)
    requires Shape(s) && Enabled(s, e) && Inv(m) && Finishable(m)
    ensures Inv(Finish(s, m, e).state)
  {
    hide Inv, Schedule, Shape, Enabled, PassesUp;
    InvShape(m);
    AtInv(m, e.t, e.t.resume);
    if m.pl.current == null {
      ScheduleInv(m, e.t);
    }
  }

  // ---------------------------------------------------------------- the exceptions

  lemma PasserenInv(s: State, a: Addr, t: Times)
    requires Inv(s) && Shape(s) && s.pl.current != null && a in s.ct.user
    ensures Inv(DoPasseren(s, a, t))
  {
    hide Inv, Shape, BlockCurrent, ChargeCurrent;
    var s1 := SetUser(s, a, s.ct.user[a] - 1);
    SetUserInv(s, a, s.ct.user[a] - 1);
    InvShape(s1);
    if s.ct.user[a] - 1 < 0 {
      BlockCurrentInv(s1, a, t);
    } else {
      ChargeCurrentInv(s1, t);
    }
  }

  lemma WakeInv(s: State, a: Addr)
    requires Inv(s) && Shape(s)
    ensures Inv(s.(pl := Wake(s.pl, a)))
  {
    hide Located, Queued, CurrentOk, Rooted, Kinship, IsDevIndexAddr;
    WakeLocated(s.pl, a);
    WakeQueued(s.pl, a);
    PlacesInv(s, Wake(s.pl, a));
  }

  lemma VerhogenInv(s: State, a: Addr, t: Times)
    requires Inv(s) && Shape(s) && s.pl.current != null && a in s.ct.user
    ensures Inv(DoVerhogen(s, a, t))
  {
    hide Inv, ChargeCurrent;
    var v := s.ct.user[a] + 1;
    var s1 := SetUser(s, a, v);
    SetUserInv(s, a, v);
    InvShape(s1);
    if v <= 0 {
      WakeInv(s1, a);
      var s2 := s1.(pl := Wake(s1.pl, a));
      InvShape(s2);
      ChargeCurrentInv(s2, t);
    } else {
      ChargeCurrentInv(s1, t);
    }
  }

  lemma WaitIOInv(s: State, i: nat, t: Times)
    requires Inv(s) && Shape(s) && s.pl.current != null && i < CLOCK_INDEX
    ensures Inv(DoWaitIO(s, i, t))
  {
    hide Inv, BlockCurrent, ChargeCurrent;
    var v := s.ct.dev[i] - 1;
    AddSoftInv(s, 1);
    SetDevInv(AddSoft(s, 1), i, v);
    var s1 := SetDev(AddSoft(s, 1), i, v);
    InvShape(s1);
    if v < 0 {
      assert IsDevIndexAddr(s.cfg.devBase, DevAddr(s.cfg.devBase, i));
      BlockCurrentInv(s1, DevAddr(s.cfg.devBase, i), t);
    } else {
      ChargeCurrentInv(s1, t);
    }
  }

  lemma WaitClockInv(s: State, t: Times)
    requires Inv(s) && Shape(s) && s.pl.current != null
    ensures Inv(DoWaitClock(s, t))
  {
    hide Inv, BlockCurrent, ChargeCurrent;
    var v := s.ct.dev[CLOCK_INDEX] - 1;
    var s1 := SetDev(s, CLOCK_INDEX, v);
    SetDevInv(s, CLOCK_INDEX, v);
    InvShape(s1);
    if v < 0 {
      AddSoftInv(s1, 1);
      InvShape(AddSoft(s1, 1));
      assert IsDevIndexAddr(s.cfg.devBase, DevAddr(s.cfg.devBase, CLOCK_INDEX));
      BlockCurrentInv(AddSoft(s1, 1), DevAddr(s.cfg.devBase, CLOCK_INDEX), t);
    } else {
      ChargeCurrentInv(s1, t);
    }
  }

  lemma GetTimeInv(s: State, t: Times)
    requires Inv(s) && Shape(s) && s.pl.current != null
    ensures Inv(DoGetTime(s, t))
  {
    hide Inv;
    var cur := s.pl.current;
    var s1 := ChargeCurrent(s, t);
    ChargeInv(s, cur, t.mid - s.cpu.start);
    var cs := s1.cpu.regs[cur].WithV0(s1.cpu.time[cur]);
    SaveInv(s1, cur, cs);
    var s2 := Save(s1, cur, cs);
    ChargeInv(s2, cur, t.late - s2.cpu.start);
  }

  lemma GetSupportInv(s: State, t: Times)
    requires Inv(s) && Shape(s) && s.pl.current != null
    ensures Inv(DoGetSupport(s, t))
  {
    hide Inv, ChargeCurrent;
    var cur := s.pl.current;
    var word := match s.cpu.support[cur] case Some(w) => w case None => NULL_WORD;
    var s1 := Save(s, cur, s.cpu.regs[cur].WithV0(word));
    SaveInv(s, cur, s.cpu.regs[cur].WithV0(word));
    InvShape(s1);
    ChargeCurrentInv(s1, t);
  }

  lemma BornInv(s: State, init: CpuState, given: Option<int>, p: Pcb)
    requires Inv(s) && Shape(s) && s.pl.current != null && p in s.cfg.pool && p !in s.pl.live
    ensures Inv(Born(s, init, given, p))
  {
    hide Located, Queued, CurrentOk, Rooted, Kinship, Words, Domains;
    assert p !in s.fo.parent && s.pl.current in s.fo.kids by { DomainsFacts(s); }
    BornRooted(s, init, given, p);
    BornKinship(s, init, given, p);
    BornPlaces(s, init, given, p);
    BornDomains(s, init, given, p);
  }

  lemma DomainsFacts(s: State)
    requires Domains(s)
    ensures s.fo.parent.Keys == s.pl.live && s.fo.kids.Keys == s.pl.live && s.pl.live <= s.cfg.pool
    ensures s.cpu.regs.Keys == s.pl.live && s.cpu.time.Keys == s.pl.live && s.cpu.support.Keys == s.pl.live
  {
  }

  lemma BornShape(s: State, init: CpuState, given: Option<int>, p: Pcb)
    requires Shape(s) && s.pl.current != null && p in s.cfg.pool
    ensures s.pl.current in s.fo.kids && Shape(Born(s, init, given, p))
  {
  }

  lemma BornKeeps(s: State, init: CpuState, given: Option<int>, p: Pcb)
    requires s.pl.current != null && s.pl.current in s.fo.kids
    ensures Born(s, init, given, p).pl.current == s.pl.current
    ensures Born(s, init, given, p).ct == s.ct.(procs := s.ct.procs + 1)
  {
  }

  lemma BornDomains(s: State, init: CpuState, given: Option<int>, p: Pcb)
    requires Domains(s) && Words(s) && s.pl.current != null && s.pl.current in s.fo.kids && p in s.cfg.pool
    ensures Domains(Born(s, init, given, p)) && Words(Born(s, init, given, p))
  {
    hide IsDevIndexAddr;
  }

  lemma CreateInv(s: State, init: CpuState, given: Option<int>, p: Pcb?, t: Times)
    requires Inv(s) && Shape(s) && s.pl.current != null && (p != null ==> p in s.cfg.pool && p !in s.pl.live)
    ensures Inv(DoCreate(s, init, given, p, t))
  {
    hide Inv, ChargeCurrent;
    var cur := s.pl.current;
    var s1 := if p != null then Born(s, init, given, p) else s;
    if p != null {
      BornInv(s, init, given, p);
    }
    InvShape(s1);
    var cs := s1.cpu.regs[cur].WithV0(if p != null then SUCCESS else ERROR);
    SaveInv(s1, cur, cs);
    InvShape(Save(s1, cur, cs));
    ChargeCurrentInv(Save(s1, cur, cs), t);
  }

  /** The invariant, except that the pointer to the current process may be stale. */
  ghost predicate InvButCurrent(s: State) {
    && Located(s.pl) && Queued(s.pl) && Rooted(s.fo) && Kinship(s.fo)
    && Domains(s) && Words(s) && s.ct.procs == |s.pl.live|
  }

  lemma KillInv(s: State, dead: set<Pcb>)
    requires InvButCurrent(s) && dead <= s.pl.live && Closed(s.fo, dead)
    ensures InvButCurrent(Kill(s, dead))
  {
    hide Located, Queued, Rooted, Kinship, IsDevIndexAddr, Closed, PruneKids, PruneQueues;
    assert s.pl.waitsOn.Keys == s.pl.live by { LocatedDomain(s.pl); }
    KillLocated(s.pl, dead);
    KillQueued(s.pl, dead);
    KillRooted(s.fo, dead);
    KillKinship(s.fo, dead);
  }

  lemma LocatedDomain(pl: Places)
    requires Located(pl)
    ensures pl.waitsOn.Keys == pl.live
  {
  }

  lemma IdleInv(s: State)
    requires InvButCurrent(s) && s.pl.current !in s.pl.live
    ensures Inv(s.(pl := Idle(s.pl)))
  {
    hide Queued, Rooted, Kinship, IsDevIndexAddr, Located, Distinct;
    IdleLocated(s.pl);
    IdleQueued(s.pl);
    NobodyRuns(Idle(s.pl));
  }

  lemma IdleLocated(pl: Places)
    requires Located(pl) && pl.current !in pl.live
    ensures Located(Idle(pl))
  {
  }

  lemma IdleQueued(pl: Places)
    requires Queued(pl)
    ensures Queued(Idle(pl))
  {
  }

  lemma RootInSubtree(fo: Forest, r: Pcb)
    requires Rooted(fo) && r in fo.parent
    ensures r in Subtree(fo, r)
  {
  }

  lemma TerminateInv(s: State)
    requires Inv(s) && Shape(s) && s.pl.current != null
    ensures Rooted(s.fo) && Inv(DoTerminate(s))
  {
    hide Located, Queued, Kinship, Words, CurrentOk, Closed, Kill, Subtree, Minus;
    var dead := Subtree(s.fo, s.pl.current);
    assert dead <= s.pl.live by { SubtreeLive(s.fo, s.pl.current); }
    SubtreeClosed(s.fo, s.pl.current);
    RootInSubtree(s.fo, s.pl.current);
    KillInv(s, dead);
    KillFacts(s, dead);
    IdleInv(Kill(s, dead));
  }

  lemma KillFacts(s: State, dead: set<Pcb>)
    requires s.pl.waitsOn.Keys == s.pl.live
    ensures Kill(s, dead).pl.live == s.pl.live - dead && Kill(s, dead).pl.current == s.pl.current
  {
  }

  lemma SubtreeLive(fo: Forest, r: Pcb)
    requires Rooted(fo)
    ensures Subtree(fo, r) <= fo.parent.Keys
  {
  }

  lemma SliceInv(s: State, saved: CpuState, t: Times)
    requires Inv(s) && Shape(s)
    ensures Inv(DoSlice(s, saved, t))
  {
    hide Located, Queued, CurrentOk, Rooted, Kinship, IsDevIndexAddr;
    if s.pl.current != null {
      SaveInv(s, s.pl.current, saved);
      var s0 := Save(s, s.pl.current, saved);
      ChargeInv(s0, s.pl.current, t.mid - s0.cpu.start);
      var s1 := ChargeCurrent(s0, t);
      SliceOk(s1.pl);
      PlacesInv(s1, Idle(Enqueue(s1.pl, s1.pl.current)));
    }
  }

  lemma TickedInv(s: State)
    requires Inv(s) && Shape(s)
    ensures Inv(Ticked(s))
  {
    hide Located, Queued, CurrentOk, Rooted, Kinship, IsDevIndexAddr;
    var a := DevAddr(s.cfg.devBase, CLOCK_INDEX);
    WakeAllLocated(s.pl, a);
    WakeAllQueued(s.pl, a);
    PlacesInv(s, WakeAll(s.pl, a));
    var s1 := s.(pl := WakeAll(s.pl, a));
    AddSoftInv(s1, -|QueueOf(s.pl.blocked, a)|);
    SetDevInv(AddSoft(s1, -|QueueOf(s.pl.blocked, a)|), CLOCK_INDEX, 0);
  }

  lemma DeliverInv(s: State, i: nat, status: int, t: Times)
    requires Inv(s) && Shape(s) && i < CLOCK_INDEX
    ensures Inv(Deliver(s, i, status, t))
  {
    hide Inv;
    var a := DevAddr(s.cfg.devBase, i);
    SetDevInv(s, i, s.ct.dev[i] + 1);
    var s1 := SetDev(s, i, s.ct.dev[i] + 1);
    InvShape(s1);
    if a in s.pl.blocked {
      var p := s.pl.blocked[a][0];
      WakeInv(s1, a);
      var s2 := s1.(pl := Wake(s1.pl, a));
      SaveInv(s2, p, s1.cpu.regs[p].WithV0(status));
      var s3 := Save(s2, p, s1.cpu.regs[p].WithV0(status));
      AddSoftInv(s3, -1);
      ChargeInv(AddSoft(s3, -1), p, t.mid - t.arrive);
    }
  }

  lemma SysWorkInv(s: State, act: Action, t: Times)
    requires Inv(s) && Shape(s) && Rooted(s.fo) && s.pl.current != null
    requires act.Passeren? || act.Verhogen? ==> act.a in s.ct.user
    requires act.WaitIO? ==> LegalDevice(act.line, act.dev)
    requires act.Create? && act.block != null ==> act.block in s.cfg.pool && act.block !in s.pl.live
    requires !(act.Slice? || act.Tick? || act.Device? || act.Fault?)
    ensures Inv(SysWork(s, act, t))
  {
    hide Inv, Shape, Rooted, DoCreate, DoTerminate, DoPasseren, DoVerhogen, DoWaitIO, DoGetTime, DoWaitClock, DoGetSupport;
    match act
    case Create(init, given, block) => CreateInv(s, init, given, block, t);
    case Terminate => TerminateInv(s);
    case Passeren(a) => PasserenInv(s, a, t);
    case Verhogen(a) => VerhogenInv(s, a, t);
    case WaitIO(line, dev, read) => WaitIOInv(s, SemIndex(line, dev, read), t);
    case GetTime => GetTimeInv(s, t);
    case WaitClock => WaitClockInv(s, t);
    case GetSupport => GetSupportInv(s, t);
  }

  lemma FaultInv(s: State, e: Event)
    requires Inv(s) && Shape(s) && Rooted(s.fo) && Enabled(s, e) && e.act.Fault?
    ensures Inv(Work(s, e))
  {
    hide Inv, Rooted, DoTerminate, ChargeCurrent;
    ChargeCurrentInv(s, e.t);
    TerminateInv(s);
  }

  lemma InterruptInv(s: State, e: Event)
    requires Inv(s) && Shape(s) && Rooted(s.fo) && Enabled(s, e) && (e.act.Slice? || e.act.Tick? || e.act.Device?)
    ensures Inv(Work(s, e))
  {
    hide Inv, Rooted, Shape, DoSlice, Ticked, Deliver, Interrupted;
    match e.act
    case Slice => SliceInv(s, e.saved, e.t);
    case Tick =>
      TickedInv(s);
      InvShape(Ticked(s));
      InterruptedInv(Ticked(s), e.saved, e.t);
    case Device(i, status) =>
      DeliverInv(s, i, status, e.t);
      InvShape(Deliver(s, i, status, e.t));
      InterruptedInv(Deliver(s, i, status, e.t), e.saved, e.t);
  }

  /** A system call begins with saving the state of its caller. */
  lemma SavedSysWorkInv(s: State, e: Event)
    requires Inv(s) && Shape(s) && Rooted(s.fo) && Enabled(s, e)
    requires !(e.act.Slice? || e.act.Tick? || e.act.Device? || e.act.Fault?)
    ensures Inv(Work(s, e))
  {
    hide Located, Queued, CurrentOk, Rooted, Kinship, Words, SysWork;
    var s1 := Save(s, s.pl.current, e.saved);
    SaveInv(s, s.pl.current, e.saved);
    InvShape(s1);
    SysWorkInv(s1, e.act, e.t);
  }

  /** Every exception that may happen keeps the invariant. */
  lemma StepInv(s: State, e: Event)
    requires Inv(s) && Enabled(s, e)
    ensures Shape(s) && Rooted(s.fo) && Inv(Step(s, e).state)
  {
    hide Inv, Shape, Rooted, Work, Finish;
    InvShape(s);
    if e.act.Fault? {
      FaultInv(s, e);
    } else if e.act.Slice? || e.act.Tick? || e.act.Device? {
      InterruptInv(s, e);
    } else {
      SavedSysWorkInv(s, e);
    }
    WorkFinishable(s, e);
    FinishInv(s, Work(s, e), e);
  }
}
