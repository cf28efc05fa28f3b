/** Device semaphores, the pseudo-clock and the count of soft-blocked processes, over every run. */
module DeviceSemaphores {
  import opened Collections
  import opened Types
  import opened ActiveSemaphores
  import opened NucleusState
  import opened NucleusInvariants
  import opened NucleusRuns
  import opened UserSemaphores
  import opened Endings

  /** softBlockedCount minus the number of processes that are blocked on a device semaphore. */
  ghost function Excess(s: State): int
    requires s.pl.waitsOn.Keys == s.pl.live
  {
    s.ct.soft - |SoftBlocked(s.cfg, s.pl)|
  }

  // ---------------------------------------------------------------- effect of the moves on SoftBlocked

  lemma SoftBlock(cfg: Config, pl: Places, x: Addr)
    requires Located(pl) && CurrentOk(pl) && pl.current != null
    ensures |SoftBlocked(cfg, Block(pl, x))| == |SoftBlocked(cfg, pl)| + if IsDevAddr(cfg.devBase, x) then 1 else 0
  {
    hide ReadySound, ReadyComplete, BlockedSound, BlockedComplete;
    var w := SoftBlocked(cfg, pl);
    assert pl.current !in w;
    assert SoftBlocked(cfg, Block(pl, x)) == if IsDevAddr(cfg.devBase, x) then w + {pl.current} else w;
  }

  lemma SoftWake(cfg: Config, pl: Places, x: Addr)
    requires Located(pl) && Queued(pl)
    ensures Wake(pl, x).waitsOn.Keys == Wake(pl, x).live
    ensures |SoftBlocked(cfg, Wake(pl, x))| ==
      |SoftBlocked(cfg, pl)| - if x in pl.blocked && IsDevAddr(cfg.devBase, x) then 1 else 0
  {
    hide ReadySound, ReadyComplete, BlockedComplete;
    var w := SoftBlocked(cfg, pl);
    if x in pl.blocked {
      var p := pl.blocked[x][0];
      assert p in pl.blocked[x];
      assert SoftBlocked(cfg, Wake(pl, x)) == w - {p};
      assert IsDevAddr(cfg.devBase, x) <==> p in w;
    }
  }

  lemma SoftWakeAllSet(cfg: Config, pl: Places, x: Addr)
    requires pl.waitsOn.Keys == pl.live && IsDevAddr(cfg.devBase, x) && Elements(QueueOf(pl.blocked, x)) == Waiters(pl, x)
    ensures WakeAll(pl, x).waitsOn.Keys == WakeAll(pl, x).live
    ensures SoftBlocked(cfg, WakeAll(pl, x)) == SoftBlocked(cfg, pl) - Waiters(pl, x)
    ensures Waiters(pl, x) <= SoftBlocked(cfg, pl)
  {
    hide QueueOf;
  }

  lemma SoftWakeAll(cfg: Config, pl: Places, x: Addr)
    requires Located(pl) && Queued(pl) && IsDevAddr(cfg.devBase, x)
    ensures WakeAll(pl, x).waitsOn.Keys == WakeAll(pl, x).live
    ensures |SoftBlocked(cfg, WakeAll(pl, x))| == |SoftBlocked(cfg, pl)| - |QueueOf(pl.blocked, x)|
  {
    hide Located, Queued, WakeAll, SoftBlocked, Waiters, IsDevAddr;
    LocatedDomain(pl);
    SomebodyWaits(pl, x);
    SoftWakeAllSet(cfg, pl, x);
    var w, q := SoftBlocked(cfg, pl), Waiters(pl, x);
    assert w == (w - q) + q;
  }

  lemma SoftKill(cfg: Config, pl: Places, dead: set<Pcb>)
    requires Located(pl)
    ensures KillPlaces(pl, dead).waitsOn.Keys == KillPlaces(pl, dead).live
    ensures |SoftBlocked(cfg, KillPlaces(pl, dead))| == |SoftBlocked(cfg, pl)| - |SoftBlocked(cfg, pl) * dead|
  {
    hide ReadySound, ReadyComplete, BlockedSound, BlockedComplete;
    var w := SoftBlocked(cfg, pl);
    assert SoftBlocked(cfg, KillPlaces(pl, dead)) == w - dead;
    assert w == (w - dead) + (w * dead);
  }

  /** s1 has the counters, device semaphores and waiting processes of s. */
  ghost predicate SameDevs(s: State, s1: State) {
    s1.cfg == s.cfg && s1.ct == s.ct && s1.pl.waitsOn == s.pl.waitsOn && s1.pl.live == s.pl.live
  }

  lemma SameExcess(s: State, s1: State)
    requires s.pl.waitsOn.Keys == s.pl.live && SameDevs(s, s1)
    ensures s1.pl.waitsOn.Keys == s1.pl.live && Excess(s1) == Excess(s)
  {
  }

  lemma ScheduleDevs(s: State, t: Times)
    requires s.pl.ready != [] ==> s.pl.ready[0] in s.cpu.regs
    ensures SameDevs(s, Schedule(s, t).state)
  {
  }

  lemma ChargeDevs(s: State, t: Times)
    requires s.pl.current != null && s.pl.current in s.cpu.time
    ensures SameDevs(s, ChargeCurrent(s, t))
  {
  }

  lemma InterruptDevs(s: State, saved: CpuState, t: Times)
    requires Domains(s) && (s.pl.current != null ==> s.pl.current in s.pl.live)
    ensures SameDevs(s, Interrupted(s, saved, t))
  {
  }

  lemma BlockDevs(s: State, a: Addr, t: Times)
    requires Shape(s) && s.pl.current != null
    ensures SameDevs(s.(pl := Block(s.pl, a)), BlockCurrent(s, a, t))
  {
  }

  // ---------------------------------------------------------------- effect of a step on one device semaphore

  /** What a step does: the excess grows by leak, semaphore i moves by dv, its waiters by dw. */
  ghost predicate DevEffect(s: State, s1: State, i: nat, leak: int, dv: int, dw: int)
    requires s.pl.waitsOn.Keys == s.pl.live && i < |s.ct.dev|
  {
    && s1.cfg == s.cfg && s1.pl.waitsOn.Keys == s1.pl.live && |s1.ct.dev| == |s.ct.dev|
    && Excess(s1) == Excess(s) + leak
    && s1.ct.dev[i] == s.ct.dev[i] + dv
    && |Waiters(s1.pl, DevAddr(s.cfg.devBase, i))| == |Waiters(s.pl, DevAddr(s.cfg.devBase, i))| + dw
  }

  lemma SameDevEffect(s: State, s1: State, i: nat)
    requires s.pl.waitsOn.Keys == s.pl.live && i < |s.ct.dev| && SameDevs(s, s1)
    ensures DevEffect(s, s1, i, 0, 0, 0)
  {
  }

  /** Blocking on x, of a state that differs from s in values of semaphores only. */
  lemma BlockDevEffect(s: State, s0: State, x: Addr, t: Times, i: nat)
    requires Located(s.pl) && CurrentOk(s.pl) && Shape(s0) && s.pl.current != null && i < |s0.ct.dev| == |s.ct.dev|
    requires s0.pl == s.pl && s0.cfg == s.cfg
    ensures var a := DevAddr(s.cfg.devBase, i);
      DevEffect(s, BlockCurrent(s0, x, t), i,
                s0.ct.soft - s.ct.soft - (if IsDevAddr(s.cfg.devBase, x) then 1 else 0),
                s0.ct.dev[i] - s.ct.dev[i], if x == a then 1 else 0)
  {
    hide Located, CurrentOk, BlockCurrent, IsDevAddr, SoftBlocked, Waiters;
    var a := DevAddr(s.cfg.devBase, i);
    WaitersBlock(s.pl, x, a);
    SoftBlock(s.cfg, s.pl, x);
    BlockDevs(s0, x, t);
    var s1 := s0.(pl := Block(s0.pl, x));
    SameDevEffect(s1, BlockCurrent(s0, x, t), i);
  }

  lemma ResumeDevEffect(s: State, s0: State, t: Times, i: nat)
    requires s.pl.waitsOn.Keys == s.pl.live && Shape(s0) && s.pl.current != null && i < |s0.ct.dev| == |s.ct.dev|
    requires s0.pl == s.pl && s0.cfg == s.cfg
    ensures DevEffect(s, ChargeCurrent(s0, t), i, s0.ct.soft - s.ct.soft, s0.ct.dev[i] - s.ct.dev[i], 0)
  {
    hide ChargeCurrent, SoftBlocked, Waiters;
    ChargeDevs(s0, t);
    SameDevEffect(s0, ChargeCurrent(s0, t), i);
  }

  lemma UserDevEffect(s: State, x: Addr, t: Times, i: nat)
    requires Inv(s) && Shape(s) && s.pl.current != null && x in s.ct.user && i < MAX_DEVICE_COUNT
    ensures DevEffect(s, DoPasseren(s, x, t), i, 0, 0, 0)
    ensures DevEffect(s, DoVerhogen(s, x, t), i, 0, 0, 0)
  {
    hide Located, Queued, CurrentOk, Rooted, Kinship, Domains, Words,
      BlockCurrent, ChargeCurrent, Waiters, SoftBlocked, IsDevAddr, DevAddr;
    UserNotDevice(s, x);
    UserNotInRange(s, x);
    var v := s.ct.user[x] - 1;
    SetUserInv(s, x, v);
    InvShape(SetUser(s, x, v));
    BlockDevEffect(s, SetUser(s, x, v), x, t, i);
    ResumeDevEffect(s, SetUser(s, x, v), t, i);
    VerhogenDevEffect(s, x, t, i);
  }

  lemma UserNotInRange(s: State, x: Addr)
    requires Words(s) && x in s.ct.user
    ensures !IsDevAddr(s.cfg.devBase, x)
  {
  }

  lemma VerhogenDevEffect(s: State, x: Addr, t: Times, i: nat)
    requires Inv(s) && Shape(s) && s.pl.current != null && x in s.ct.user && i < MAX_DEVICE_COUNT
    ensures DevEffect(s, DoVerhogen(s, x, t), i, 0, 0, 0)
  {
    hide Located, Queued, CurrentOk, Rooted, Kinship, Domains, Words,
      BlockCurrent, ChargeCurrent, Waiters, SoftBlocked, IsDevAddr, DevAddr;
    UserNotDevice(s, x);
    UserNotInRange(s, x);
    var v := s.ct.user[x] + 1;
    var s1 := SetUser(s, x, v);
    SetUserInv(s, x, v);
    InvShape(s1);
    WakeInv(s1, x);
    var s2 := s1.(pl := Wake(s1.pl, x));
    InvShape(s2);
    WaitersWake(s.pl, x, DevAddr(s.cfg.devBase, i));
    SoftWake(s.cfg, s.pl, x);
    ResumeDevEffect(s, s1, t, i);
    ResumeDevEffect(s2, s2, t, i);
  }

  lemma TerminateDevEffect(s: State, i: nat)
    requires Located(s.pl) && Rooted(s.fo) && Shape(s) && s.pl.current != null && i < MAX_DEVICE_COUNT
    ensures DevEffect(s, DoTerminate(s), i, 0, 0,
                      -|Waiters(s.pl, DevAddr(s.cfg.devBase, i)) * Subtree(s.fo, s.pl.current)|)
  {
    hide Located, Rooted, Subtree, Minus, PruneKids, Waiters, SoftBlocked;
    var dead, a := Subtree(s.fo, s.pl.current), DevAddr(s.cfg.devBase, i);
    WaitersKill(s.pl, dead, a);
    SoftKill(s.cfg, s.pl, dead);
    var w := Waiters(s.pl, a);
    assert |w - dead| == |w| - |w * dead| by {
      assert w == (w - dead) + (w * dead);
    }
    IdleSame(s.cfg, Kill(s, dead).pl, a);
  }

  lemma IdleSame(cfg: Config, pl: Places, a: Addr)
    requires pl.waitsOn.Keys == pl.live
    ensures Waiters(Idle(pl), a) == Waiters(pl, a) && SoftBlocked(cfg, Idle(pl)) == SoftBlocked(cfg, pl)
  {
  }

  lemma CreateDevEffect(s: State, init: CpuState, given: Option<int>, p: Pcb?, t: Times, i: nat)
    requires Shape(s) && s.pl.current != null && (p != null ==> p in s.cfg.pool && p !in s.pl.live)
    requires i < MAX_DEVICE_COUNT
    ensures DevEffect(s, DoCreate(s, init, given, p, t), i, 0, 0, 0)
  {
    hide ChargeCurrent, Waiters, SoftBlocked, Born;
    var cur := s.pl.current;
    if p != null {
      BornShape(s, init, given, p);
      BornKeeps(s, init, given, p);
      BornSame(s, init, given, p, DevAddr(s.cfg.devBase, i));
      var s1 := Born(s, init, given, p);
      SavedResumeDevEffect(s1, s1.cpu.regs[cur].WithV0(SUCCESS), t, i);
    } else {
      SavedResumeDevEffect(s, s.cpu.regs[cur].WithV0(ERROR), t, i);
    }
  }

  lemma BornSame(s: State, init: CpuState, given: Option<int>, p: Pcb, a: Addr)
    requires Shape(s) && s.pl.current != null && p !in s.pl.live
    ensures s.pl.current in s.fo.kids && Born(s, init, given, p).cfg == s.cfg
    ensures var pl := Born(s, init, given, p).pl;
      (pl.waitsOn.Keys == pl.live
       && Waiters(pl, a) == Waiters(s.pl, a) && SoftBlocked(s.cfg, pl) == SoftBlocked(s.cfg, s.pl))
  {
  }

  lemma SavedResumeDevEffect(s: State, cs: CpuState, t: Times, i: nat)
    requires Shape(s) && s.pl.current != null && i < MAX_DEVICE_COUNT
    ensures DevEffect(s, ChargeCurrent(Save(s, s.pl.current, cs), t), i, 0, 0, 0)
  {
    hide ChargeCurrent, Waiters, SoftBlocked;
    ChargeDevs(Save(s, s.pl.current, cs), t);
    SameDevEffect(s, ChargeCurrent(Save(s, s.pl.current, cs), t), i);
  }

  lemma QuietDevEffect(s: State, saved: CpuState, t: Times, i: nat)
    requires Shape(s) && i < MAX_DEVICE_COUNT
    ensures s.pl.current != null ==> DevEffect(s, DoGetTime(s, t), i, 0, 0, 0)
    ensures s.pl.current != null ==> DevEffect(s, DoGetSupport(s, t), i, 0, 0, 0)
    ensures s.pl.current != null ==> DevEffect(s, ChargeCurrent(s, t), i, 0, 0, 0)
    ensures DevEffect(s, DoSlice(s, saved, t), i, 0, 0, 0)
  {
    hide Waiters, SoftBlocked;
    if s.pl.current != null {
      SameDevEffect(s, DoGetTime(s, t), i);
      SameDevEffect(s, DoGetSupport(s, t), i);
      SameDevEffect(s, ChargeCurrent(s, t), i);
    }
    SameDevEffect(s, DoSlice(s, saved, t), i);
  }

  lemma WaitIODevEffect(s: State, j: nat, t: Times, i: nat)
    requires Located(s.pl) && CurrentOk(s.pl) && Shape(s) && s.pl.current != null
    requires j < CLOCK_INDEX && i < MAX_DEVICE_COUNT
    ensures var blocks := s.ct.dev[j] - 1 < 0;
      DevEffect(s, DoWaitIO(s, j, t), i, if blocks then 0 else 1,
                if i == j then -1 else 0, if i == j && blocks then 1 else 0)
  {
    hide Located, CurrentOk, BlockCurrent, ChargeCurrent, Waiters, SoftBlocked;
    var s1 := SetDev(AddSoft(s, 1), j, s.ct.dev[j] - 1);
    BlockDevEffect(s, s1, DevAddr(s.cfg.devBase, j), t, i);
    ResumeDevEffect(s, s1, t, i);
  }

  lemma WaitClockDevEffect(s: State, t: Times, i: nat)
    requires Located(s.pl) && CurrentOk(s.pl) && Shape(s) && s.pl.current != null && i < MAX_DEVICE_COUNT
    ensures var blocks := s.ct.dev[CLOCK_INDEX] - 1 < 0;
      DevEffect(s, DoWaitClock(s, t), i, 0,
                if i == CLOCK_INDEX then -1 else 0, if i == CLOCK_INDEX && blocks then 1 else 0)
  {
    hide Located, CurrentOk, BlockCurrent, ChargeCurrent, Waiters, SoftBlocked;
    var s1 := SetDev(s, CLOCK_INDEX, s.ct.dev[CLOCK_INDEX] - 1);
    BlockDevEffect(s, AddSoft(s1, 1), DevAddr(s.cfg.devBase, CLOCK_INDEX), t, i);
    ResumeDevEffect(s, s1, t, i);
  }

  lemma TickDevEffect(s: State, saved: CpuState, t: Times, i: nat)
    requires Located(s.pl) && Queued(s.pl) && Shape(s) && i < MAX_DEVICE_COUNT
    ensures var a := DevAddr(s.cfg.devBase, i);
      && Domains(Ticked(s)) && Ticked(s).pl.current == s.pl.current && Ticked(s).pl.live == s.pl.live
      && DevEffect(s, Interrupted(Ticked(s), saved, t), i, 0,
                if i == CLOCK_INDEX then -s.ct.dev[i] else 0, if i == CLOCK_INDEX then -|Waiters(s.pl, a)| else 0)
  {
    hide Located, Queued, Interrupted, Waiters, SoftBlocked, WakeAll;
    var x := DevAddr(s.cfg.devBase, CLOCK_INDEX);
    WaitersWakeAll(s.pl, x, DevAddr(s.cfg.devBase, i));
    SoftWakeAll(s.cfg, s.pl, x);
    WakeAllKeeps(s.pl, x);
    var s1 := Ticked(s);
    InterruptDevs(s1, saved, t);
    SameDevEffect(s1, Interrupted(s1, saved, t), i);
  }

  lemma DeliverDevEffect(s: State, j: nat, status: int, t: Times, i: nat)
    requires Inv(s) && Shape(s) && j < CLOCK_INDEX && i < MAX_DEVICE_COUNT
    ensures DevEffect(s, Deliver(s, j, status, t), i, 0, if i == j then 1 else 0,
                      if i == j && DevAddr(s.cfg.devBase, j) in s.pl.blocked then -1 else 0)
  {
    hide Located, Queued, CurrentOk, Rooted, Kinship, Domains, Words, Waiters, SoftBlocked;
    var x := DevAddr(s.cfg.devBase, j);
    WaitersWake(s.pl, x, DevAddr(s.cfg.devBase, i));
    SoftWake(s.cfg, s.pl, x);
  }

  lemma DeviceDevEffect(s: State, j: nat, status: int, saved: CpuState, t: Times, i: nat)
    requires Inv(s) && Shape(s) && j < CLOCK_INDEX && i < MAX_DEVICE_COUNT
    ensures Shape(Deliver(s, j, status, t))
    ensures DevEffect(s, Interrupted(Deliver(s, j, status, t), saved, t), i, 0, if i == j then 1 else 0,
                      if i == j && DevAddr(s.cfg.devBase, j) in s.pl.blocked then -1 else 0)
  {
    hide Inv, Interrupted, Deliver, Waiters, SoftBlocked;
    var s1 := Deliver(s, j, status, t);
    DeliverInv(s, j, status, t);
    InvShape(s1);
    DeliverDevEffect(s, j, status, t, i);
    InterruptDevs(s1, saved, t);
    SameDevEffect(s1, Interrupted(s1, saved, t), i);
  }

  // ---------------------------------------------------------------- the effect of any step

  /** The exception is a SYS5 that finds its semaphore positive, so that it does not block. */
  ghost predicate Slips(s: State, e: Event)
    requires Shape(s) && Enabled(s, e)
  {
    e.act.WaitIO? && s.ct.dev[SemIndex(e.act.line, e.act.dev, e.act.read)] > 0
  }

  ghost function DevChange(s: State, e: Event, i: nat): int
    requires Shape(s) && Enabled(s, e) && i < MAX_DEVICE_COUNT
  {
    match e.act
    case WaitIO(line, dev, read) => if i == SemIndex(line, dev, read) then -1 else 0
    case WaitClock => if i == CLOCK_INDEX then -1 else 0
    case Device(j, _) => if i == j then 1 else 0
    case Tick => if i == CLOCK_INDEX then -s.ct.dev[i] else 0
    case _ => 0
  }

  ghost function DevWaiterChange(s: State, e: Event, i: nat): int
    requires Shape(s) && Rooted(s.fo) && Enabled(s, e) && i < MAX_DEVICE_COUNT
  {
    var a := DevAddr(s.cfg.devBase, i);
    match e.act
    case WaitIO(line, dev, read) => if i == SemIndex(line, dev, read) && s.ct.dev[i] - 1 < 0 then 1 else 0
    case WaitClock => if i == CLOCK_INDEX && s.ct.dev[i] - 1 < 0 then 1 else 0
    case Device(j, _) => if i == j && a in s.pl.blocked then -1 else 0
    case Tick => if i == CLOCK_INDEX then -|Waiters(s.pl, a)| else 0
    case _ => -|Killed(s, e, a)|
  }

  lemma StepDevEffect(s: State, e: Event, i: nat)
    requires Inv(s) && Shape(s) && Enabled(s, e) && i < MAX_DEVICE_COUNT
    ensures DevEffect(s, Step(s, e).state, i, if Slips(s, e) then 1 else 0, DevChange(s, e, i), DevWaiterChange(s, e, i))
  {
    hide Inv, Enabled, Rooted, Work, Step, Waiters, SoftBlocked, DevChange, DevWaiterChange, Domains;
    InvShape(s);
    WorkDevEffect(s, e, i);
    FinishKeeps(s, e);
    SameDevEffect(Work(s, e), Step(s, e).state, i);
  }

  lemma WorkDevEffect(s: State, e: Event, i: nat)
    requires Inv(s) && Shape(s) && Rooted(s.fo) && Enabled(s, e) && i < MAX_DEVICE_COUNT
    ensures DevEffect(s, Work(s, e), i, if Slips(s, e) then 1 else 0, DevChange(s, e, i), DevWaiterChange(s, e, i))
  {
    hide Located, Queued, CurrentOk, Rooted, Kinship, Domains, Words, DoTerminate, ChargeCurrent,
      DoSlice, Ticked, Deliver, Interrupted, SysWork, Waiters, SoftBlocked, Subtree;
    match e.act
    case Fault =>
      TerminateDevEffect(s, i);
      QuietDevEffect(s, e.saved, e.t, i);
    case Slice => QuietDevEffect(s, e.saved, e.t, i);
    case Tick => TickDevEffect(s, e.saved, e.t, i);
    case Device(j, status) => DeviceDevEffect(s, j, status, e.saved, e.t, i);
    case _ => SysCallDevEffect(s, e, i);
  }

  lemma SysCallDevEffect(s: State, e: Event, i: nat)
    requires Inv(s) && Shape(s) && Rooted(s.fo) && Enabled(s, e) && i < MAX_DEVICE_COUNT
    requires !(e.act.Slice? || e.act.Tick? || e.act.Device? || e.act.Fault?)
    ensures DevEffect(s, Work(s, e), i, if Slips(s, e) then 1 else 0, DevChange(s, e, i), DevWaiterChange(s, e, i))
  {
    hide Located, Queued, CurrentOk, Rooted, Kinship, Domains, Words, Subtree, Waiters, SoftBlocked, BlockCurrent,
      ChargeCurrent, DoCreate, DoTerminate, DoPasseren, DoVerhogen, DoWaitIO, DoGetTime, DoWaitClock, DoGetSupport;
    var s0 := Save(s, s.pl.current, e.saved);
    SaveInv(s, s.pl.current, e.saved);
    InvShape(s0);
    match e.act
    case Create(init, given, block) => CreateDevEffect(s0, init, given, block, e.t, i);
    case Terminate => TerminateDevEffect(s0, i);
    case Passeren(x) => UserDevEffect(s0, x, e.t, i);
    case Verhogen(x) => UserDevEffect(s0, x, e.t, i);
    case WaitIO(line, dev, read) => WaitIODevEffect(s0, SemIndex(line, dev, read), e.t, i);
    case GetTime => QuietDevEffect(s0, e.saved, e.t, i);
    case WaitClock => WaitClockDevEffect(s0, e.t, i);
    case GetSupport => QuietDevEffect(s0, e.saved, e.t, i);
  }

  // ---------------------------------------------------------------- the laws

  /** Device semaphore i has at most as many waiters as its negative value says; the clock is never positive. */
  ghost predicate Bounded(s: State, i: nat)
    requires s.pl.waitsOn.Keys == s.pl.live
  {
    && i < |s.ct.dev|
    && |Waiters(s.pl, DevAddr(s.cfg.devBase, i))| <= Positive(-s.ct.dev[i])
    && (i == CLOCK_INDEX ==> s.ct.dev[i] <= 0)
  }

  lemma BoundedStep(s: State, e: Event, i: nat)
    requires Inv(s) && Shape(s) && Enabled(s, e) && i < MAX_DEVICE_COUNT && Bounded(s, i)
    ensures var s1 := Step(s, e).state; s1.pl.waitsOn.Keys == s1.pl.live && Bounded(s1, i)
  {
    hide Located, Queued, CurrentOk, Rooted, Kinship, Domains, Words, Step, Waiters, SoftBlocked, Subtree;
    StepDevEffect(s, e, i);
    KilledWaited(s, e, DevAddr(s.cfg.devBase, i));
    SomebodyWaits(s.pl, DevAddr(s.cfg.devBase, i));
    if e.act.Device? {
      assert |Waiters(s.pl, DevAddr(s.cfg.devBase, i))| >= 0;
    }
  }

  /** In every reachable state, blocked(i) <= max(0, -semaphoreDevices[i]), and the clock semaphore is not positive. */
  lemma {:induction false} BoundedOverRuns(b: State, es: seq<Event>, i: nat)
    requires Inv(b) && Possible(b, es) && Shape(b) && i < MAX_DEVICE_COUNT && Bounded(b, i)
    ensures var s := Exec(b, es); s.pl.waitsOn.Keys == s.pl.live && Bounded(s, i)
  {
    hide Inv, Shape, Bounded, Enabled, Step;
    if es == [] {
      InvDomain(b);
    } else {
      var s := Exec(b, Front(es));
      BoundedOverRuns(b, Front(es), i);
      InvShape(s);
      BoundedStep(s, Last(es), i);
    }
  }

  lemma ClockWork(s: State, e: Event)
    requires Shape(s) && Rooted(s.fo) && Enabled(s, e) && e.act == WaitClock && s.ct.dev[CLOCK_INDEX] <= 0
    ensures var m := Work(s, e);
      s.pl.current in m.pl.waitsOn && m.pl.waitsOn[s.pl.current] == Some(DevAddr(s.cfg.devBase, CLOCK_INDEX))
  {
    hide Rooted, Domains;
  }

  lemma ClockBlocks(s: State, e: Event)
    requires Inv(s) && Shape(s) && Enabled(s, e) && e.act == WaitClock && Bounded(s, CLOCK_INDEX)
    ensures var s1 := Step(s, e).state;
      s.pl.current in s1.pl.waitsOn && s1.pl.waitsOn[s.pl.current] == Some(DevAddr(s.cfg.devBase, CLOCK_INDEX))
  {
    hide Located, Queued, CurrentOk, Rooted, Kinship, Words, Work, Step, Waiters;
    FinishKeeps(s, e);
    ClockWork(s, e);
  }

  /** In every reachable state, SYS7 blocks its caller. */
  lemma WaitClockAlwaysBlocks(b: State, es: seq<Event>)
    requires Inv(b) && Possible(b, es) && Shape(b) && Bounded(b, CLOCK_INDEX)
    requires es != [] && Last(es).act == WaitClock
    ensures var s, s1 := Exec(b, Front(es)), Exec(b, es);
      && s.pl.current in s1.pl.waitsOn && s.pl.current != s1.pl.current
      && s1.pl.waitsOn[s.pl.current] == Some(DevAddr(s.cfg.devBase, CLOCK_INDEX))
  {
    hide Located, Queued, Rooted, Kinship, Domains, Words, Shape, Bounded, Enabled, Step;
    var s := Exec(b, Front(es));
    BoundedOverRuns(b, Front(es), CLOCK_INDEX);
    InvShape(s);
    ClockBlocks(s, Last(es));
  }

  // ---------------------------------------------------------------- the count of soft-blocked processes

  /** How many SYS5 calls of the run did not block. */
  ghost function SlipsOf(b: State, es: seq<Event>): nat
    requires Inv(b) && Possible(b, es)
  {
    if es == [] then 0
    else
      var s := Exec(b, Front(es));
      InvShape(s);
      SlipsOf(b, Front(es)) + if Slips(s, Last(es)) then 1 else 0
  }

  /**
    In every reachable state, softBlockedCount exceeds the number of processes blocked on device
    semaphores by exactly the number of SYS5 calls that did not block.
    */
  lemma {:induction false} SoftCountOverRuns(b: State, es: seq<Event>)
    requires Inv(b) && Shape(b) && Possible(b, es)
    ensures Exec(b, es).pl.waitsOn.Keys == Exec(b, es).pl.live
    ensures Excess(Exec(b, es)) == Excess(b) + SlipsOf(b, es)
  {
    hide Inv, Shape, Slips, Excess, Enabled, Step;
    if es == [] {
      InvDomain(b);
    } else {
      var s := Exec(b, Front(es));
      SoftCountOverRuns(b, Front(es));
      InvShape(s);
      StepDevEffect(s, Last(es), 0);
    }
  }
}
