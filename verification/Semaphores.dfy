/** What P and V on user semaphores promise, over every run. */
module UserSemaphores {
  import opened Collections
  import opened Types
  import opened NucleusState
  import opened NucleusInvariants
  import opened NucleusRuns
  import opened Endings

  ghost function Positive(x: int): nat {
    if x > 0 then x else 0
  }

  /** The value of a, when negative, counts the processes blocked on a. */
  ghost predicate Counts(s: State, a: Addr)
    requires s.pl.waitsOn.Keys == s.pl.live
  {
    a in s.ct.user && |Waiters(s.pl, a)| == Positive(-s.ct.user[a])
  }

  /** s1 has the user semaphores and waiting processes of s. */
  ghost predicate SameSems(s: State, s1: State) {
    s1.ct.user == s.ct.user && s1.pl.waitsOn == s.pl.waitsOn && s1.pl.live == s.pl.live
  }

  lemma SameWaiters(s: State, s1: State, a: Addr)
    requires s.pl.waitsOn.Keys == s.pl.live && SameSems(s, s1)
    ensures s1.pl.waitsOn.Keys == s1.pl.live && Waiters(s1.pl, a) == Waiters(s.pl, a)
  {
  }

  // ---------------------------------------------------------------- effect of the actions on user semaphores

  lemma ChargeSems(s: State, t: Times)
    requires s.pl.current != null && s.pl.current in s.cpu.time
    ensures SameSems(s, ChargeCurrent(s, t))
  {
  }

  lemma InterruptSems(s: State, saved: CpuState, t: Times)
    requires Domains(s) && (s.pl.current != null ==> s.pl.current in s.pl.live)
    ensures SameSems(s, Interrupted(s, saved, t))
  {
  }

  lemma BlockSems(s: State, a: Addr, t: Times)
    requires Shape(s) && s.pl.current != null
    ensures SameSems(s.(pl := Block(s.pl, a)), BlockCurrent(s, a, t))
  {
  }

  /** What a step does to the semaphore at a: its value moves by dv, its number of waiters by dw. */
  ghost predicate Effect(s: State, s1: State, a: Addr, dv: int, dw: int)
    requires s.pl.waitsOn.Keys == s.pl.live && a in s.ct.user
  {
    && s1.pl.waitsOn.Keys == s1.pl.live && a in s1.ct.user
    && s1.ct.user[a] == s.ct.user[a] + dv
    && |Waiters(s1.pl, a)| == |Waiters(s.pl, a)| + dw
  }

  lemma PasserenEffect(s: State, x: Addr, t: Times, a: Addr)
    requires Located(s.pl) && CurrentOk(s.pl) && Shape(s) && s.pl.current != null && x in s.ct.user && a in s.ct.user
    ensures var s' := DoPasseren(s, x, t);
      if x != a then Effect(s, s', a, 0, 0)
      else Effect(s, s', a, -1, if s.ct.user[a] - 1 < 0 then 1 else 0)
  {
    hide Located, CurrentOk, BlockCurrent, ChargeCurrent;
    WaitersBlock(s.pl, x, a);
    var s1 := SetUser(s, x, s.ct.user[x] - 1);
    BlockSems(s1, x, t);
    ChargeSems(s1, t);
  }

  lemma VerhogenEffect(s: State, x: Addr, t: Times, a: Addr)
    requires Located(s.pl) && Queued(s.pl) && Shape(s)
    requires s.pl.current != null && x in s.ct.user && a in s.ct.user
    ensures var s' := DoVerhogen(s, x, t);
      if x != a then Effect(s, s', a, 0, 0)
      else Effect(s, s', a, 1, if s.ct.user[a] + 1 <= 0 && a in s.pl.blocked then -1 else 0)
  {
    hide Located, Queued, ChargeCurrent;
    WaitersWake(s.pl, x, a);
    var s1 := SetUser(s, x, s.ct.user[x] + 1);
    ChargeSems(s1, t);
    ChargeSems(s1.(pl := Wake(s1.pl, x)), t);
  }

  /** SYS5, SYS7: the semaphore at issue is not a user semaphore. */
  lemma DeviceWaitEffect(s: State, s1: State, x: Addr, t: Times, a: Addr)
    requires Located(s.pl) && CurrentOk(s.pl) && Shape(s1) && s.pl.current != null && a in s.ct.user && a != x
    requires s1.pl == s.pl && s1.ct.user == s.ct.user
    ensures Effect(s, BlockCurrent(s1, x, t), a, 0, 0)
    ensures Effect(s, ChargeCurrent(s1, t), a, 0, 0)
  {
    hide Located, CurrentOk, BlockCurrent, ChargeCurrent;
    WaitersBlock(s.pl, x, a);
    BlockSems(s1, x, t);
    ChargeSems(s1, t);
  }

  lemma WaitIOEffect(s: State, i: nat, t: Times, a: Addr)
    requires Located(s.pl) && CurrentOk(s.pl) && Shape(s) && s.pl.current != null && a in s.ct.user
    requires i < CLOCK_INDEX && a != DevAddr(s.cfg.devBase, i)
    ensures Effect(s, DoWaitIO(s, i, t), a, 0, 0)
  {
    hide Located, CurrentOk, BlockCurrent, ChargeCurrent, Waiters;
    DeviceWaitEffect(s, SetDev(AddSoft(s, 1), i, s.ct.dev[i] - 1), DevAddr(s.cfg.devBase, i), t, a);
  }

  lemma WaitClockEffect(s: State, t: Times, a: Addr)
    requires Located(s.pl) && CurrentOk(s.pl) && Shape(s) && s.pl.current != null && a in s.ct.user
    requires a != DevAddr(s.cfg.devBase, CLOCK_INDEX)
    ensures Effect(s, DoWaitClock(s, t), a, 0, 0)
  {
    hide Located, CurrentOk, BlockCurrent, ChargeCurrent, Waiters;
    var s1 := SetDev(s, CLOCK_INDEX, s.ct.dev[CLOCK_INDEX] - 1);
    DeviceWaitEffect(s, AddSoft(s1, 1), DevAddr(s.cfg.devBase, CLOCK_INDEX), t, a);
    DeviceWaitEffect(s, s1, DevAddr(s.cfg.devBase, CLOCK_INDEX), t, a);
  }

  lemma SameEffect(s: State, s1: State, s2: State, a: Addr, dv: int, dw: int)
    requires s.pl.waitsOn.Keys == s.pl.live && a in s.ct.user && Effect(s, s1, a, dv, dw) && SameSems(s1, s2)
    ensures Effect(s, s2, a, dv, dw)
  {
    hide Waiters;
    SameWaiters(s1, s2, a);
  }

  lemma KillEffect(s: State, dead: set<Pcb>, a: Addr)
    requires Located(s.pl) && s.pl.waitsOn.Keys == s.pl.live && a in s.ct.user
    ensures var s1, gone := Kill(s, dead), |Waiters(s.pl, a) * dead|;
      Effect(s, s1.(pl := Idle(s1.pl)), a, gone, -gone)
  {
    hide Located, Waiters, Minus, PruneQueues, SoftBlocked;
    WaitersKill(s.pl, dead, a);
    var w := Waiters(s.pl, a);
    assert w == (w - dead) + (w * dead);
    IdleWaiters(Kill(s, dead).pl, a);
  }

  lemma IdleWaiters(pl: Places, a: Addr)
    requires pl.waitsOn.Keys == pl.live
    ensures Waiters(Idle(pl), a) == Waiters(pl, a)
  {
  }

  lemma TerminateEffect(s: State, a: Addr)
    requires Located(s.pl) && Rooted(s.fo) && Shape(s) && s.pl.current != null && a in s.ct.user
    ensures var gone := |Waiters(s.pl, a) * Subtree(s.fo, s.pl.current)|;
      Effect(s, DoTerminate(s), a, gone, -gone)
  {
    hide Located, Rooted, Subtree, Kill, Waiters;
    KillEffect(s, Subtree(s.fo, s.pl.current), a);
  }

  lemma WaitersBorn(s: State, init: CpuState, given: Option<int>, p: Pcb, a: Addr)
    requires Shape(s) && s.pl.current != null && p !in s.pl.live
    ensures s.pl.current in s.fo.kids && Born(s, init, given, p).pl.waitsOn.Keys == Born(s, init, given, p).pl.live
    ensures Waiters(Born(s, init, given, p).pl, a) == Waiters(s.pl, a)
  {
  }

  lemma SavedResumeEffect(s: State, cs: CpuState, t: Times, a: Addr)
    requires Domains(s) && s.pl.current != null && s.pl.current in s.pl.live
    requires s.pl.waitsOn.Keys == s.pl.live && a in s.ct.user
    ensures Effect(s, ChargeCurrent(Save(s, s.pl.current, cs), t), a, 0, 0)
  {
    hide ChargeCurrent, Waiters;
    var s1 := Save(s, s.pl.current, cs);
    ChargeSems(s1, t);
    SameWaiters(s, ChargeCurrent(s1, t), a);
  }

  lemma CreateEffect(s: State, init: CpuState, given: Option<int>, p: Pcb?, t: Times, a: Addr)
    requires Shape(s) && s.pl.current != null && (p != null ==> p in s.cfg.pool && p !in s.pl.live) && a in s.ct.user
    ensures Effect(s, DoCreate(s, init, given, p, t), a, 0, 0)
  {
    hide ChargeCurrent, Waiters, Born;
    var cur := s.pl.current;
    if p != null {
      BornShape(s, init, given, p);
      BornKeeps(s, init, given, p);
      WaitersBorn(s, init, given, p, a);
      var s1 := Born(s, init, given, p);
      SavedResumeEffect(s1, s1.cpu.regs[cur].WithV0(SUCCESS), t, a);
    } else {
      SavedResumeEffect(s, s.cpu.regs[cur].WithV0(ERROR), t, a);
    }
  }

  /** The actions that touch neither semaphores nor waiting processes. */
  lemma QuietEffect(s: State, saved: CpuState, t: Times, a: Addr)
    requires Shape(s) && a in s.ct.user
    ensures s.pl.current != null ==> Effect(s, DoGetTime(s, t), a, 0, 0)
    ensures s.pl.current != null ==> Effect(s, DoGetSupport(s, t), a, 0, 0)
    ensures s.pl.current != null ==> Effect(s, ChargeCurrent(s, t), a, 0, 0)
    ensures Effect(s, DoSlice(s, saved, t), a, 0, 0)
  {
  }

  lemma TickEffect(s: State, saved: CpuState, t: Times, a: Addr)
    requires Located(s.pl) && Shape(s) && a in s.ct.user && a != DevAddr(s.cfg.devBase, CLOCK_INDEX)
    ensures Domains(Ticked(s)) && Ticked(s).pl.current == s.pl.current && Ticked(s).pl.live == s.pl.live
    ensures Effect(s, Interrupted(Ticked(s), saved, t), a, 0, 0)
  {
    hide Located, Interrupted, WakeAll;
    var x := DevAddr(s.cfg.devBase, CLOCK_INDEX);
    WaitersWakeAll(s.pl, x, a);
    WakeAllKeeps(s.pl, x);
    InterruptSems(Ticked(s), saved, t);
  }

  lemma WakeAllKeeps(pl: Places, x: Addr)
    ensures WakeAll(pl, x).live == pl.live && WakeAll(pl, x).current == pl.current
  {
  }

  lemma DeviceEffect(s: State, i: nat, status: int, saved: CpuState, t: Times, a: Addr)
    requires Inv(s) && Shape(s) && i < CLOCK_INDEX && a in s.ct.user && a != DevAddr(s.cfg.devBase, i)
    ensures Shape(Deliver(s, i, status, t))
    ensures Effect(s, Interrupted(Deliver(s, i, status, t), saved, t), a, 0, 0)
  {
    hide Inv, Interrupted, Deliver;
    DeliverInv(s, i, status, t);
    InvShape(Deliver(s, i, status, t));
    DeliverEffect(s, i, status, t, a);
    InterruptSems(Deliver(s, i, status, t), saved, t);
  }

  lemma DeliverEffect(s: State, i: nat, status: int, t: Times, a: Addr)
    requires Inv(s) && Shape(s) && i < CLOCK_INDEX && a in s.ct.user && a != DevAddr(s.cfg.devBase, i)
    ensures Effect(s, Deliver(s, i, status, t), a, 0, 0)
  {
    hide Located, Queued, CurrentOk, Rooted, Kinship, Domains, Words;
    WaitersWake(s.pl, DevAddr(s.cfg.devBase, i), a);
  }

  // ---------------------------------------------------------------- the effect of any step

  /** The exception ends the current process and its descendants. */
  ghost predicate Kills(s: State, e: Event)
    requires Shape(s) && Enabled(s, e)
  {
    e.act.Terminate? || (e.act.Fault? && s.cpu.support[s.pl.current] == None)
  }

  /** Processes that the exception ends while they wait for a. */
  ghost function Killed(s: State, e: Event, a: Addr): set<Pcb>
    requires Shape(s) && Rooted(s.fo) && Enabled(s, e)
  {
    if Kills(s, e) then Waiters(s.pl, a) * Subtree(s.fo, s.pl.current) else {}
  }

  /** The exception is a P on a that blocks its caller. */
  ghost predicate BlocksOn(s: State, e: Event, a: Addr) {
    e.act == Passeren(a) && a in s.ct.user && s.ct.user[a] - 1 < 0
  }

  /** The exception is a V on a that wakes a process. */
  ghost predicate WakesOn(s: State, e: Event, a: Addr) {
    e.act == Verhogen(a) && a in s.ct.user && s.ct.user[a] + 1 <= 0 && a in s.pl.blocked
  }

  ghost function ValueChange(s: State, e: Event, a: Addr): int
    requires Shape(s) && Rooted(s.fo) && Enabled(s, e)
  {
    if e.act == Passeren(a) then -1 else if e.act == Verhogen(a) then 1 else |Killed(s, e, a)|
  }

  ghost function WaiterChange(s: State, e: Event, a: Addr): int
    requires Shape(s) && Rooted(s.fo) && Enabled(s, e)
  {
    if BlocksOn(s, e, a) then 1 else if WakesOn(s, e, a) then -1 else -|Killed(s, e, a)|
  }

  lemma StepEffect(s: State, e: Event, a: Addr)
    requires Inv(s) && Shape(s) && Enabled(s, e) && a in s.ct.user
    ensures Effect(s, Step(s, e).state, a, ValueChange(s, e, a), WaiterChange(s, e, a))
  {
    hide Inv, Shape, Enabled, Rooted, Work, Step, Effect, ValueChange, WaiterChange;
    InvShape(s);
    WorkEffect(s, e, a);
    FinishKeeps(s, e);
    InvDomain(s);
    SameEffect(s, Work(s, e), Step(s, e).state, a, ValueChange(s, e, a), WaiterChange(s, e, a));
  }

  lemma WorkEffect(s: State, e: Event, a: Addr)
    requires Inv(s) && Shape(s) && Rooted(s.fo) && Enabled(s, e) && a in s.ct.user
    ensures Effect(s, Work(s, e), a, ValueChange(s, e, a), WaiterChange(s, e, a))
  {
    hide Located, Queued, CurrentOk, Rooted, Kinship, Domains, IsDevAddr,
      DoTerminate, DoSlice, Ticked, Deliver, Interrupted, SysWork, Waiters, Subtree, ChargeCurrent;
    UserNotDevice(s, a);
    match e.act
    case Fault =>
      QuietEffect(s, e.saved, e.t, a);
      TerminateEffect(s, a);
    case Slice => QuietEffect(s, e.saved, e.t, a);
    case Tick => TickEffect(s, e.saved, e.t, a);
    case Device(i, status) => DeviceEffect(s, i, status, e.saved, e.t, a);
    case _ => SysCallEffect(s, e, a);
  }

  lemma UserNotDevice(s: State, a: Addr)
    requires Words(s) && a in s.ct.user
    ensures forall i: nat | i < MAX_DEVICE_COUNT :: a != DevAddr(s.cfg.devBase, i)
  {
  }

  lemma SysCallEffect(s: State, e: Event, a: Addr)
    requires Inv(s) && Shape(s) && Rooted(s.fo) && Enabled(s, e) && a in s.ct.user
    requires !(e.act.Slice? || e.act.Tick? || e.act.Device? || e.act.Fault?)
    ensures Effect(s, Work(s, e), a, ValueChange(s, e, a), WaiterChange(s, e, a))
  {
    hide Located, Queued, CurrentOk, Rooted, Kinship, Domains, IsDevAddr, Subtree, Waiters, BlockCurrent, ChargeCurrent,
      DoCreate, DoTerminate, DoPasseren, DoVerhogen, DoWaitIO, DoGetTime, DoWaitClock, DoGetSupport;
    UserNotDevice(s, a);
    var s0 := Save(s, s.pl.current, e.saved);
    SaveInv(s, s.pl.current, e.saved);
    InvShape(s0);
    match e.act
    case Create(init, given, block) => CreateEffect(s0, init, given, block, e.t, a);
    case Terminate => TerminateEffect(s0, a);
    case Passeren(x) => PasserenEffect(s0, x, e.t, a);
    case Verhogen(x) => VerhogenEffect(s0, x, e.t, a);
    case WaitIO(line, dev, read) => WaitIOEffect(s0, SemIndex(line, dev, read), e.t, a);
    case GetTime => QuietEffect(s0, e.saved, e.t, a);
    case WaitClock => WaitClockEffect(s0, e.t, a);
    case GetSupport => QuietEffect(s0, e.saved, e.t, a);
  }

  // ---------------------------------------------------------------- the words

  lemma KillsKeepWords(s: State)
    requires Shape(s) && Rooted(s.fo) && s.pl.current != null
    ensures DoTerminate(s).ct.user.Keys == s.ct.user.Keys
  {
    hide Rooted, Subtree, KillPlaces, KillForest, Waiters, SoftBlocked, Domains;
  }

  lemma WorkKeepsWords(s: State, e: Event)
    requires Shape(s) && Rooted(s.fo) && Enabled(s, e)
    ensures Work(s, e).ct.user.Keys == s.ct.user.Keys
  {
    hide Rooted, Subtree, Minus, DoTerminate;
    if e.act.Fault? {
      KillsKeepWords(s);
    } else if e.act.Terminate? {
      KillsKeepWords(Save(s, s.pl.current, e.saved));
    }
  }

  /** No exception makes a word a semaphore that was none, or the other way round. */
  lemma StepKeepsWords(s: State, e: Event)
    requires Shape(s) && Rooted(s.fo) && Enabled(s, e)
    ensures Step(s, e).state.ct.user.Keys == s.ct.user.Keys
  {
    hide Rooted, Shape, Work, Step, Enabled;
    WorkKeepsWords(s, e);
    FinishKeeps(s, e);
  }

  lemma {:induction false} WordsOverRuns(b: State, es: seq<Event>)
    requires Inv(b) && Possible(b, es)
    ensures Exec(b, es).ct.user.Keys == b.ct.user.Keys
  {
    hide Inv, Shape, Enabled, Step;
    if es != [] {
      WordsOverRuns(b, Front(es));
      InvShape(Exec(b, Front(es)));
      StepKeepsWords(Exec(b, Front(es)), Last(es));
    }
  }

  // ---------------------------------------------------------------- the laws

  lemma CountsStep(s: State, e: Event, a: Addr)
    requires Inv(s) && Shape(s) && Enabled(s, e) && Counts(s, a)
    ensures var s1 := Step(s, e).state; s1.pl.waitsOn.Keys == s1.pl.live && Counts(s1, a)
  {
    hide Located, Queued, CurrentOk, Rooted, Kinship, Domains, Words, Step, Waiters, Subtree;
    StepEffect(s, e, a);
    WakesIffNegative(s, e, a);
  }

  /** No wake-up is lost: a V wakes a process exactly when it leaves the value not positive. */
  lemma WakesIffNegative(s: State, e: Event, a: Addr)
    requires Inv(s) && Counts(s, a)
    ensures WakesOn(s, e, a) <==> e.act == Verhogen(a) && s.ct.user[a] + 1 <= 0
  {
    hide Located, Queued, CurrentOk, Rooted, Kinship, Domains, Words;
    SomebodyWaits(s.pl, a);
  }

  /** Along every run, the value of a semaphore that starts balanced counts its waiters. */
  lemma {:induction false} CountsOverRuns(b: State, es: seq<Event>, a: Addr)
    requires Inv(b) && Possible(b, es) && Shape(b) && Counts(b, a)
    ensures var s := Exec(b, es); s.pl.waitsOn.Keys == s.pl.live && Counts(s, a)
  {
    hide Inv, Shape, Counts, Enabled, Step;
    if es == [] {
      InvDomain(b);
    } else {
      var s := Exec(b, Front(es));
      CountsOverRuns(b, Front(es), a);
      InvShape(s);
      CountsStep(s, Last(es), a);
    }
  }

  // ---------------------------------------------------------------- semaphores that start negative

  /** How many waiters the value of a semaphore claims beyond those it has. */
  ghost function Shortfall(s: State, a: Addr): int
    requires s.pl.waitsOn.Keys == s.pl.live && a in s.ct.user
  {
    Positive(-s.ct.user[a]) - |Waiters(s.pl, a)|
  }

  /** A V on a negative semaphore that finds nobody in its queue. */
  ghost predicate IdleV(s: State, e: Event, a: Addr) {
    e.act == Verhogen(a) && a in s.ct.user && s.ct.user[a] < 0 && a !in s.pl.blocked
  }

  ghost function IdleVs(b: State, es: seq<Event>, a: Addr): nat
    requires Inv(b) && Possible(b, es)
  {
    if es == [] then 0
    else IdleVs(b, Front(es), a) + if IdleV(Exec(b, Front(es)), Last(es), a) then 1 else 0
  }

  lemma ShortfallStep(s: State, e: Event, a: Addr)
    requires Inv(s) && Shape(s) && Enabled(s, e) && a in s.ct.user && Shortfall(s, a) >= 0
    ensures var s1 := Step(s, e).state;
      && s1.pl.waitsOn.Keys == s1.pl.live && a in s1.ct.user
      && Shortfall(s1, a) == Shortfall(s, a) - (if IdleV(s, e, a) then 1 else 0) && Shortfall(s1, a) >= 0
  {
    hide Located, Queued, CurrentOk, Rooted, Kinship, Domains, Words, Step, Waiters, Subtree;
    StepEffect(s, e, a);
    SomebodyWaits(s.pl, a);
    KilledWaited(s, e, a);
  }

  /** In every reachable state, the shortfall is what it was at first less the V operations that found nobody. */
  lemma {:induction false} ShortfallOverRuns(b: State, es: seq<Event>, a: Addr)
    requires Inv(b) && Shape(b) && Possible(b, es) && a in b.ct.user && Shortfall(b, a) >= 0
    ensures var s := Exec(b, es);
      && s.pl.waitsOn.Keys == s.pl.live && a in s.ct.user
      && Shortfall(s, a) == Shortfall(b, a) - IdleVs(b, es, a) && Shortfall(s, a) >= 0
  {
    hide Inv, Shape, Shortfall, Enabled, Step, IdleV;
    InvDomain(b);
    if es != [] {
      var s := Exec(b, Front(es));
      ShortfallOverRuns(b, Front(es), a);
      InvShape(s);
      ShortfallStep(s, Last(es), a);
    }
  }

  /**
    A semaphore that nobody waits for at first, whatever its value, counts its waiters after a run
    if and only if as many V operations as its first value is below zero have found nobody.
    */
  lemma CountsExactly(b: State, es: seq<Event>, a: Addr)
    requires Inv(b) && Shape(b) && Possible(b, es) && a in b.ct.user && Waiters(b.pl, a) == {}
    ensures var s := Exec(b, es);
      && s.pl.waitsOn.Keys == s.pl.live
      && (Counts(s, a) <==> IdleVs(b, es, a) == Positive(-b.ct.user[a]))
      && IdleVs(b, es, a) <= Positive(-b.ct.user[a])
  {
    hide Inv, Shape, Possible, IdleVs, Waiters;
    ShortfallOverRuns(b, es, a);
  }

  // ---------------------------------------------------------------- counting operations

  /** What happened at a semaphore during a run. */
  datatype Tally = Tally(ps: nat, vs: nat, passed: nat, killed: nat)

  ghost function Add(c: Tally, s: State, e: Event, a: Addr): Tally
    requires Shape(s) && Rooted(s.fo) && Enabled(s, e)
  {
    Tally(
      c.ps + (if e.act == Action.Passeren(a) then 1 else 0),
      c.vs + (if e.act == Action.Verhogen(a) then 1 else 0),
      c.passed + (if (e.act == Action.Passeren(a) && !BlocksOn(s, e, a)) || WakesOn(s, e, a) then 1 else 0),
      c.killed + |Killed(s, e, a)|)
  }

  /** P operations issued, V operations issued, P operations passed, and blocked P operations ended by SYS2. */
  ghost function TallyOf(b: State, es: seq<Event>, a: Addr): Tally
    requires Inv(b) && Possible(b, es)
  {
    if es == [] then Tally(0, 0, 0, 0)
    else
      var s := Exec(b, Front(es));
      StepInv(s, Last(es));
      Add(TallyOf(b, Front(es), a), s, Last(es), a)
  }

  /** Nothing is lost: units of the value, and P operations. */
  ghost predicate Conserved(c: Tally, first: int, waited: nat, value: int, waiters: nat) {
    && value == first - c.ps + c.vs + c.killed
    && waited + c.ps == c.passed + waiters + c.killed
  }

  lemma ConservedStep(c: Tally, first: int, waited: nat, s: State, e: Event, a: Addr)
    requires Inv(s) && Shape(s) && Enabled(s, e) && a in s.ct.user
    requires Conserved(c, first, waited, s.ct.user[a], |Waiters(s.pl, a)|)
    ensures var s1, c1 := Step(s, e).state, Add(c, s, e, a);
      && s1.pl.waitsOn.Keys == s1.pl.live && a in s1.ct.user
      && Conserved(c1, first, waited, s1.ct.user[a], |Waiters(s1.pl, a)|)
  {
    hide Located, Queued, CurrentOk, Rooted, Kinship, Domains, Words, Step, Waiters, Subtree;
    StepEffect(s, e, a);
  }

  /**
    On every semaphore and over every run: the value is the first value less P operations issued plus
    V operations plus blocked P operations that ended with their process, and each P operation has
    passed, still waits, or has ended with its process.
    */
  lemma {:induction false} OperationsConserved(b: State, es: seq<Event>, a: Addr)
    requires Inv(b) && Shape(b) && Possible(b, es) && a in b.ct.user
    ensures var s := Exec(b, es);
      && s.pl.waitsOn.Keys == s.pl.live && a in s.ct.user && b.pl.waitsOn.Keys == b.pl.live
      && Conserved(TallyOf(b, es, a), b.ct.user[a], |Waiters(b.pl, a)|, s.ct.user[a], |Waiters(s.pl, a)|)
  {
    hide Inv, Shape, Enabled, Step, Conserved, Add, Waiters;
    InvDomain(b);
    if es == [] {
      ConservedFirst(b.ct.user[a], |Waiters(b.pl, a)|);
    } else {
      var s := Exec(b, Front(es));
      OperationsConserved(b, Front(es), a);
      InvShape(s);
      ConservedStep(TallyOf(b, Front(es), a), b.ct.user[a], |Waiters(b.pl, a)|, s, Last(es), a);
    }
  }

  lemma ConservedFirst(first: int, waited: nat)
    ensures Conserved(Tally(0, 0, 0, 0), first, waited, first, waited)
  {
  }

  lemma KilledWaited(s: State, e: Event, a: Addr)
    requires Shape(s) && Rooted(s.fo) && Enabled(s, e)
    ensures |Killed(s, e, a)| <= |Waiters(s.pl, a)|
  {
    hide Rooted, Subtree, Waiters, Enabled;
    SubsetSize(Killed(s, e, a), Waiters(s.pl, a));
  }

  /**
    The counting law. P operations passed = first value + V operations - what is left of the value,
    and each P operation issued has passed, still waits, or was ended with its process.
    */
  lemma CountingLaw(b: State, es: seq<Event>, a: Addr)
    requires Inv(b) && Shape(b) && Possible(b, es)
    requires a in b.ct.user && Waiters(b.pl, a) == {} && b.ct.user[a] >= 0
    ensures var s, c := Exec(b, es), TallyOf(b, es, a);
      && s.pl.waitsOn.Keys == s.pl.live && a in s.ct.user
      && c.passed == b.ct.user[a] + c.vs - Positive(s.ct.user[a])
      && c.ps == c.passed + |Waiters(s.pl, a)| + c.killed
  {
    hide Inv, Shape, Possible, Waiters, TallyOf;
    OperationsConserved(b, es, a);
    CountsOverRuns(b, es, a);
  }

  /** A semaphore that starts at first never admits more than first P operations beyond the V operations. */
  lemma AdmitsAtMost(b: State, es: seq<Event>, a: Addr)
    requires Inv(b) && Shape(b) && Possible(b, es)
    requires a in b.ct.user && Waiters(b.pl, a) == {} && b.ct.user[a] >= 0
    ensures a in Exec(b, es).ct.user
    ensures TallyOf(b, es, a).passed <= b.ct.user[a] + TallyOf(b, es, a).vs
  {
    hide Inv, Shape, Possible;
    CountingLaw(b, es, a);
  }
}
