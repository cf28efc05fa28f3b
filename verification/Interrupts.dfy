/** Interrupts: the end of a time slice, the pseudo-clock, and the devices. */
module InterruptHandlers {
  import opened Collections
  import opened Types
  import opened ActiveSemaphores
  import opened NucleusState
  import opened NucleusInvariants
  import opened NucleusKernel
  import opened NucleusScheduler
  import opened SystemCalls
  import opened ExceptionHandlers
  import opened DeviceRouting
  import opened KernelViews
  import opened ServiceEffects
  import opened InterruptEffects

  method PltInterruptHandler(k: Kernel, saved: CpuState, t: Times) returns (o: Outcome)
    requires k.Rep() && Inv(k.st) && Shape(k.st) && Rooted(k.st.fo) && Monotone(k.st.cpu.clock, t)
    modifies k, k.cfg.pool
    ensures Enabled(old(k.st), Event(Slice, saved, t))
    ensures k.Rep() && Result(k.st, o) == Step(old(k.st), Event(Slice, saved, t))
    ensures SliceEffect(old(Seen(k)), Seen(k), o, saved, t)
  {
    hide Kernel.Rep, Inv, Schedule, Shape, Rooted, SliceEffect, Uniform;
    ghost var s := k.st;
    InvSeen(k);
    k.Known();
    if k.currentProcess != null {
      SliceFacts(k.st, saved, t);
      k.MoveState(saved, k.currentProcess);
      ChargeCurrentProcess(k, t);
      k.Known();
      k.ReadyInsert(k.currentProcess);
      k.SetCurrent(null);
      o := Scheduler(k, t);
      SeenSlice(k, s, o, saved, t);
      return;
    }
    k.NoteClock(t.resume);
    o := Panic;
    SeenSlice(k, s, o, saved, t);
  }

  lemma SeenSlice(k: Kernel, s: State, o: Outcome, saved: CpuState, t: Times)
    requires Shape(s) && Rooted(s.fo) && Enabled(s, Event(Slice, saved, t))
    requires k.Rep() && Result(k.st, o) == Step(s, Event(Slice, saved, t))
    ensures Uniform(s) && SliceEffect(ViewOf(s), Seen(k), o, saved, t)
  {
    hide Kernel.Rep, Shape, Rooted, Step, Uniform, SliceEffect;
    SliceView(s, saved, t);
    SeenIs(k);
  }

  lemma SliceFacts(s: State, saved: CpuState, t: Times)
    requires Inv(s) && Shape(s) && s.pl.current != null
    ensures s.pl.current in s.cpu.regs && s.pl.current in s.pl.live && s.pl.current in s.pl.waitsOn
    ensures s.pl.waitsOn[s.pl.current] == None && s.pl.current !in s.pl.ready
    ensures s.pl.current in s.cpu.time && forall p | p in s.pl.ready :: p in s.cpu.regs
  {
    hide Located, Queued, Rooted, Kinship, Words;
    InvRunning(s);
  }

  lemma InterruptedFacts(s: State, saved: CpuState, t: Times)
    requires Domains(s) && (s.pl.current != null ==> s.pl.current in s.pl.live)
    requires s.pl.ready != [] ==> s.pl.ready[0] in s.pl.live
    ensures s.pl.ready != [] ==> s.pl.ready[0] in s.cpu.regs
    ensures s.pl.current == null ==> Interrupted(s, saved, t) == s
    ensures s.pl.current != null ==> s.pl.current in s.cpu.regs && s.pl.current in s.cpu.time
    ensures s.pl.current != null ==>
      Interrupted(s, saved, t) == Charge(Save(s, s.pl.current, saved), s.pl.current, t.arrive - s.cpu.start)
    ensures Finishable(Interrupted(s, saved, t)) && Interrupted(s, saved, t).pl.current == s.pl.current
  {
  }

  /** How a device or clock interrupt ends. */
  method FinishInterrupt(k: Kernel, saved: CpuState, t: Times) returns (o: Outcome)
    requires k.Rep() && Domains(k.st) && (k.st.pl.current != null ==> k.st.pl.current in k.st.pl.live)
    requires k.st.pl.ready != [] ==> k.st.pl.ready[0] in k.st.pl.live
    requires k.interruptTod == t.arrive
    modifies k, k.cfg.pool
    ensures k.Rep() && Concludes(k.st, o, Interrupted(old(k.st), saved, t), t)
  {
    hide Kernel.Rep, Schedule, Resume, Domains, Interrupted, Finishable;
    InterruptedFacts(k.st, saved, t);
    k.Known();
    if k.currentProcess != null {
      k.MoveState(saved, k.currentProcess);
      k.Known();
      k.UpdateProcessTime(k.currentProcess, k.startTod, k.interruptTod);
      o := ResumeCurrent(k, t);
      return;
    }
    o := Scheduler(k, t);
  }

  // ---------------------------------------------------------------- the pseudo-clock

  /** The first n waiters of a have been woken. */
  ghost function WakeSome(pl: Places, a: Addr, n: nat): Places
    requires n <= |QueueOf(pl.blocked, a)|
  {
    var q := QueueOf(pl.blocked, a);
    pl.(ready := pl.ready + q[..n],
        blocked := WithQueue(pl.blocked, a, q[n..]),
        waitsOn := map p | p in pl.waitsOn :: if p in q[..n] then None else pl.waitsOn[p])
  }

  lemma WakeNone(pl: Places, a: Addr)
    requires a in pl.blocked ==> pl.blocked[a] != []
    ensures WakeSome(pl, a, 0) == pl
  {
    assert QueueOf(pl.blocked, a)[0..] == QueueOf(pl.blocked, a);
    assert WakeSome(pl, a, 0).waitsOn == pl.waitsOn;
  }

  lemma WakeOneMore(pl: Places, a: Addr, n: nat)
    requires n < |QueueOf(pl.blocked, a)| && QueueOf(pl.blocked, a)[n] in pl.waitsOn
    ensures var pl1, q := WakeSome(pl, a, n), QueueOf(pl.blocked, a);
      && a in pl1.blocked && pl1.blocked[a] == q[n..] && pl1.blocked[a][0] == q[n]
      && Enqueue(Unblock(pl1, a), q[n]) == WakeSome(pl, a, n + 1)
  {
    var pl1, pl2, q := WakeSome(pl, a, n), WakeSome(pl, a, n + 1), QueueOf(pl.blocked, a);
    assert q[..n + 1] == q[..n] + [q[n]] && q[n..] == [q[n]] + q[n + 1..];
    assert Unblock(pl1, a).waitsOn == pl2.waitsOn;
    assert Unblock(pl1, a).blocked == pl2.blocked;
  }

  lemma WakeEverybody(pl: Places, a: Addr)
    ensures WakeSome(pl, a, |QueueOf(pl.blocked, a)|) == WakeAll(pl, a)
  {
    var q := QueueOf(pl.blocked, a);
    assert q[..|q|] == q;
  }

  lemma WakeLeft(pl: Places, a: Addr, n: nat)
    requires n <= |QueueOf(pl.blocked, a)|
    ensures a in WakeSome(pl, a, n).blocked <==> n < |QueueOf(pl.blocked, a)|
  {
  }

  ghost function Woken(s: State, a: Addr, n: nat): State
    requires n <= |QueueOf(s.pl.blocked, a)|
  {
    AddSoft(s.(pl := WakeSome(s.pl, a, n)), -(n as int))
  }

  lemma WokenOneMore(s: State, a: Addr, n: nat)
    requires n < |QueueOf(s.pl.blocked, a)| && QueueOf(s.pl.blocked, a)[n] in s.pl.waitsOn
    ensures var s1 := Woken(s, a, n);
      && a in s1.pl.blocked && s1.pl.blocked[a] != []
      && AddSoft(s1.(pl := Wake(s1.pl, a)), -1) == Woken(s, a, n + 1)
  {
    hide WakeSome, Unblock;
    WakeOneMore(s.pl, a, n);
  }

  /** The loop of the clock handler. It ends, because each round shortens the queue. */
  method WakeWaiters(k: Kernel, a: Addr)
    requires k.Rep() && !IsDummy(a) && (a in k.st.pl.blocked ==> k.st.pl.blocked[a] != [])
    requires forall p | p in QueueOf(k.st.pl.blocked, a) :: p in k.st.pl.waitsOn
    modifies k`st, k`readyQueue, k`softBlockedCount, k.asl, k.asl.table, k.cfg.pool
    ensures k.Rep()
    ensures k.st == AddSoft(old(k.st).(pl := WakeAll(old(k.st).pl, a)), -|QueueOf(old(k.st).pl.blocked, a)|)
  {
    hide Kernel.Rep, WakeSome, WakeAll, Wake;
    ghost var s, n := k.st, 0;
    WakeNone(s.pl, a);
    WakeLeft(s.pl, a, n);
    var head := k.HeadBlocked(a);
    while head != null
      invariant k.Rep() && 0 <= n <= |QueueOf(s.pl.blocked, a)| && k.st == Woken(s, a, n)
      invariant head != null <==> n < |QueueOf(s.pl.blocked, a)|
      decreases |QueueOf(s.pl.blocked, a)| - n
    {
      WokenOneMore(s, a, n);
      WakeFirst(k, a);
      k.AddSoftBlocked(-1);
      n := n + 1;
      WakeLeft(s.pl, a, n);
      head := k.HeadBlocked(a);
    }
    WakeEverybody(s.pl, a);
  }

  lemma ClockKey(s: State, i: nat)
    requires Inv(s) && i < MAX_DEVICE_COUNT
    ensures var a := DevAddr(s.cfg.devBase, i);
      && !IsDummy(a) && (a in s.pl.blocked ==> s.pl.blocked[a] != [])
      && forall p | p in QueueOf(s.pl.blocked, a) :: p in s.pl.waitsOn && p in s.pl.live
  {
    hide ReadySound, ReadyComplete, BlockedComplete, Rooted, Kinship, Distinct, Domains, CurrentOk;
  }

  /** What the end of an interrupt needs of a state. */
  lemma FinishFacts(s: State)
    requires Inv(s)
    ensures Domains(s) && (s.pl.current != null ==> s.pl.current in s.pl.live)
    ensures s.pl.ready != [] ==> s.pl.ready[0] in s.pl.live
  {
    hide Located, Queued, Rooted, Kinship, Words;
    InvShape(s);
  }

  method IntervalTimerInterruptHandler(k: Kernel, saved: CpuState, t: Times) returns (o: Outcome)
    requires k.Rep() && Inv(k.st) && Shape(k.st) && Rooted(k.st.fo) && Monotone(k.st.cpu.clock, t)
    requires k.interruptTod == t.arrive
    modifies k, k.asl, k.asl.table, k.cfg.pool, k.semaphoreDevices
    ensures Enabled(old(k.st), Event(Tick, saved, t))
    ensures k.Rep() && Result(k.st, o) == Step(old(k.st), Event(Tick, saved, t))
    ensures TickEffect(old(Seen(k)), Seen(k), o, saved, t)
  {
    hide Kernel.Rep, Inv, WakeAll, Interrupted, Conclude, Domains, Rooted, Monotone, TickEffect, Uniform;
    ghost var s := k.st;
    InvSeen(k);
    k.Known();
    ClockKey(k.st, CLOCK_INDEX);
    TickedInv(k.st);
    FinishFacts(Ticked(k.st));
    WakeWaiters(k, DevAddr(k.devBase, CLOCK_INDEX));
    k.SetDevice(CLOCK_INDEX, 0);
    o := FinishInterrupt(k, saved, t);
    SeenTick(k, s, o, saved, t);
  }

  lemma SeenTick(k: Kernel, s: State, o: Outcome, saved: CpuState, t: Times)
    requires Shape(s) && Rooted(s.fo) && Enabled(s, Event(Tick, saved, t))
    requires k.Rep() && Result(k.st, o) == Step(s, Event(Tick, saved, t))
    ensures Uniform(s) && TickEffect(ViewOf(s), Seen(k), o, saved, t)
  {
    hide Kernel.Rep, Shape, Rooted, Step, Uniform, TickEffect;
    TickView(s, saved, t);
    SeenIs(k);
  }

  // ---------------------------------------------------------------- devices

  /** The device whose interrupt is handled: its line and number, and the place of its registers. */
  function PendingDevice(cause: bv32, area: DeviceArea): (r: (int, nat, nat))
    requires area.Valid()
    ensures LegalDevice(r.0, r.1) && r.2 == (r.0 - BASE_LINE) * DEV_PER_INT + r.1 < 40
    ensures FirstPending(cause, area, r.0, r.1)
  {
    LineFirst(cause);
    var line := PendingLine(cause);
    DeviceFirst(area.pending[line - BASE_LINE]);
    var dev := FindInterruptDevice(area.pending[line - BASE_LINE]);
    (line, dev, (line - BASE_LINE) * DEV_PER_INT + dev)
  }

  /** What a device interrupt amounts to: the semaphore to be signalled, and the status to deliver. */
  function Signal(cause: bv32, area: DeviceArea): Action
    requires area.Valid()
  {
    var (line, dev, place) := PendingDevice(cause, area);
    var index := InterruptIndex(line, dev, area.transmitted[place]);
    Device(index, if index == place then area.received[place] as int else area.transmitted[place] as int)
  }

  /** The status delivered is that of the sub-device whose semaphore is signalled. */
  lemma SignalMeans(cause: bv32, area: DeviceArea, line: nat, dev: nat)
    requires area.Valid() && FirstPending(cause, area, line, dev)
    ensures var place := (line - 3) * 8 + dev;
      Signal(cause, area) ==
      if line == 7 && area.transmitted[place] & 0xFF != 1 then
        Device(SemIndex(line, dev, 0), area.transmitted[place] as int)
      else Device(SemIndex(line, dev, 1), area.received[place] as int)
  {
    hide FirstPending;
    var r := PendingDevice(cause, area);
    FirstPendingUnique(cause, area, line, dev, r.0, r.1);
    InterruptMeetsWait(line, dev, 1, area.transmitted[r.2]);
  }

  lemma DevicesView(s: State, saved: CpuState, area: DeviceArea, t: Times)
    requires area.Valid() && Shape(s) && Rooted(s.fo) && Enabled(s, Event(Signal(saved.cause, area), saved, t))
    ensures var r := Step(s, Event(Signal(saved.cause, area), saved, t));
      Uniform(s) && Uniform(r.state) && DevicesEffect(ViewOf(s), ViewOf(r.state), r.outcome, saved, area, t)
  {
    hide FirstPending, Shape, Rooted, Enabled, Step, Uniform, DeviceEffect;
    var r := PendingDevice(saved.cause, area);
    var line: nat, dev: nat := r.0, r.1;
    SignalMeans(saved.cause, area, line, dev);
    var act := Signal(saved.cause, area);
    DeviceView(s, act.index, act.status, saved, t);
  }

  lemma SeenDevices(k: Kernel, s: State, o: Outcome, saved: CpuState, area: DeviceArea, t: Times)
    requires area.Valid() && Shape(s) && Rooted(s.fo) && Enabled(s, Event(Signal(saved.cause, area), saved, t))
    requires k.Rep() && Result(k.st, o) == Step(s, Event(Signal(saved.cause, area), saved, t))
    ensures Uniform(s) && DevicesEffect(ViewOf(s), Seen(k), o, saved, area, t)
  {
    hide Kernel.Rep, Shape, Rooted, Step, Uniform, DevicesEffect;
    DevicesView(s, saved, area, t);
    SeenIs(k);
  }

  /** What happens to the process found in the queue of a device semaphore, once it has left it. */
  ghost function Rewarded(s: State, p: Pcb, status: int, dt: int): State
    requires p in s.cpu.regs && p in s.cpu.time
  {
    var s1 := Save(s, p, s.cpu.regs[p].WithV0(status));
    Charge(AddSoft(s1.(pl := Enqueue(s1.pl, p)), -1), p, dt)
  }

  method Reward(k: Kernel, p: Pcb, status: int, t: Times)
    requires k.Rep() && p in k.st.cpu.regs && p in k.st.cpu.time && k.interruptTod == t.arrive
    requires p in k.st.pl.live && p in k.st.pl.waitsOn && k.st.pl.waitsOn[p] == None && p !in k.st.pl.ready
    modifies k`st, k`readyQueue, k`softBlockedCount, k`currTod, k.cfg.pool
    ensures k.Rep() && k.st == Rewarded(old(k.st), p, status, t.mid - t.arrive)
  {
    hide Kernel.Rep;
    k.Known();
    k.SetV0(p, status);
    k.ReadyInsert(p);
    k.AddSoftBlocked(-1);
    k.currTod := t.mid;
    k.UpdateProcessTime(p, k.interruptTod, k.currTod);
  }

  /** The state between the V operation on device semaphore i and what is done to the process woken. */
  ghost function Signalled(s: State, i: nat): State
    requires Shape(s) && i < |s.ct.dev|
  {
    var a := DevAddr(s.cfg.devBase, i);
    SetDev(if a in s.pl.blocked then s.(pl := Unblock(s.pl, a)) else s, i, s.ct.dev[i] + 1)
  }

  lemma SignalledFacts(s: State, i: nat, status: int, t: Times)
    requires Shape(s) && i < CLOCK_INDEX
    ensures var a, s1 := DevAddr(s.cfg.devBase, i), Signalled(s, i);
      && (a !in s.pl.blocked ==> Deliver(s, i, status, t) == s1)
      && (a in s.pl.blocked ==>
        && s.pl.blocked[a] != [] && s.pl.blocked[a][0] in s1.cpu.regs && s.pl.blocked[a][0] in s1.cpu.time
        && Deliver(s, i, status, t) == Rewarded(s1, s.pl.blocked[a][0], status, t.mid - t.arrive))
  {
  }

  /** removeBlocked on device semaphore i, the V operation, and what is done to the process found. */
  method DeliverStatus(k: Kernel, i: nat, status: int, t: Times)
    requires k.Rep() && Inv(k.st) && Shape(k.st) && i < CLOCK_INDEX && k.interruptTod == t.arrive
    modifies k`st, k`readyQueue, k`softBlockedCount, k`currTod, k.asl, k.asl.table, k.cfg.pool, k.semaphoreDevices
    ensures k.Rep() && k.st == Deliver(old(k.st), i, status, t)
  {
    hide Kernel.Rep, Inv, Domains, Deliver, Rewarded, Unblock;
    ghost var s := k.st;
    var a := DevAddr(k.devBase, i);
    k.Known();
    ClockKey(s, i);
    SignalledFacts(s, i, status, t);
    if a in s.pl.blocked {
      k.FirstWaiter(a);
    }
    var p := k.RemoveBlocked(a);
    k.Known();
    k.SetDevice(i, k.semaphoreDevices[i] + 1);
    if p != null {
      Reward(k, p, status, t);
    }
  }

  method NonTimerInterruptHandler(k: Kernel, saved: CpuState, area: DeviceArea, t: Times) returns (o: Outcome)
    requires k.Rep() && Inv(k.st) && Shape(k.st) && Rooted(k.st.fo) && Monotone(k.st.cpu.clock, t)
    requires area.Valid() && k.interruptTod == t.arrive
    modifies k, k.asl, k.asl.table, k.cfg.pool, k.semaphoreDevices
    ensures Enabled(old(k.st), Event(Signal(saved.cause, area), saved, t))
    ensures k.Rep() && Result(k.st, o) == Step(old(k.st), Event(Signal(saved.cause, area), saved, t))
    ensures DevicesEffect(old(Seen(k)), Seen(k), o, saved, area, t)
  {
    hide Kernel.Rep, Inv, Shape, Domains, Interrupted, Deliver, Conclude, Rooted, Monotone, PendingLine, FindInterruptDevice;
    hide DevicesEffect, Uniform, FirstPending;
    ghost var s := k.st;
    InvSeen(k);
    var line := PendingLine(saved.cause);
    LeastLine(saved.cause);
    var dev := FindInterruptDevice(area.pending[line - BASE_LINE]);
    LeastDevice(area.pending[line - BASE_LINE]);
    var place := (line - BASE_LINE) * DEV_PER_INT + dev;
    var index, status := place, area.received[place] as int;
    if line == LINE7 && area.transmitted[place] & LOW_BYTE != READY {
      index, status := place + DEV_PER_INT, area.transmitted[place] as int;
    }
    DeliverInv(k.st, index, status, t);
    FinishFacts(Deliver(k.st, index, status, t));
    DeliverStatus(k, index, status, t);
    o := FinishInterrupt(k, saved, t);
    SeenDevices(k, s, o, saved, area, t);
  }

  // ---------------------------------------------------------------- dispatch

  const IP_LINE1_TIMER_BIT: bv32 := 0x0200
  const IP_LINE2_TIMER_BIT: bv32 := 0x0400

  /** Which interrupt is handled: the time slice before the pseudo-clock, the pseudo-clock before the devices. */
  function Interruption(cause: bv32, area: DeviceArea): Action
    requires area.Valid()
  {
    if cause & IP_LINE1_TIMER_BIT != 0 then Slice
    else if cause & IP_LINE2_TIMER_BIT != 0 then Tick
    else Signal(cause, area)
  }

  lemma SignalLegal(cause: bv32, area: DeviceArea)
    requires area.Valid()
    ensures Signal(cause, area).Device? && Signal(cause, area).index < CLOCK_INDEX
  {
  }

  method InterruptTrapHandler(k: Kernel, saved: CpuState, area: DeviceArea, t: Times) returns (o: Outcome)
    requires k.Rep() && Inv(k.st) && area.Valid() && Monotone(k.st.cpu.clock, t)
    modifies k, k.asl, k.asl.table, k.cfg.pool, k.semaphoreDevices
    ensures var e := Event(Interruption(saved.cause, area), saved, t);
      && Shape(old(k.st)) && Rooted(old(k.st).fo) && Enabled(old(k.st), e)
      && k.Rep() && Result(k.st, o) == Step(old(k.st), e)
    ensures InterruptEffect(old(Seen(k)), Seen(k), o, saved, area, t)
  {
    hide Kernel.Rep, Inv, Shape, Rooted, Signal, Step, SliceEffect, TickEffect, DevicesEffect, Bit, Uniform, Monotone;
    InvSeen(k);
    MaskIsBit(saved.cause);
    InvShape(k.st);
    SignalLegal(saved.cause, area);
    k.Known();
    k.interruptTod := t.arrive;
    assert k.Rep();
    InvSeen(k);
    if saved.cause & IP_LINE1_TIMER_BIT != 0 {
      o := PltInterruptHandler(k, saved, t);
      return;
    }
    if saved.cause & IP_LINE2_TIMER_BIT != 0 {
      o := IntervalTimerInterruptHandler(k, saved, t);
      return;
    }
    o := NonTimerInterruptHandler(k, saved, area, t);
  }

  const EXC_CODE_MASK: bv32 := 0x7C

  /** Cause.ExcCode */
  function ExcCode(cause: bv32): bv32 {
    (cause & EXC_CODE_MASK) >> 2
  }

  /** The number in bits 2 to 6 of the Cause register. */
  function CauseCode(cause: bv32): nat {
    (if Bit(cause, 2) then 1 else 0) + (if Bit(cause, 3) then 2 else 0) + (if Bit(cause, 4) then 4 else 0)
      + (if Bit(cause, 5) then 8 else 0) + (if Bit(cause, 6) then 16 else 0)
  }

  lemma ExcCodeBits(cause: bv32)
    ensures ExcCode(cause) ==
      (if Bit(cause, 2) then 1 else 0) + (if Bit(cause, 3) then 2 else 0) + (if Bit(cause, 4) then 4 else 0)
      + (if Bit(cause, 5) then 8 else 0) + (if Bit(cause, 6) then 16 else 0)
  {
  }

  /** The switch of exceptionHandler by the bits of the Cause register. */
  lemma ExcCodeIsBits(cause: bv32)
    ensures ExcCode(cause) == 0 <==> CauseCode(cause) == 0
    ensures ExcCode(cause) == 8 <==> CauseCode(cause) == 8
    ensures ExcCode(cause) <= 12 <==> CauseCode(cause) <= 12
  {
    hide Bit, ExcCode;
    ExcCodeBits(cause);
  }

  /** Everything outside the nucleus that an exception handler may look at. */
  datatype Environment = Environment(saved: CpuState, pointed: CpuState, area: DeviceArea, t: Times)

  /** The event that exceptionHandler makes of an exception. Codes above 12 fall through its switch. */
  function Exception(env: Environment, block: Pcb?): Option<Event>
    requires env.area.Valid()
  {
    var code := ExcCode(env.saved.cause);
    if code == 0 then Some(Event(Interruption(env.saved.cause, env.area), env.saved, env.t))
    else if code == 8 then Some(Event(Request(env.saved, env.pointed, block), env.saved.Advanced(), env.t))
    else if code <= 12 then Some(Event(Fault, env.saved, env.t))
    else None
  }

  /** The exception can happen: an interrupt at any time, anything else only while a process is running. */
  ghost predicate MayHappen(s: State, act: Action, t: Times) {
    Monotone(s.cpu.clock, t) && (act.Slice? || act.Tick? || act.Device? || Admissible(s, act, t))
  }

  /** What exceptionHandler does, by the bits of the Cause register, the registers and the device registers. */
  ghost predicate Handled(v0: View, v1: View, o: Option<Outcome>, env: Environment, block: Pcb?)
    requires env.area.Valid()
  {
    var code := CauseCode(env.saved.cause);
    if code > 12 then o == None && v1 == v0
    else
      && o != None
      && (code == 0 ==> InterruptEffect(v0, v1, o.value, env.saved, env.area, env.t))
      && (code == 8 ==> ServiceEffect(v0, v1, o.value, env.saved, env.pointed, block, env.t))
      && (code != 0 && code != 8 ==> Faults(v0, v1, o.value, env.t))
  }

  /** exceptionHandler: whatever happens, the pointer structures follow the abstract step. */
  method ExceptionHandler(k: Kernel, env: Environment) returns (o: Option<Outcome>)
    requires k.Rep() && Inv(k.st) && env.area.Valid()
    requires var e := Exception(env, k.pcbs.head); e != None ==> MayHappen(k.st, e.value.act, env.t)
    modifies k, k.pcbs, k.asl, k.asl.table, k.cfg.pool, k.semaphoreDevices
    ensures k.Rep() && Inv(k.st)
    ensures Exception(env, old(k.pcbs.head)) == None ==> o == None && k.st == old(k.st)
    ensures var e := Exception(env, old(k.pcbs.head)); e != None ==>
      && Shape(old(k.st)) && Rooted(old(k.st).fo) && Enabled(old(k.st), e.value)
      && o != None && Result(k.st, o.value) == Step(old(k.st), e.value)
    ensures Handled(old(Seen(k)), Seen(k), o, env, old(k.pcbs.head))
  {
    hide Kernel.Rep, Inv, Shape, Rooted, Step, Enabled, Interruption, Request, Monotone;
    hide ExcCode, Handled, Uniform, InterruptEffect, ServiceEffect, Faults;
    InvSeen(k);
    InvShape(k.st);
    RequestIsService(env.saved, env.pointed, k.pcbs.head);
    ghost var s, e, block := k.st, Exception(env, k.pcbs.head), k.pcbs.head;
    var code := ExcCode(env.saved.cause);
    o := None;
    if code == 0 {
      var end := InterruptTrapHandler(k, env.saved, env.area, env.t);
      o := Some(end);
    } else if code == 8 {
      var end := SystemTrapHandler(k, env.saved, env.pointed, env.t);
      o := Some(end);
    } else if code <= 12 {
      FaultEnabled(s, env.saved, env.t);
      var end := PassUpOrDie(k, env.saved, env.t);
      o := Some(end);
    }
    if e != None {
      StepInv(s, e.value);
    }
    SeenHandled(k, s, o, env, block);
  }

  /** The variables, which stood for s, now stand for what the exception makes of it. */
  lemma SeenHandled(k: Kernel, s: State, o: Option<Outcome>, env: Environment, block: Pcb?)
    requires Inv(s) && Shape(s) && Rooted(s.fo) && env.area.Valid() && k.Rep()
    requires var e := Exception(env, block);
      if e == None then o == None && k.st == s
      else Enabled(s, e.value) && o != None && Result(k.st, o.value) == Step(s, e.value)
    ensures Uniform(s) && Handled(ViewOf(s), Seen(k), o, env, block)
  {
    hide Kernel.Rep, Inv, Shape, Rooted, Step, Enabled, Uniform, Handled, Exception;
    InvUniform(s);
    ExceptionServed(s, env, block);
    SeenIs(k);
  }

  /** What the abstract step makes of an exception, by the bits of the Cause register. */
  lemma ExceptionServed(s: State, env: Environment, block: Pcb?)
    requires Inv(s) && Shape(s) && Rooted(s.fo) && env.area.Valid()
    requires var e := Exception(env, block); e != None ==> Enabled(s, e.value)
    ensures Uniform(s)
    ensures var e := Exception(env, block);
      if e == None then Handled(ViewOf(s), ViewOf(s), None, env, block)
      else
        var r := Step(s, e.value);
        Uniform(r.state) && Handled(ViewOf(s), ViewOf(r.state), Some(r.outcome), env, block)
  {
    hide Inv, Shape, Rooted, Step, Enabled, Uniform, Exception, CauseCode, Interruption, Request, InterruptEffect, ServiceEffect, Faults;
    InvUniform(s);
    ExceptionByBits(env, block);
    var code := CauseCode(env.saved.cause);
    if code == 0 {
      InterruptServed(s, env.saved, env.area, env.t);
    } else if code == 8 {
      RequestServed(s, env.saved, env.pointed, block, env.t);
    } else if code <= 12 {
      FaultView(s, env.saved, env.t);
    }
  }

  lemma ExceptionByBits(env: Environment, block: Pcb?)
    requires env.area.Valid()
    ensures var e, code := Exception(env, block), CauseCode(env.saved.cause);
      && (code == 0 ==> e == Some(Event(Interruption(env.saved.cause, env.area), env.saved, env.t)))
      && (code == 8 ==> e == Some(Event(Request(env.saved, env.pointed, block), env.saved.Advanced(), env.t)))
      && (code != 0 && code != 8 && code <= 12 ==> e == Some(Event(Fault, env.saved, env.t)))
      && (code > 12 ==> e == None)
  {
    hide ExcCode, CauseCode, Interruption, Request;
    ExcCodeIsBits(env.saved.cause);
  }

  lemma InterruptServed(s: State, saved: CpuState, area: DeviceArea, t: Times)
    requires area.Valid() && Shape(s) && Rooted(s.fo) && Enabled(s, Event(Interruption(saved.cause, area), saved, t))
    ensures var r := Step(s, Event(Interruption(saved.cause, area), saved, t));
      Uniform(s) && Uniform(r.state) && InterruptEffect(ViewOf(s), ViewOf(r.state), r.outcome, saved, area, t)
  {
    hide Shape, Rooted, Step, Enabled, Uniform, Signal, SliceEffect, TickEffect, DevicesEffect, Bit;
    MaskIsBit(saved.cause);
    if LinePending(saved.cause, 1) {
      SliceView(s, saved, t);
    } else if LinePending(saved.cause, 2) {
      TickView(s, saved, t);
    } else {
      DevicesView(s, saved, area, t);
    }
  }

  lemma FaultEnabled(s: State, saved: CpuState, t: Times)
    requires Monotone(s.cpu.clock, t) && s.pl.current != null
    ensures Enabled(s, Event(Fault, saved, t))
  {
  }
}
