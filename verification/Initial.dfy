/** main(): from nothing to the first process. */
module NucleusInitial {
  import opened Types
  import opened ActiveSemaphores
  import opened NucleusState
  import opened NucleusInvariants
  import opened NucleusKernel
  import opened NucleusScheduler
  import opened SchedulerVerdicts

  const IEPON: bv32 := 0x4
  const PLTON: bv32 := 0x0800_0000
  const IMON: bv32 := 0xFF00
  const T9 := 24
  const SP := 26

  /** The processor state of the first process, in a block that held the state cs. */
  function FirstState(cs: CpuState, entry: int, ramTop: int): CpuState {
    cs.(status := IEPON | PLTON | IMON, pc := entry, reg := cs.reg[SP := ramTop][T9 := entry])
  }

  method InitDeviceSemaphores(k: Kernel)
    requires k.Rep() && |k.st.ct.dev| == MAX_DEVICE_COUNT
    modifies k`st, k.semaphoreDevices
    ensures k.Rep()
    ensures k.st == old(k.st).(ct := old(k.st).ct.(dev := seq(MAX_DEVICE_COUNT, _ => 0)))
  {
    hide Kernel.Rep;
    ghost var s := k.st;
    for i := 0 to MAX_DEVICE_COUNT
      invariant k.Rep() && |k.st.ct.dev| == MAX_DEVICE_COUNT
      invariant forall j :: 0 <= j < i ==> k.st.ct.dev[j] == 0
      invariant k.st == s.(ct := s.ct.(dev := k.st.ct.dev))
    {
      k.SetDevice(i, 0);
    }
    assert k.st.ct.dev == seq(MAX_DEVICE_COUNT, _ => 0);
  }

  /** The assignments to p_s of the first process. */
  method SetFirstState(k: Kernel, p: Pcb, entry: int, ramTop: int)
    requires k.Rep() && p in k.st.cpu.regs && k.st.cpu.regs[p] == ZERO_STATE
    modifies k`st, k.cfg.pool`state
    ensures k.Rep() && k.st == Save(old(k.st), p, FirstState(ZERO_STATE, entry, ramTop))
  {
    hide Kernel.Rep;
    k.Known();
    var cs := k.StateOf(p);
    cs := cs.(reg := cs.reg[SP := ramTop]);
    cs := cs.(pc := entry);
    cs := cs.(reg := cs.reg[T9 := entry]);
    cs := cs.(status := IEPON | PLTON | IMON);
    k.SetState(p, cs);
  }

  lemma FirstProcess(cfg: Config, root: Pcb, words: map<Addr, int>, cs: CpuState, first: CpuState)
    ensures var dev := seq(MAX_DEVICE_COUNT, _ => 0);
      var s1 := Save(Newborn(Kernel.Empty(cfg, words, dev), root, cs), root, first);
      var s2 := s1.(pl := Enqueue(s1.pl, root));
      s2.(ct := s2.ct.(procs := s2.ct.procs + 1)) == Initial(cfg, root, words, first, 0, 0)
  {
  }

  /** There is a first process, unless the table of blocks is empty. */
  method AdmitFirst(k: Kernel, entry: int, ramTop: int) returns (p: Pcb?)
    requires k.Rep() && k.st == Kernel.Empty(k.cfg, k.st.ct.user, seq(MAX_DEVICE_COUNT, _ => 0))
    requires forall b | b in k.pcbs.free :: b.state == ZERO_STATE
    modifies k`st, k`readyQueue, k`processCount, k.pcbs, k.cfg.pool
    ensures k.Rep() && p == old(k.pcbs.head)
    ensures p == null ==> k.cfg.pool == {} && k.st == old(k.st)
    ensures p != null ==> p in k.cfg.pool
    ensures p != null ==> k.st == Initial(k.cfg, p, old(k.st).ct.user, FirstState(ZERO_STATE, entry, ramTop), 0, 0)
  {
    hide Kernel.Rep;
    k.Known();
    k.HeadInPool();
    k.HeadFree();
    p := k.AllocPcb();
    if p != null {
      FirstProcess(k.cfg, p, old(k.st).ct.user, p.state, FirstState(ZERO_STATE, entry, ramTop));
      SetFirstState(k, p, entry, ramTop);
      k.ReadyInsert(p);
      k.AddProcesses(1);
    }
  }

  /** pc and t9 are the address of the program, sp is the top of memory, interrupts and the timer are on; all else is clear. */
  ghost predicate FirstLoaded(cs: CpuState, entry: int, ramTop: int) {
    && cs.pc == entry && cs.reg[26] == ramTop && cs.reg[24] == entry
    && cs.status == 0x0800_FF04 && cs.cause == 0 && cs.entryHI == 0
    && forall i | 0 <= i < 31 && i != 24 && i != 26 :: cs.reg[i] == 0
  }

  /** The only process runs, nobody waits, and all device semaphores are zero. */
  ghost predicate FirstRuns(k: Kernel, p: Pcb, words: map<Addr, int>, t: Times)
    reads k, k.asl, k.semaphoreDevices
  {
    && k.currentProcess == p && p in k.cfg.pool && k.startTod == t.resume && k.processCount == 1
    && k.softBlockedCount == 0 && k.memory == words && k.st.pl.ready == [] && k.asl.queues == map[]
    && k.semaphoreDevices.Length == 49 && forall i | 0 <= i < 49 :: k.semaphoreDevices[i] == 0
  }

  lemma FirstStateIs(entry: int, ramTop: int)
    ensures FirstLoaded(FirstState(ZERO_STATE, entry, ramTop), entry, ramTop)
  {
  }

  lemma FirstIsDispatched(cfg: Config, root: Pcb, words: map<Addr, int>, init: CpuState, t: Times)
    ensures var r := Schedule(Initial(cfg, root, words, init, 0, 0), t); var s := r.state;
      && r.outcome == Run(root, init) && s.pl.current == root && s.pl.ready == [] && s.pl.blocked == map[]
      && s.cpu.start == t.resume && s.ct.procs == 1 && s.ct.soft == 0 && s.ct.user == words
      && s.ct.dev == seq(49, _ => 0)
  {
  }

  lemma BootInv(cfg: Config, root: Pcb, words: map<Addr, int>, init: CpuState, t: Times)
    requires Bootable(cfg, root, words)
    ensures Inv(Schedule(Initial(cfg, root, words, init, 0, 0), t).state)
  {
    hide Inv, Schedule;
    var s := Initial(cfg, root, words, init, 0, 0);
    InitialInv(cfg, root, words, init, 0, 0);
    InvShape(s);
    ScheduleInv(s, t);
  }

  /** words are the semaphores of the user programs, base is the address of semaphoreDevices[0]. */
  method Boot(maxProc: nat, base: Addr, words: map<Addr, int>, entry: int, ramTop: int, t: Times)
    returns (k: Kernel, o: Outcome)
    requires base > MAXINT && forall a | a in words :: !IsDummy(a) && !IsDevAddr(base, a)
    ensures fresh(k) && fresh(k.pcbs) && fresh(k.asl) && fresh(k.asl.table) && fresh(k.cfg.pool) && fresh(k.semaphoreDevices)
    ensures k.Rep() && |k.cfg.pool| == maxProc && k.cfg.devBase == base
    ensures maxProc == 0 ==> o == Panic
    ensures maxProc > 0 ==> exists root: Pcb | root in k.cfg.pool && Bootable(k.cfg, root, words) ::
      Result(k.st, o) == Schedule(Initial(k.cfg, root, words, FirstState(ZERO_STATE, entry, ramTop), 0, 0), t)
    ensures maxProc > 0 ==> Inv(k.st)
    ensures maxProc > 0 ==> o.Run? && FirstLoaded(o.loaded, entry, ramTop) && FirstRuns(k, o.p, words, t)
  {
    hide Kernel.Rep, Inv, FirstState, Schedule, FirstLoaded;
    k := new Kernel(maxProc, base, words);
    InitDeviceSemaphores(k);
    var p := AdmitFirst(k, entry, ramTop);
    if p != null {
      o := Scheduler(k, t);
      BootInv(k.cfg, p, words, FirstState(ZERO_STATE, entry, ramTop), t);
      FirstStateIs(entry, ramTop);
      FirstIsDispatched(k.cfg, p, words, FirstState(ZERO_STATE, entry, ramTop), t);
      k.Known();
      k.PlacesAre();
      assert forall i | 0 <= i < 49 :: k.semaphoreDevices[i] == k.semaphoreDevices[..][i];
      return;
    }
    o := Panic;
  }
}
