/** The services of the nucleus other than termination, each proved to do what the abstract step does. */
module SystemCalls {
  import opened Types
  import opened ActiveSemaphores
  import opened NucleusState
  import opened NucleusInvariants
  import opened NucleusKernel
  import opened NucleusScheduler

  /** What the handlers rely on: there is a current process, and it is in no queue. */
  ghost predicate Running(s: State) {
    && Shape(s) && s.pl.current != null && s.cfg.devBase > MAXINT
    && s.pl.current in s.pl.waitsOn && s.pl.waitsOn[s.pl.current] == None && s.pl.current !in s.pl.ready
  }

  lemma InvRunning(s: State)
    requires Inv(s) && s.pl.current != null
    ensures Running(s)
  {
    hide Queued, Rooted, BlockedSound, BlockedComplete, ReadyComplete, Kinship, Domains, Shape;
    InvShape(s);
    DomainsFacts(s);
  }

  lemma RunningDomains(s: State)
    requires Running(s)
    ensures Shape(s) && Domains(s) && s.pl.current in s.pl.live
    ensures s.pl.current in s.cpu.regs && s.pl.current in s.cpu.time && s.pl.current in s.fo.kids
  {
  }

  /** STCK(curr_TOD) and updateProcessTimeHelper for the current process */
  method ChargeCurrentProcess(k: Kernel, t: Times)
    requires k.Rep() && k.st.pl.current != null && k.st.pl.current in k.st.cpu.time
    modifies k`st, k`currTod, k.cfg.pool`time
    ensures k.Rep() && k.st == ChargeCurrent(old(k.st), t)
  {
    hide Kernel.Rep;
    k.Known();
    k.currTod := t.mid;
    k.UpdateProcessTime(k.currentProcess, k.startTod, k.currTod);
  }

  /** The common end of the services that do not block. */
  method ChargeAndContinue(k: Kernel, t: Times) returns (o: Outcome)
    requires k.Rep() && Domains(k.st) && k.st.pl.current != null && k.st.pl.current in k.st.pl.live
    modifies k`st, k`currTod, k`currentProcess, k`startTod, k.cfg.pool`time
    ensures k.Rep() && Concludes(k.st, o, ChargeCurrent(old(k.st), t), t)
  {
    hide Kernel.Rep;
    ChargeCurrentProcess(k, t);
    o := ResumeCurrent(k, t);
  }

  method BlockCurrentProcess(k: Kernel, a: Addr, t: Times)
    requires k.Rep() && Running(k.st) && !IsDummy(a)
    modifies k`st, k`currTod, k`currentProcess, k.asl, k.asl.table, k.cfg.pool
    ensures k.Rep()
    ensures k.st == BlockCurrent(old(k.st), a, t)
  {
    hide Kernel.Links, Kernel.TreeOk, Kernel.CountsOk, Kernel.CpuOk;
    ChargeCurrentProcess(k, t);
    k.InsertBlocked(k.currentProcess, a);
    k.SetCurrent(null);
  }

  lemma BlockedWaits(s: State, a: Addr, t: Times)
    requires Running(s)
    ensures Finishable(BlockCurrent(s, a, t)) && BlockCurrent(s, a, t).pl.current == null
  {
  }

  /** blockCurrentProcessHelper and scheduler() */
  method BlockThenSchedule(k: Kernel, a: Addr, t: Times) returns (o: Outcome)
    requires k.Rep() && Running(k.st) && !IsDummy(a)
    modifies k, k.asl, k.asl.table, k.cfg.pool
    ensures k.Rep() && Concludes(k.st, o, BlockCurrent(old(k.st), a, t), t)
  {
    hide Kernel.Rep, Shape, BlockCurrent, Domains;
    BlockedWaits(k.st, a, t);
    BlockCurrentProcess(k, a, t);
    o := Scheduler(k, t);
  }

  /** SYS3 */
  method Passeren(k: Kernel, a: Addr, t: Times) returns (o: Outcome)
    requires k.Rep() && Running(k.st) && a in k.st.ct.user && !IsDummy(a)
    modifies k, k.asl, k.asl.table, k.cfg.pool
    ensures k.Rep() && Concludes(k.st, o, DoPasseren(old(k.st), a, t), t)
  {
    hide Kernel.Links, Kernel.TreeOk, Kernel.CpuOk, BlockCurrent, ChargeCurrent;
    k.SetMemory(a, k.memory[a] - 1);
    if k.memory[a] < 0 {
      o := BlockThenSchedule(k, a, t);
      return;
    }
    o := ChargeAndContinue(k, t);
  }

  /** removeBlocked(a), and insertProcQ for the process found */
  method WakeFirst(k: Kernel, a: Addr)
    requires k.Rep() && !IsDummy(a)
    modifies k`st, k`readyQueue, k.asl, k.asl.table, k.cfg.pool
    ensures k.Rep() && (a in old(k.st).pl.blocked ==> old(k.st).pl.blocked[a] != [])
    ensures k.st == old(k.st).(pl := Wake(old(k.st).pl, a))
  {
    hide Kernel.Rep;
    ghost var s := k.st;
    if a in s.pl.blocked && s.pl.blocked[a] != [] {
      k.FirstWaiter(a);
    }
    var p := k.RemoveBlocked(a);
    if p != null {
      k.ReadyInsert(p);
    }
  }

  /** SYS4 */
  method Verhogen(k: Kernel, a: Addr, t: Times) returns (o: Outcome)
    requires k.Rep() && Running(k.st) && a in k.st.ct.user && !IsDummy(a)
    modifies k, k.asl, k.asl.table, k.cfg.pool
    ensures k.Rep() && Concludes(k.st, o, DoVerhogen(old(k.st), a, t), t)
  {
    hide Kernel.Links, Kernel.TreeOk, Kernel.CpuOk, BlockCurrent, ChargeCurrent;
    k.SetMemory(a, k.memory[a] + 1);
    if k.memory[a] <= 0 {
      WakeFirst(k, a);
    }
    o := ChargeAndContinue(k, t);
  }

  /** SYS5 */
  method WaitForIO(k: Kernel, line: int, dev: int, read: int, t: Times) returns (o: Outcome)
    requires k.Rep() && Running(k.st) && LegalDevice(line, dev)
    modifies k, k.asl, k.asl.table, k.cfg.pool, k.semaphoreDevices
    ensures k.Rep() && Concludes(k.st, o, DoWaitIO(old(k.st), SemIndex(line, dev, read), t), t)
  {
    hide Kernel.Rep, BlockCurrent, ChargeCurrent;
    var index := (line - BASE_LINE) * DEV_PER_INT + dev;
    if line == LINE7 && read != 1 {
      index := index + DEV_PER_INT;
    }
    k.Known();
    k.AddSoftBlocked(1);
    k.SetDevice(index, k.semaphoreDevices[index] - 1);
    k.Known();
    if k.semaphoreDevices[index] < 0 {
      o := BlockThenSchedule(k, DevAddr(k.devBase, index), t);
      return;
    }
    o := ChargeAndContinue(k, t);
  }

  /** The first half of SYS6: the time used so far goes to v0. */
  method ReportTime(k: Kernel, t: Times)
    requires k.Rep() && k.st.pl.current != null && k.st.pl.current in k.st.cpu.time && k.st.pl.current in k.st.cpu.regs
    modifies k`st, k`currTod, k.cfg.pool
    ensures k.Rep()
    ensures k.st == Reported(old(k.st), t)
  {
    hide Kernel.Rep;
    ChargeCurrentProcess(k, t);
    k.Known();
    var total := k.TimeOf(k.currentProcess);
    k.SetV0(k.currentProcess, total);
  }

  /** The state after the first half of SYS6. */
  ghost function Reported(s: State, t: Times): State
    requires s.pl.current != null && s.pl.current in s.cpu.time && s.pl.current in s.cpu.regs
  {
    var s1, cur := ChargeCurrent(s, t), s.pl.current;
    Save(s1, cur, s1.cpu.regs[cur].WithV0(s1.cpu.time[cur]))
  }

  lemma ReportedFacts(s: State, t: Times)
    requires Running(s)
    ensures s.pl.current in s.cpu.time && s.pl.current in s.cpu.regs
    ensures var s1, cur := Reported(s, t), s.pl.current;
      && s1.pl.current == cur && cur in s1.cpu.time
      && var s2 := Charge(s1, cur, t.late - s1.cpu.start);
        s2.pl.current == cur && cur in s2.cpu.regs && DoGetTime(s, t) == s2
  {
  }

  /** SYS6 */
  method GetCpuTime(k: Kernel, t: Times) returns (o: Outcome)
    requires k.Rep() && Running(k.st)
    modifies k, k.cfg.pool
    ensures k.Rep() && Concludes(k.st, o, DoGetTime(old(k.st), t), t)
  {
    hide Kernel.Rep, Shape, Reported, Charge, DoGetTime;
    ReportedFacts(k.st, t);
    ReportTime(k, t);
    k.Known();
    k.currTod := t.late;
    k.UpdateProcessTime(k.currentProcess, k.startTod, k.currTod);
    o := ResumeCurrent(k, t);
  }

  /** SYS7 */
  method WaitForClock(k: Kernel, t: Times) returns (o: Outcome)
    requires k.Rep() && Running(k.st)
    modifies k, k.asl, k.asl.table, k.cfg.pool, k.semaphoreDevices
    ensures k.Rep() && Concludes(k.st, o, DoWaitClock(old(k.st), t), t)
  {
    hide Kernel.Rep, BlockCurrent, ChargeCurrent;
    k.Known();
    k.SetDevice(CLOCK_INDEX, k.semaphoreDevices[CLOCK_INDEX] - 1);
    k.Known();
    if k.semaphoreDevices[CLOCK_INDEX] < 0 {
      k.AddSoftBlocked(1);
      o := BlockThenSchedule(k, DevAddr(k.devBase, CLOCK_INDEX), t);
      return;
    }
    o := ChargeAndContinue(k, t);
  }

  /** SYS8 */
  method GetSupportData(k: Kernel, t: Times) returns (o: Outcome)
    requires k.Rep() && Running(k.st)
    modifies k, k.cfg.pool
    ensures k.Rep() && Concludes(k.st, o, DoGetSupport(old(k.st), t), t)
  {
    hide Kernel.Rep, ChargeCurrent;
    k.Known();
    var given := k.SupportOf(k.currentProcess);
    k.SetV0(k.currentProcess, if given == None then NULL_WORD else given.value);
    o := ChargeAndContinue(k, t);
  }

  ghost function Furnished(s: State, block: Pcb, init: CpuState, given: Option<int>): State {
    s.(cpu := s.cpu.(regs := s.cpu.regs[block := init], support := s.cpu.support[block := given]))
  }

  /** The first assignments of createProcess to the new block. */
  method SetUp(k: Kernel, block: Pcb, init: CpuState, given: Option<int>)
    requires k.Rep() && block in k.st.cpu.regs && block in k.st.cpu.support
    modifies k`st, block
    ensures k.Rep() && k.st == Furnished(old(k.st), block, init, given)
  {
    hide Kernel.Rep;
    k.MoveState(init, block);
    k.SetSupport(block, given);
  }

  lemma BornReady(s: State, init: CpuState, given: Option<int>, block: Pcb)
    requires Running(s) && block in s.cfg.pool
    ensures s.pl.current in s.fo.kids && Domains(Born(s, init, given, block))
    ensures var s1 := Born(s, init, given, block);
      && s1.pl.current == s.pl.current && s1.ct == s.ct.(procs := s.ct.procs + 1)
      && s.pl.current in s1.pl.live && s.pl.current in s1.cpu.regs
  {
    hide ReadySound;
    BornShape(s, init, given, block);
  }

  /** The steps in which createProcess makes block a live process, one after the other. */
  lemma BornInSteps(s: State, init: CpuState, given: Option<int>, block: Pcb, cs: CpuState)
    requires s.pl.current != null && s.pl.current in s.fo.kids && s.pl.current != block
    ensures var s1 := Newborn(s, block, cs);
      var s2 := Furnished(s1, block, init, given);
      var s3 := s2.(fo := Adopted(s2.fo, s.pl.current, block));
      s3.(pl := Enqueue(s3.pl, block)) == Born(s, init, given, block).(ct := s.ct)
  {
    var cur := s.pl.current;
    var s1 := Newborn(s, block, cs);
    var s2 := Furnished(s1, block, init, given);
    var fo, b := Adopted(s2.fo, cur, block), Born(s, init, given, block);
    assert fo.parent == b.fo.parent;
    assert fo.kids == b.fo.kids;
    assert s2.cpu.regs == b.cpu.regs;
    assert s2.cpu.support == b.cpu.support;
  }

  /** The new process is there, but not yet counted. */
  method AdmitProcess(k: Kernel, init: CpuState, given: Option<int>) returns (block: Pcb?)
    requires k.Rep() && Running(k.st) && Within(k.st.fo, k.st.pl.live)
    modifies k`st, k`readyQueue, k.pcbs, k.cfg.pool
    ensures k.Rep() && block == old(k.pcbs.head)
    ensures block == null ==> k.st == old(k.st) && k.st.pl.live == k.cfg.pool
    ensures block != null ==> block in k.cfg.pool && block !in old(k.st.pl.live)
    ensures block != null ==> k.st == Born(old(k.st), init, given, block).(ct := old(k.st).ct)
  {
    hide Kernel.Rep, Shape, Within, Born;
    RunningDomains(k.st);
    k.Known();
    k.HeadInPool();
    block := k.AllocPcb();
    if block != null {
      BornInSteps(old(k.st), init, given, block, block.state);
      SetUp(k, block, init, given);
      k.Known();
      k.InsertChild(k.currentProcess, block);
      k.ReadyInsert(block);
    }
  }

  /** The state in which createProcess charges its caller. */
  ghost function Created(s: State, init: CpuState, given: Option<int>, block: Pcb?): State
    requires Running(s) && (block != null ==> block in s.cfg.pool)
  {
    var cur := s.pl.current;
    if block != null then
      BornReady(s, init, given, block);
      var s1 := Born(s, init, given, block);
      Save(s1, cur, s1.cpu.regs[cur].WithV0(SUCCESS))
    else Save(s, cur, s.cpu.regs[cur].WithV0(ERROR))
  }

  lemma CreatedFacts(s: State, init: CpuState, given: Option<int>, block: Pcb?, t: Times)
    requires Running(s) && (block != null ==> block in s.cfg.pool)
    ensures var s1 := Created(s, init, given, block);
      && Domains(s1) && s1.pl.current == s.pl.current && s1.pl.current in s1.pl.live
      && DoCreate(s, init, given, block, t) == ChargeCurrent(s1, t)
  {
    if block != null {
      BornReady(s, init, given, block);
    }
  }

  /** v0 of the current process says success, and one more process is counted. */
  ghost function Counted(s: State): State
    requires s.pl.current != null && s.pl.current in s.cpu.regs
  {
    var s1 := Save(s, s.pl.current, s.cpu.regs[s.pl.current].WithV0(SUCCESS));
    s1.(ct := s1.ct.(procs := s1.ct.procs + 1))
  }

  method CountIn(k: Kernel)
    requires k.Rep() && k.st.pl.current != null && k.st.pl.current in k.st.cpu.regs
    modifies k`st, k`processCount, k.cfg.pool`state
    ensures k.Rep() && k.st == Counted(old(k.st))
  {
    hide Kernel.Rep;
    k.Known();
    k.SetV0(k.currentProcess, SUCCESS);
    k.AddProcesses(1);
  }

  lemma CountedLast(b: State, ct: Counters)
    requires b.pl.current != null && b.pl.current in b.cpu.regs && b.ct == ct.(procs := ct.procs + 1)
    ensures Counted(b.(ct := ct)) == Save(b, b.pl.current, b.cpu.regs[b.pl.current].WithV0(SUCCESS))
  {
  }

  /** All of createProcess but the end it has in common with other services. */
  method MakeProcess(k: Kernel, init: CpuState, given: Option<int>) returns (block: Pcb?)
    requires k.Rep() && Running(k.st) && Within(k.st.fo, k.st.pl.live)
    modifies k`st, k`readyQueue, k`processCount, k.pcbs, k.cfg.pool
    ensures k.Rep() && block == old(k.pcbs.head)
    ensures block == null ==> old(k.st).pl.live == k.cfg.pool
    ensures block != null ==> block in old(k.st).cfg.pool && block !in old(k.st).pl.live
    ensures k.st == Created(old(k.st), init, given, block)
  {
    hide Kernel.Rep, Born, Shape, Running, Counted;
    RunningDomains(k.st);
    k.Known();
    block := AdmitProcess(k, init, given);
    k.Known();
    if block != null {
      BornReady(old(k.st), init, given, block);
      CountedLast(Born(old(k.st), init, given, block), old(k.st).ct);
      CountIn(k);
    } else {
      k.SetV0(k.currentProcess, ERROR);
    }
  }

  /** The block of the new process, once the caller has gone on. */
  lemma BornBlock(k: Kernel, s: State, o: Outcome, init: CpuState, given: Option<int>, block: Pcb, t: Times)
    requires Shape(s) && s.pl.current != null && block in s.cfg.pool && block !in s.pl.live
    requires k.Rep() && Concludes(k.st, o, DoCreate(s, init, given, block, t), t)
    ensures block.state == init && block.support == given && block.time == 0 && block.parent == s.pl.current
    ensures k.st.pl.ready == s.pl.ready + [block] && k.currentProcess == s.pl.current
  {
    hide Kernel.Rep;
    BornFields(s, k.st, o, init, given, block, t);
    k.Known();
    k.FieldsAre();
    k.ParentIs(block);
  }

  lemma BornFields(s: State, s1: State, o: Outcome, init: CpuState, given: Option<int>, block: Pcb, t: Times)
    requires Shape(s) && s.pl.current != null && block in s.cfg.pool && block !in s.pl.live
    requires Concludes(s1, o, DoCreate(s, init, given, block, t), t)
    ensures block in s1.cpu.regs && block in s1.cpu.support && block in s1.cpu.time && block in s1.fo.parent
    ensures block in s1.pl.live
    ensures s1.cpu.regs[block] == init && s1.cpu.support[block] == given && s1.cpu.time[block] == 0
    ensures s1.fo.parent[block] == s.pl.current && s1.pl.ready == s.pl.ready + [block] && s1.pl.current == s.pl.current
  {
  }

  /** SYS1. init is the state a1 points to, given the support structure a2 points to, if any. */
  method CreateProcess(k: Kernel, init: CpuState, given: Option<int>, t: Times) returns (o: Outcome)
    requires k.Rep() && Running(k.st) && Within(k.st.fo, k.st.pl.live)
    modifies k, k.pcbs, k.cfg.pool
    ensures var block := old(k.pcbs.head);
      && (if block == null then old(k.st).pl.live == old(k.st).cfg.pool
          else block in old(k.st).cfg.pool && block !in old(k.st).pl.live)
      && k.Rep() && Concludes(k.st, o, DoCreate(old(k.st), init, given, block, t), t)
      && (block != null ==>
            && block.state == init && block.support == given && block.time == 0 && block.parent == old(k.currentProcess)
            && k.st.pl.ready == old(k.st).pl.ready + [block] && k.currentProcess == old(k.currentProcess))
  {
    hide Kernel.Rep, ChargeCurrent, Created, Shape, Running, DoCreate;
    k.Known();
    RunningDomains(k.st);
    var block := MakeProcess(k, init, given);
    CreatedFacts(old(k.st), init, given, block, t);
    o := ChargeAndContinue(k, t);
    if block != null {
      RunningShape(old(k.st));
      BornBlock(k, old(k.st), o, init, given, block, t);
    }
  }

  lemma RunningShape(s: State)
    requires Running(s)
    ensures Shape(s) && s.pl.current != null
  {
    hide Shape;
  }
}
