/** Exceptions other than interrupts: SYSCALLs, traps, and what becomes of a process that cannot handle its own. */
module ExceptionHandlers {
  import opened Types
  import opened ActiveSemaphores
  import opened NucleusState
  import opened NucleusInvariants
  import opened NucleusKernel
  import opened NucleusScheduler
  import opened SystemCalls
  import opened ProcessTermination
  import opened ChildList
  import opened FamilyLinks
  import opened KernelViews
  import opened ServiceEffects

  const USERPON: bv32 := 0x8
  const SYS1_NUM := 1
  const SYS8_NUM := 8

  lemma CurrentEndable(s: State)
    requires Inv(s) && s.pl.current != null
    ensures Rooted(s.fo) && Endable(s, s.pl.current) && s.pl.waitsOn.Keys == s.pl.live && Shape(s)
    ensures Running(s) && Within(s.fo, s.pl.live)
  {
    hide Located, Queued, Kinship, Words, Rooted, Subtree, Shape;
    InvRunning(s);
    RunningDomains(s);
    InvRooted(s);
    assert Within(s.fo, s.pl.live) by { KinWithin(s.fo, s.pl.live); }
  }

  lemma KinWithin(fo: Forest, live: set<Pcb>)
    requires Kinship(fo) && fo.parent.Keys == live
    ensures Within(fo, live)
  {
    hide KidsDistinct, KidsComplete;
  }

  /** After the current process has been killed and forgotten, the scheduler can take over. */
  lemma AfterKill(s: State)
    requires Inv(s) && Shape(s) && Rooted(s.fo) && s.pl.current != null && s.pl.waitsOn.Keys == s.pl.live
    ensures var s1 := Kill(s, Subtree(s.fo, s.pl.current));
      var s2 := s1.(pl := Idle(s1.pl));
      s2 == DoTerminate(s) && Inv(s2) && (s2.pl.ready != [] ==> s2.pl.ready[0] in s2.cpu.regs)
  {
    hide Located, Queued, Kinship, Words, Kill, Subtree, Rooted;
    var dead := Subtree(s.fo, s.pl.current);
    InvRooted(s);
    SubtreeLive(s.fo, s.pl.current);
    SubtreeClosed(s.fo, s.pl.current);
    RootInSubtree(s.fo, s.pl.current);
    KillInv(s, dead);
    KillFacts(s, dead);
    IdleInv(Kill(s, dead));
    var s2 := Kill(s, dead).(pl := Idle(Kill(s, dead).pl));
    InvShape(s2);
    DomainsFacts(s2);
  }

  /** terminateProcess(currentProcess), and what follows it both in SYS2 and in passUpOrDie */
  method TerminateCurrent(k: Kernel, t: Times) returns (o: Outcome)
    requires k.Rep() && Inv(k.st) && k.st.pl.current != null && Rooted(k.st.fo) && Shape(k.st)
    modifies k, k.pcbs, k.asl, k.asl.table, k.cfg.pool
    ensures k.Rep() && Concludes(k.st, o, DoTerminate(old(k.st)), t)
    ensures forall x | x in k.st.pl.live && old(LaterChild(x)) ::
      x.leftSib !in k.st.pl.live <==> x == old(Bereft(k.currentProcess))
  {
    hide Kernel.Rep, Inv, Rooted, Shape, Kill, Subtree, Endable, Running, Within, LaterChild, Bereft;
    CurrentEndable(k.st);
    AfterKill(k.st);
    k.Known();
    EndCurrent(k);
    k.SetCurrent(null);
    o := Scheduler(k, t);
  }

  /** Up to the support level, or to the scheduler without the current process and its descendants. */
  lemma FaultStep(s: State, saved: CpuState, t: Times)
    requires Shape(s) && Rooted(s.fo) && Enabled(s, Event(Fault, saved, t))
    ensures s.pl.current != null && s.pl.current in s.cpu.support && s.pl.current in s.cpu.time
    ensures var r := Step(s, Event(Fault, saved, t));
      if s.cpu.support[s.pl.current] != None then r == Result(At(ChargeCurrent(s, t), t), PassUp(s.pl.current))
      else Finishable(DoTerminate(s)) && r == Conclude(DoTerminate(s), t)
  {
    hide Rooted, DoTerminate, Conclude;
    KillFinishable(s);
  }

  /** passUpOrDie. The state saved, which goes to the support structure, has no part in what the nucleus does. */
  method PassUpOrDie(k: Kernel, ghost saved: CpuState, t: Times) returns (o: Outcome)
    requires k.Rep() && Inv(k.st) && Shape(k.st) && Rooted(k.st.fo) && Enabled(k.st, Event(Fault, saved, t))
    modifies k, k.pcbs, k.asl, k.asl.table, k.cfg.pool
    ensures k.Rep() && Result(k.st, o) == Step(old(k.st), Event(Fault, saved, t))
    ensures Faults(old(Seen(k)), Seen(k), o, t)
  {
    hide Kernel.Rep, Inv, Rooted, DoTerminate, Conclude, Step, Shape, Enabled, Faults, Uniform;
    ghost var s := k.st;
    InvSeen(k);
    FaultStep(k.st, saved, t);
    k.Known();
    var given := k.SupportOf(k.currentProcess);
    if given != None {
      ChargeCurrentProcess(k, t);
      k.Known();
      k.NoteClock(t.resume);
      o := PassUp(k.currentProcess);
    } else {
      o := TerminateCurrent(k, t);
    }
    SeenFault(k, s, o, saved, t);
  }

  lemma SeenFault(k: Kernel, s: State, o: Outcome, saved: CpuState, t: Times)
    requires Inv(s) && Shape(s) && Rooted(s.fo) && Enabled(s, Event(Fault, saved, t))
    requires k.Rep() && Result(k.st, o) == Step(s, Event(Fault, saved, t))
    ensures Uniform(s) && Faults(ViewOf(s), Seen(k), o, t)
  {
    hide Kernel.Rep, Inv, Shape, Rooted, Step, Enabled, Uniform, Faults;
    FaultView(s, saved, t);
    SeenIs(k);
  }

  /** The variables stand for a state that can be seen. */
  lemma InvSeen(k: Kernel)
    requires k.Rep() && Inv(k.st)
    ensures Uniform(k.st) && Seen(k) == ViewOf(k.st)
  {
    hide Kernel.Rep, Inv, Uniform;
    InvUniform(k.st);
    SeenIs(k);
  }

  // ---------------------------------------------------------------- SYSCALL

  /** A register read as an address. */
  function AsAddress(word: int): Addr {
    if word >= 0 then word else word % 0x1_0000_0000
  }

  /** A register read as a pointer to a support structure. */
  function AsSupport(word: int): Option<int> {
    if word == NULL_WORD then None else Some(word)
  }

  /**
    What a SYSCALL with registers saved asks for. pointed is the state a1 points to,
    block the head of the free list.
    */
  function Request(saved: CpuState, pointed: CpuState, block: Pcb?): Action {
    var number, a1, a2, a3 := saved.reg[A0], saved.reg[A1], saved.reg[A2], saved.reg[A3];
    if saved.status & USERPON != 0 || number < SYS1_NUM || number > SYS8_NUM then Fault
    else if number == 1 then Create(pointed, AsSupport(a2), block)
    else if number == 2 then Terminate
    else if number == 3 then Passeren(AsAddress(a1))
    else if number == 4 then Verhogen(AsAddress(a1))
    else if number == 5 then WaitIO(a1, a2, a3)
    else if number == 6 then GetTime
    else if number == 7 then WaitClock
    else GetSupport
  }

  lemma UserWords(s: State)
    requires Inv(s)
    ensures forall a | a in s.ct.user :: !IsDummy(a)
  {
    hide Located, Queued, Kinship, Rooted, CurrentOk, Domains;
  }

  /** What callers owe the nucleus: semaphore addresses and devices that exist, and a clock that does not run backwards. */
  ghost predicate Admissible(s: State, act: Action, t: Times) {
    && Monotone(s.cpu.clock, t) && s.pl.current != null
    && (act.Passeren? || act.Verhogen? ==> act.a in s.ct.user)
    && (act.WaitIO? ==> LegalDevice(act.line, act.dev))
  }

  /** The head of the free list is a block that the creation of a process may use. */
  lemma AdmissibleIsEnabled(k: Kernel, saved: CpuState, pointed: CpuState, t: Times)
    requires k.Rep() && Admissible(k.st, Request(saved, pointed, k.pcbs.head), t)
    ensures Enabled(k.st, Event(Request(saved, pointed, k.pcbs.head), saved.Advanced(), t))
  {
    hide Kernel.Rep, AsAddress, AsSupport;
    k.Known();
    k.HeadFits();
  }

  lemma RequestIsService(saved: CpuState, pointed: CpuState, block: Pcb?)
    ensures var act := Request(saved, pointed, block); !(act.Slice? || act.Tick? || act.Device?)
    ensures var act := Request(saved, pointed, block); act.Create? ==> act.block == block
  {
  }

  /** The switch at the end of systemTrapHandler; the registers are in the state of the current process by now. */
  method Serve(k: Kernel, ghost saved: CpuState, pointed: CpuState, t: Times) returns (o: Outcome)
    requires k.Rep() && Inv(k.st) && k.st.pl.current != null && Rooted(k.st.fo) && Shape(k.st)
    requires k.st.cpu.regs[k.st.pl.current].reg == saved.reg
    requires !Request(saved, pointed, k.pcbs.head).Fault? && Admissible(k.st, Request(saved, pointed, k.pcbs.head), t)
    modifies k, k.pcbs, k.asl, k.asl.table, k.cfg.pool, k.semaphoreDevices
    ensures var act := Request(saved, pointed, old(k.pcbs.head));
      && (act.Create? && act.block != null ==> act.block in old(k.st).cfg.pool)
      && !(act.Slice? || act.Tick? || act.Device? || act.Fault?)
      && k.Rep() && Concludes(k.st, o, SysWork(old(k.st), act, t), t)
  {
    hide Kernel.Rep, Inv, Rooted, Shape, Running, Within, Endable, AsAddress, AsSupport;
    hide Concludes, DoCreate, DoTerminate, DoPasseren, DoVerhogen, DoWaitIO, DoGetTime, DoWaitClock, DoGetSupport;
    CurrentEndable(k.st);
    RunningDomains(k.st);
    UserWords(k.st);
    RequestIsService(saved, pointed, k.pcbs.head);
    k.Known();
    var cs := k.StateOf(k.currentProcess);
    match cs.reg[A0]
    case 1 => o := CreateProcess(k, pointed, AsSupport(cs.reg[A2]), t);
    case 2 => o := TerminateCurrent(k, t);
    case 3 => o := SystemCalls.Passeren(k, AsAddress(cs.reg[A1]), t);
    case 4 => o := SystemCalls.Verhogen(k, AsAddress(cs.reg[A1]), t);
    case 5 => o := WaitForIO(k, cs.reg[A1], cs.reg[A2], cs.reg[A3], t);
    case 6 => o := GetCpuTime(k, t);
    case 7 => o := WaitForClock(k, t);
    case _ => o := GetSupportData(k, t);
  }

  /** Saving the state of the caller keeps all that the services rely on. */
  lemma SavedReady(s: State, cs: CpuState, act: Action, t: Times)
    requires Inv(s) && Admissible(s, act, t)
    ensures var s1 := Save(s, s.pl.current, cs);
      && Inv(s1) && Rooted(s1.fo) && Shape(s1) && Admissible(s1, act, t)
      && s.pl.current in s.cpu.regs && s1.pl.current in s1.cpu.regs && s1.cpu.regs[s1.pl.current] == cs
  {
    hide Located, Queued, Rooted, Kinship, Words, Shape;
    DomainsFacts(s);
    SaveInv(s, s.pl.current, cs);
    InvShape(Save(s, s.pl.current, cs));
  }

  lemma FaultServed(s: State, saved: CpuState, pointed: CpuState, block: Pcb?, t: Times)
    requires Inv(s) && Shape(s) && Rooted(s.fo) && Enabled(s, Event(Request(saved, pointed, block), saved.Advanced(), t))
    requires saved.status & 0x8 != 0 || saved.reg[3] < 1 || saved.reg[3] > 8
    ensures var r := Step(s, Event(Request(saved, pointed, block), saved.Advanced(), t));
      Uniform(s) && Uniform(r.state) && Faults(ViewOf(s), ViewOf(r.state), r.outcome, t)
  {
    hide Inv, Shape, Rooted, Step, Enabled, Uniform, Faults;
    FaultView(s, saved.Advanced(), t);
  }

  lemma WaitServed(s: State, saved: CpuState, pointed: CpuState, block: Pcb?, t: Times)
    requires Inv(s) && Shape(s) && Rooted(s.fo) && Enabled(s, Event(Request(saved, pointed, block), saved.Advanced(), t))
    requires saved.status & 0x8 == 0 && saved.reg[3] in {3, 4, 5, 7}
    ensures var r := Step(s, Event(Request(saved, pointed, block), saved.Advanced(), t));
      && Uniform(s) && Uniform(r.state) && ServiceEffect(ViewOf(s), ViewOf(r.state), r.outcome, saved, pointed, block, t)
  {
    hide Inv, Shape, Rooted, Step, Enabled, Uniform, Faults, Creates, Ends, PasserenEffect, VerhogenEffect, WaitIOEffect, Answers, WaitClockEffect;
    CallerHasBlock(s, Event(Request(saved, pointed, block), saved.Advanced(), t));
    match saved.reg[3]
    case 3 => PasserenView(s, saved, AsAddress(saved.reg[4]), t);
    case 4 => VerhogenView(s, saved, AsAddress(saved.reg[4]), t);
    case 5 => WaitIOView(s, saved, saved.reg[4], saved.reg[5], saved.reg[6], t);
    case _ => WaitClockView(s, saved, t);
  }

  lemma CallerHasBlock(s: State, e: Event)
    requires Inv(s) && Enabled(s, e) && !(e.act.Slice? || e.act.Tick? || e.act.Device?)
    ensures Uniform(s) && s.pl.current != null && s.pl.current in ViewOf(s).slots
  {
    hide Located, Queued, Rooted, Kinship, Words;
    InvUniform(s);
  }

  lemma OtherServed(s: State, saved: CpuState, pointed: CpuState, block: Pcb?, t: Times)
    requires Inv(s) && Shape(s) && Rooted(s.fo) && Enabled(s, Event(Request(saved, pointed, block), saved.Advanced(), t))
    requires saved.status & 0x8 == 0 && saved.reg[3] in {1, 2, 6, 8}
    ensures var r := Step(s, Event(Request(saved, pointed, block), saved.Advanced(), t));
      && Uniform(s) && Uniform(r.state) && ServiceEffect(ViewOf(s), ViewOf(r.state), r.outcome, saved, pointed, block, t)
  {
    hide Inv, Shape, Rooted, Step, Enabled, Uniform, Faults, Creates, Ends, PasserenEffect, VerhogenEffect, WaitIOEffect, Answers, WaitClockEffect;
    CallerHasBlock(s, Event(Request(saved, pointed, block), saved.Advanced(), t));
    match saved.reg[3]
    case 1 => CreateView(s, saved, pointed, AsSupport(saved.reg[5]), block, t);
    case 2 => TerminateView(s, Event(Terminate, saved.Advanced(), t));
    case 6 => GetTimeView(s, saved, t);
    case _ => GetSupportView(s, saved, t);
  }

  /** Every SYSCALL does what the words of the registers ask for. */
  lemma RequestServed(s: State, saved: CpuState, pointed: CpuState, block: Pcb?, t: Times)
    requires Inv(s) && Shape(s) && Rooted(s.fo) && Enabled(s, Event(Request(saved, pointed, block), saved.Advanced(), t))
    ensures var r := Step(s, Event(Request(saved, pointed, block), saved.Advanced(), t));
      && Uniform(s) && Uniform(r.state) && ServiceEffect(ViewOf(s), ViewOf(r.state), r.outcome, saved, pointed, block, t)
  {
    hide Inv, Shape, Rooted, Step, Enabled, Uniform, Faults, Creates, Ends, PasserenEffect, VerhogenEffect, WaitIOEffect, Answers, WaitClockEffect, Request;
    var number := saved.reg[3];
    RequestIsService(saved, pointed, block);
    if saved.status & 0x8 != 0 || number < 1 || number > 8 {
      CallerHasBlock(s, Event(Request(saved, pointed, block), saved.Advanced(), t));
      FaultServed(s, saved, pointed, block, t);
    } else if number == 1 || number == 2 || number == 6 || number == 8 {
      OtherServed(s, saved, pointed, block, t);
    } else {
      WaitServed(s, saved, pointed, block, t);
    }
  }

  /** The variables, which stood for s, now stand for what the SYSCALL makes of it. */
  lemma SeenServed(k: Kernel, s: State, o: Outcome, saved: CpuState, pointed: CpuState, block: Pcb?, t: Times)
    requires Inv(s) && Shape(s) && Rooted(s.fo) && Enabled(s, Event(Request(saved, pointed, block), saved.Advanced(), t))
    requires k.Rep() && Result(k.st, o) == Step(s, Event(Request(saved, pointed, block), saved.Advanced(), t))
    ensures Uniform(s) && ServiceEffect(ViewOf(s), Seen(k), o, saved, pointed, block, t)
  {
    hide Kernel.Rep, Inv, Shape, Rooted, Step, Enabled, Uniform, ServiceEffect, Request;
    RequestServed(s, saved, pointed, block, t);
    SeenIs(k);
  }

  /**
    The exception state is saved with the program counter behind the SYSCALL instruction. What happens to the
    variables of the nucleus and to the fields of the processes is fixed by the words of the registers.
    */
  method SystemTrapHandler(k: Kernel, saved: CpuState, pointed: CpuState, t: Times) returns (o: Outcome)
    requires k.Rep() && Inv(k.st) && Admissible(k.st, Request(saved, pointed, k.pcbs.head), t)
    modifies k, k.pcbs, k.asl, k.asl.table, k.cfg.pool, k.semaphoreDevices
    ensures var e := Event(Request(saved, pointed, old(k.pcbs.head)), saved.Advanced(), t);
      && Shape(old(k.st)) && Rooted(old(k.st).fo) && Enabled(old(k.st), e)
      && k.Rep() && Result(k.st, o) == Step(old(k.st), e)
    ensures ServiceEffect(old(Seen(k)), Seen(k), o, saved, pointed, old(k.pcbs.head), t)
  {
    hide Kernel.Rep, Inv, Rooted, Shape, Enabled, Admissible, SysWork, Save, Conclude, ServiceEffect, Uniform;
    AdmissibleIsEnabled(k, saved, pointed, t);
    AdmissibleCurrent(k.st, Request(saved, pointed, k.pcbs.head), t);
    SavedReady(k.st, saved.Advanced(), Request(saved, pointed, k.pcbs.head), t);
    RequestIsService(saved, pointed, k.pcbs.head);
    InvSeen(k);
    ghost var s, block := k.st, k.pcbs.head;
    var number := saved.reg[A0];
    if saved.status & USERPON != 0 {
      o := PassUpOrDie(k, saved.Advanced(), t);
    } else if number < SYS1_NUM || number > SYS8_NUM {
      o := PassUpOrDie(k, saved.Advanced(), t);
    } else {
      k.Known();
      k.MoveState(saved.Advanced(), k.currentProcess);
      o := Serve(k, saved, pointed, t);
    }
    SeenServed(k, s, o, saved, pointed, block, t);
  }

  lemma AdmissibleCurrent(s: State, act: Action, t: Times)
    requires Inv(s) && Admissible(s, act, t)
    ensures s.pl.current != null && s.pl.current in s.cpu.regs && Shape(s) && Rooted(s.fo)
  {
    hide Located, Queued, Kinship, Rooted, Words, Shape;
    InvShape(s);
    DomainsFacts(s);
  }
}
