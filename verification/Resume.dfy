/** A process that stopped running resumes with the processor state it had. */
module ResumeFidelity {
  import opened Collections
  import opened Types
  import opened NucleusState
  import opened NucleusInvariants
  import opened NucleusRuns
  import opened Endings

  /** The status that the exception puts into v0 of p, if it is the device interrupt that wakes p. */
  ghost function Delivery(s: State, e: Event, p: Pcb): Option<int>
    requires Shape(s) && Enabled(s, e)
  {
    match e.act
    case Device(i, status) =>
      var a := DevAddr(s.cfg.devBase, i);
      if a in s.pl.blocked && s.pl.blocked[a][0] == p then Some(status) else None
    case _ => None
  }

  ghost function Patched(cs: CpuState, status: Option<int>): CpuState {
    match status case Some(v) => cs.WithV0(v) case None => cs
  }

  lemma ParkedSysWork(s: State, act: Action, t: Times, p: Pcb)
    requires Shape(s) && Rooted(s.fo) && s.pl.current != null && p in s.pl.live && p != s.pl.current
    requires act.Passeren? || act.Verhogen? ==> act.a in s.ct.user
    requires act.WaitIO? ==> LegalDevice(act.line, act.dev)
    requires act.Create? && act.block != null ==> act.block in s.cfg.pool && act.block !in s.pl.live
    requires !(act.Slice? || act.Tick? || act.Device? || act.Fault?)
    requires p in SysWork(s, act, t).cpu.regs
    ensures SysWork(s, act, t).cpu.regs[p] == s.cpu.regs[p]
  {
    hide Subtree, Minus;
  }

  lemma ParkedDevice(s: State, e: Event, p: Pcb)
    requires Shape(s) && Rooted(s.fo) && Enabled(s, e) && p in s.pl.live && p != s.pl.current && e.act.Device?
    ensures p in Work(s, e).cpu.regs && Work(s, e).cpu.regs[p] == Patched(s.cpu.regs[p], Delivery(s, e, p))
  {
    hide Rooted;
  }

  lemma ParkedOther(s: State, e: Event, p: Pcb)
    requires Shape(s) && Rooted(s.fo) && Enabled(s, e) && p in s.pl.live && p != s.pl.current
    requires (e.act.Slice? || e.act.Tick? || e.act.Fault?) && p in Work(s, e).cpu.regs
    ensures Work(s, e).cpu.regs[p] == s.cpu.regs[p]
  {
    hide Rooted, Subtree, KillPlaces, KillForest, KillCounts;
  }

  lemma ParkedWork(s: State, e: Event, p: Pcb)
    requires Shape(s) && Rooted(s.fo) && Enabled(s, e) && p in s.pl.live && p != s.pl.current
    requires p in Work(s, e).cpu.regs
    ensures Work(s, e).cpu.regs[p] == Patched(s.cpu.regs[p], Delivery(s, e, p))
  {
    hide Subtree, Minus, SysWork, Interrupted, Deliver, Ticked, DoSlice, DoTerminate, Rooted;
    if e.act.Device? {
      ParkedDevice(s, e, p);
    } else if e.act.Slice? || e.act.Tick? || e.act.Fault? {
      ParkedOther(s, e, p);
    } else {
      ParkedSysWork(Save(s, s.pl.current, e.saved), e.act, e.t, p);
    }
  }

  lemma FinishKeepsRegs(s: State, e: Event)
    requires Shape(s) && Rooted(s.fo) && Enabled(s, e)
    ensures Step(s, e).state.cpu.regs == Work(s, e).cpu.regs
  {
    hide Subtree, Minus, Work, Step, Domains, Rooted;
    StepEnds(s, e);
  }

  /** No exception writes the saved state of a process that is not running, except a delivery. */
  lemma ParkedStep(s: State, e: Event, p: Pcb)
    requires Shape(s) && Rooted(s.fo) && Enabled(s, e) && p in s.pl.live && p != s.pl.current
    requires p in Step(s, e).state.cpu.regs
    ensures Step(s, e).state.cpu.regs[p] == Patched(s.cpu.regs[p], Delivery(s, e, p))
  {
    hide Subtree, Minus, Work, Step, Domains, Rooted, Delivery, Enabled;
    FinishKeepsRegs(s, e);
    ParkedWork(s, e, p);
  }

  // ---------------------------------------------------------------- what a service leaves to its caller

  /** The caller goes on running: no P operation finds its semaphore below one, and it does not end itself. */
  ghost predicate GoesOn(s: State, act: Action)
    requires |s.ct.dev| == MAX_DEVICE_COUNT
  {
    match act
    case Terminate => false
    case Passeren(a) => a in s.ct.user && s.ct.user[a] - 1 >= 0
    case WaitIO(line, dev, read) => LegalDevice(line, dev) && s.ct.dev[SemIndex(line, dev, read)] - 1 >= 0
    case WaitClock => s.ct.dev[CLOCK_INDEX] - 1 >= 0
    case _ => true
  }

  /** The state of the caller after a service called in state s: some services answer in v0. */
  ghost function Answer(s: State, act: Action, t: Times): CpuState
    requires Domains(s) && s.pl.current != null && s.pl.current in s.pl.live
  {
    var cur := s.pl.current;
    var cs := s.cpu.regs[cur];
    match act
    case Create(_, _, block) => cs.WithV0(if block == null then ERROR else SUCCESS)
    case GetTime => cs.WithV0(s.cpu.time[cur] + (t.mid - s.cpu.start))
    case GetSupport => cs.WithV0(match s.cpu.support[cur] case Some(w) => w case None => NULL_WORD)
    case _ => cs
  }

  /** p is blocked, or ended. */
  ghost predicate Away(s: State, p: Pcb) {
    p !in s.pl.live || (p in s.pl.waitsOn && s.pl.waitsOn[p] != None)
  }

  lemma BlockAnswers(s: State, a: Addr, t: Times)
    requires Shape(s) && s.pl.current != null
    ensures var m := BlockCurrent(s, a, t); m.pl.current == null && m.cpu.regs == s.cpu.regs && Away(m, s.pl.current)
    ensures var m := ChargeCurrent(s, t); m.pl.current == s.pl.current && m.cpu.regs == s.cpu.regs
  {
  }

  lemma PasserenAnswers(s: State, a: Addr, t: Times)
    requires Shape(s) && s.pl.current != null && a in s.ct.user
    ensures var m := DoPasseren(s, a, t);
      && m.pl.current == (if s.ct.user[a] - 1 >= 0 then s.pl.current else null) && m.cpu.regs == s.cpu.regs
      && (s.ct.user[a] - 1 < 0 ==> Away(m, s.pl.current))
  {
    hide BlockCurrent, ChargeCurrent, Away;
    BlockAnswers(SetUser(s, a, s.ct.user[a] - 1), a, t);
  }

  lemma WaitIOAnswers(s: State, i: nat, t: Times)
    requires Shape(s) && s.pl.current != null && i < CLOCK_INDEX
    ensures var m := DoWaitIO(s, i, t);
      && m.pl.current == (if s.ct.dev[i] - 1 >= 0 then s.pl.current else null) && m.cpu.regs == s.cpu.regs
      && (s.ct.dev[i] - 1 < 0 ==> Away(m, s.pl.current))
  {
    hide BlockCurrent, ChargeCurrent, Away;
    BlockAnswers(SetDev(AddSoft(s, 1), i, s.ct.dev[i] - 1), DevAddr(s.cfg.devBase, i), t);
  }

  lemma WaitClockAnswers(s: State, t: Times)
    requires Shape(s) && s.pl.current != null
    ensures var m, v := DoWaitClock(s, t), s.ct.dev[CLOCK_INDEX] - 1;
      && m.pl.current == (if v >= 0 then s.pl.current else null) && m.cpu.regs == s.cpu.regs
      && (v < 0 ==> Away(m, s.pl.current))
  {
    hide BlockCurrent, ChargeCurrent, Away;
    var s1 := SetDev(s, CLOCK_INDEX, s.ct.dev[CLOCK_INDEX] - 1);
    BlockAnswers(AddSoft(s1, 1), DevAddr(s.cfg.devBase, CLOCK_INDEX), t);
    BlockAnswers(s1, DevAddr(s.cfg.devBase, CLOCK_INDEX), t);
  }

  lemma WaitAnswers(s: State, act: Action, t: Times)
    requires Shape(s) && Rooted(s.fo) && s.pl.current != null
    requires (act.Passeren? && act.a in s.ct.user) || (act.WaitIO? && LegalDevice(act.line, act.dev)) || act.WaitClock?
    ensures var m := SysWork(s, act, t);
      && m.pl.current == (if GoesOn(s, act) then s.pl.current else null) && m.cpu.regs == s.cpu.regs
      && (!GoesOn(s, act) ==> Away(m, s.pl.current))
  {
    hide Rooted, DoPasseren, DoWaitIO, DoWaitClock, Away;
    match act
    case Passeren(a) => PasserenAnswers(s, a, t);
    case WaitIO(line, dev, read) => WaitIOAnswers(s, SemIndex(line, dev, read), t);
    case WaitClock => WaitClockAnswers(s, t);
  }

  lemma CreateAnswers(s: State, act: Action, t: Times)
    requires Shape(s) && Rooted(s.fo) && s.pl.current != null && act.Create?
    requires act.block != null ==> act.block in s.cfg.pool && act.block !in s.pl.live
    ensures var m, cur := SysWork(s, act, t), s.pl.current;
      m.pl.current == cur && cur in m.cpu.regs && m.cpu.regs[cur] == Answer(s, act, t)
  {
    hide Rooted;
  }

  lemma PlainAnswers(s: State, act: Action, t: Times)
    requires Shape(s) && Rooted(s.fo) && s.pl.current != null
    requires (act.Verhogen? && act.a in s.ct.user) || act.GetTime? || act.GetSupport?
    ensures var m, cur := SysWork(s, act, t), s.pl.current;
      m.pl.current == cur && cur in m.cpu.regs && m.cpu.regs[cur] == Answer(s, act, t)
  {
    hide Rooted;
  }

  lemma TerminateAnswers(s: State)
    requires Shape(s) && Rooted(s.fo) && s.pl.current != null
    ensures var m := DoTerminate(s); m.pl.current == null && s.pl.current !in m.cpu.regs && Away(m, s.pl.current)
  {
    hide Rooted, Subtree, PruneQueues, Minus, KillForest, KillCounts;
    RootInSubtree(s.fo, s.pl.current);
  }

  lemma SysAnswers(s: State, act: Action, t: Times)
    requires Shape(s) && Rooted(s.fo) && s.pl.current != null
    requires act.Passeren? || act.Verhogen? ==> act.a in s.ct.user
    requires act.WaitIO? ==> LegalDevice(act.line, act.dev)
    requires act.Create? && act.block != null ==> act.block in s.cfg.pool && act.block !in s.pl.live
    requires !(act.Slice? || act.Tick? || act.Device? || act.Fault?)
    ensures var m, cur := SysWork(s, act, t), s.pl.current;
      && m.pl.current == (if GoesOn(s, act) then cur else null)
      && (cur in m.cpu.regs <==> !act.Terminate?)
      && (cur in m.cpu.regs ==> m.cpu.regs[cur] == Answer(s, act, t))
      && (!GoesOn(s, act) ==> Away(m, cur))
  {
    hide Rooted, DoPasseren, DoWaitIO, DoWaitClock, DoCreate, DoVerhogen, DoGetTime, DoGetSupport, DoTerminate, LegalDevice;
    if act.Passeren? || act.WaitIO? || act.WaitClock? {
      WaitAnswers(s, act, t);
    } else if act.Create? {
      CreateAnswers(s, act, t);
    } else if act.Terminate? {
      TerminateAnswers(s);
    } else {
      PlainAnswers(s, act, t);
    }
  }

  lemma SavedShape(s: State, cs: CpuState)
    requires Shape(s) && s.pl.current != null
    ensures var s0 := Save(s, s.pl.current, cs);
      Shape(s0) && s0.pl == s.pl && s0.cfg == s.cfg && s0.ct == s.ct && s0.cpu.regs[s.pl.current] == cs
  {
  }

  /** What the work of an exception leaves to the process it interrupted. */
  lemma CallerWork(s: State, e: Event)
    requires Shape(s) && Rooted(s.fo) && Enabled(s, e) && s.pl.current != null
    requires !(e.act.Slice? || e.act.Tick? || e.act.Device? || e.act.Fault?)
    ensures var m, cur, s0 := Work(s, e), s.pl.current, Save(s, s.pl.current, e.saved);
      && Domains(s0) && m.pl.current == (if GoesOn(s, e.act) then cur else null)
      && (cur in m.cpu.regs <==> !e.act.Terminate?)
      && (cur in m.cpu.regs ==> m.cpu.regs[cur] == Answer(s0, e.act, e.t))
      && (!GoesOn(s, e.act) ==> Away(m, cur))
  {
    hide Rooted, SysWork, Answer, LegalDevice;
    SavedShape(s, e.saved);
    SysAnswers(Save(s, s.pl.current, e.saved), e.act, e.t);
  }

  lemma FaultWork(s: State, e: Event)
    requires Shape(s) && Rooted(s.fo) && Enabled(s, e) && e.act.Fault?
    ensures var m, cur := Work(s, e), s.pl.current;
      && m.pl.current == (if PassesUp(s, e) then cur else null)
      && (m.pl.current == null ==> cur !in m.cpu.regs)
  {
    hide Rooted, DoTerminate;
    TerminateAnswers(s);
  }

  lemma TickWork(s: State, e: Event)
    requires Shape(s) && Rooted(s.fo) && Enabled(s, e) && s.pl.current != null && e.act.Tick?
    ensures var m, cur := Work(s, e), s.pl.current;
      m.pl.current == cur && cur in m.cpu.regs && m.cpu.regs[cur] == e.saved
  {
    hide Rooted;
  }

  lemma DeviceWork(s: State, e: Event)
    requires Shape(s) && Rooted(s.fo) && Enabled(s, e) && s.pl.current != null && e.act.Device?
    ensures var m, cur := Work(s, e), s.pl.current;
      m.pl.current == cur && cur in m.cpu.regs && m.cpu.regs[cur] == e.saved
  {
    hide Rooted;
  }

  lemma SliceWork(s: State, e: Event)
    requires Shape(s) && Rooted(s.fo) && Enabled(s, e) && s.pl.current != null && e.act.Slice?
    ensures var m, cur := Work(s, e), s.pl.current;
      m.pl.current == null && cur in m.cpu.regs && m.cpu.regs[cur] == e.saved
  {
    hide Rooted;
  }

  lemma InterruptWork(s: State, e: Event)
    requires Shape(s) && Rooted(s.fo) && Enabled(s, e) && s.pl.current != null && (e.act.Slice? || e.act.Tick? || e.act.Device?)
    ensures var m, cur := Work(s, e), s.pl.current;
      && m.pl.current == (if e.act.Slice? then null else cur)
      && (e.act.Slice? ==> cur in m.cpu.regs && m.cpu.regs[cur] == e.saved)
  {
    hide Rooted, Work;
    if e.act.Slice? {
      SliceWork(s, e);
    } else if e.act.Tick? {
      TickWork(s, e);
    } else {
      DeviceWork(s, e);
    }
  }

  // ---------------------------------------------------------------- stopping

  /** The running process has its state saved when it stops running, and when its time slice ends. */
  lemma StopSaves(s: State, e: Event)
    requires Shape(s) && Rooted(s.fo) && Enabled(s, e) && s.pl.current != null
    requires s.pl.current in Step(s, e).state.cpu.regs && (Step(s, e).state.pl.current != s.pl.current || e.act.Slice?)
    ensures Step(s, e).state.cpu.regs[s.pl.current] == e.saved
  {
    hide Subtree, Minus, Work, Step, Domains, Rooted;
    StepEnds(s, e);
    FinishKeepsRegs(s, e);
    if Work(s, e).pl.current == null {
      StopWork(s, e);
    } else {
      RunningWork(s, e);
    }
  }

  lemma StopWork(s: State, e: Event)
    requires Shape(s) && Rooted(s.fo) && Enabled(s, e) && s.pl.current != null
    requires Work(s, e).pl.current == null && s.pl.current in Work(s, e).cpu.regs
    ensures Work(s, e).cpu.regs[s.pl.current] == e.saved
  {
    hide Work, Rooted;
    if e.act.Slice? || e.act.Tick? || e.act.Device? {
      InterruptWork(s, e);
    } else if e.act.Fault? {
      FaultWork(s, e);
    } else {
      CallerWork(s, e);
    }
  }

  lemma RunningWork(s: State, e: Event)
    requires Shape(s) && Rooted(s.fo) && Enabled(s, e) && s.pl.current != null && Work(s, e).pl.current != null
    ensures Work(s, e).pl.current == s.pl.current && !e.act.Slice?
  {
    hide Work, Rooted, Answer;
    if e.act.Slice? || e.act.Tick? || e.act.Device? {
      InterruptWork(s, e);
    } else if e.act.Fault? {
      FaultWork(s, e);
    } else {
      CallerWork(s, e);
    }
  }

  /** A device or clock interrupt returns to the interrupted process as it was. */
  lemma InterruptResumes(s: State, e: Event)
    requires Inv(s) && Shape(s) && Enabled(s, e) && s.pl.current != null && (e.act.Tick? || e.act.Device?)
    ensures Step(s, e).outcome == Run(s.pl.current, e.saved)
  {
    hide Inv, Shape, Rooted, Work, Step;
    InvShape(s);
    if e.act.Tick? {
      TickWork(s, e);
    } else {
      DeviceWork(s, e);
    }
    StepEnds(s, e);
  }

  /** The two states differ in register 1 at most, which is v0. */
  ghost predicate SameButV0(cs: CpuState, saved: CpuState) {
    && cs.pc == saved.pc && cs.entryHI == saved.entryHI && cs.cause == saved.cause && cs.status == saved.status
    && forall i | 0 <= i < 31 && i != 1 :: cs.reg[i] == saved.reg[i]
  }

  /** What a service leaves in v0 of its caller. */
  ghost predicate AnswersInV0(s: State, e: Event, v: int)
    requires Domains(s) && s.pl.current != null && s.pl.current in s.pl.live
  {
    match e.act
    case Create(_, _, block) => v == if block == null then -1 else 0
    case GetTime => v == s.cpu.time[s.pl.current] + (e.t.mid - s.cpu.start)
    case GetSupport => v == (match s.cpu.support[s.pl.current] case Some(w) => w case None => -1)
    case _ => v == e.saved.reg[1]
  }

  lemma AnswerIs(s: State, e: Event)
    requires Domains(s) && s.pl.current != null && s.pl.current in s.pl.live
    ensures Domains(Save(s, s.pl.current, e.saved))
    ensures var cs := Answer(Save(s, s.pl.current, e.saved), e.act, e.t); SameButV0(cs, e.saved) && AnswersInV0(s, e, cs.reg[1])
  {
  }

  lemma SavedDomains(s: State, cs: CpuState)
    requires Shape(s) && s.pl.current != null
    ensures Domains(s) && s.pl.current in s.pl.live
  {
  }

  /** A caller goes on with its answer if and only if no P operation blocks it and it does not end itself. */
  lemma ServiceResumes(s: State, e: Event)
    requires Inv(s) && Shape(s) && Enabled(s, e) && s.pl.current != null
    requires !(e.act.Slice? || e.act.Tick? || e.act.Device? || e.act.Fault?)
    ensures Domains(Save(s, s.pl.current, e.saved))
    ensures GoesOn(s, e.act) ==>
      Step(s, e).outcome == Run(s.pl.current, Answer(Save(s, s.pl.current, e.saved), e.act, e.t))
    ensures GoesOn(s, e.act) ==>
      SameButV0(Step(s, e).outcome.loaded, e.saved) && AnswersInV0(s, e, Step(s, e).outcome.loaded.reg[1])
    ensures !GoesOn(s, e.act) ==> s.pl.current != Step(s, e).state.pl.current
  {
    hide Located, Queued, CurrentOk, Rooted, Kinship, Words, Work, Step, Domains, Answer, GoesOn, Away;
    hide SameButV0, AnswersInV0;
    SavedDomains(s, e.saved);
    AnswerIs(s, e);
    CallerWork(s, e);
    StepEnds(s, e);
    if !GoesOn(s, e.act) {
      StoppedIsNotDispatched(s, e);
    }
  }

  /** A caller that is blocked or ended is not the one the scheduler dispatches. */
  lemma StoppedIsNotDispatched(s: State, e: Event)
    requires Inv(s) && Shape(s) && Enabled(s, e) && s.pl.current != null && Away(Work(s, e), s.pl.current)
    ensures Step(s, e).state.pl.current != s.pl.current
  {
    hide Located, Queued, Rooted, Kinship, Words, Work, Step, Domains;
    StepInv(s, e);
    FinishKeeps(s, e);
  }

  // ---------------------------------------------------------------- runs

  /** Before each exception of es, and after the last, p is live and not running. */
  ghost predicate Parked(b: State, es: seq<Event>, p: Pcb)
    requires Inv(b) && Possible(b, es)
  {
    var s := Exec(b, es);
    p in s.pl.live && p != s.pl.current && (es == [] || Parked(b, Front(es), p))
  }

  /** The status delivered to p during the run, if any. */
  ghost function Delivered(b: State, es: seq<Event>, p: Pcb): Option<int>
    requires Inv(b) && Possible(b, es)
  {
    if es == [] then None
    else
      var s := Exec(b, Front(es));
      InvShape(s);
      var d := Delivery(s, Last(es), p);
      if d != None then d else Delivered(b, Front(es), p)
  }

  ghost function DeliveriesOf(b: State, es: seq<Event>, p: Pcb): nat
    requires Inv(b) && Possible(b, es)
  {
    if es == [] then 0
    else
      var s := Exec(b, Front(es));
      InvShape(s);
      DeliveriesOf(b, Front(es), p) + if Delivery(s, Last(es), p) != None then 1 else 0
  }

  lemma PatchedTwice(cs: CpuState, c: Option<int>, d: Option<int>)
    ensures Patched(Patched(cs, c), d) == Patched(cs, if d != None then d else c)
  {
    if c != None && d != None {
      var r := cs.reg;
      assert r[V0 := c.value][V0 := d.value] == r[V0 := d.value];
    }
  }

  lemma {:induction false} ParkedOverRuns(b: State, es: seq<Event>, p: Pcb)
    requires Inv(b) && Possible(b, es) && Parked(b, es, p)
    ensures p in b.cpu.regs && p in Exec(b, es).cpu.regs
    ensures Exec(b, es).cpu.regs[p] == Patched(b.cpu.regs[p], Delivered(b, es, p))
  {
    hide Located, Queued, CurrentOk, Rooted, Kinship, Words, Step, Delivery, Enabled, Patched;
    assert forall cs: CpuState :: Patched(cs, None) == cs by { PatchedNone(); }
    if es != [] {
      var s := Exec(b, Front(es));
      ParkedOverRuns(b, Front(es), p);
      InvShape(s);
      ParkedStep(s, Last(es), p);
      PatchedTwice(b.cpu.regs[p], Delivered(b, Front(es), p), Delivery(s, Last(es), p));
    }
  }

  lemma PatchedNone()
    ensures forall cs: CpuState :: Patched(cs, None) == cs
  {
  }

  lemma PatchedIs(cs: CpuState, status: Option<int>)
    ensures SameButV0(Patched(cs, status), cs)
    ensures match status case Some(v) => Patched(cs, status).reg[1] == v case None => Patched(cs, status) == cs
  {
  }

  /**
    A process p stops running at exception e0 (it blocks, or its time slice ends) and is parked until
    the last exception of es dispatches it; or its time slice ends and e0 itself dispatches it again,
    nobody else being ready. The state loaded is the state saved at e0, with v0 replaced by the status
    of the device interrupt that woke p, if there was one.
    */
  lemma ResumesAsSaved(b: State, e0: Event, es: seq<Event>, p: Pcb, loaded: CpuState)
    requires Inv(b) && Shape(b) && Enabled(b, e0) && b.pl.current == p && Possible(After(b, e0), es)
    requires es == [] ==> e0.act.Slice? && Step(b, e0).outcome == Run(p, loaded)
    requires es != [] ==>
      Parked(After(b, e0), Front(es), p) && LastResult(After(b, e0), es).outcome == Run(p, loaded)
    ensures loaded == Patched(e0.saved, Delivered(After(b, e0), es, p))
    ensures SameButV0(loaded, e0.saved)
    ensures match Delivered(After(b, e0), es, p) case Some(v) => loaded.reg[1] == v case None => loaded == e0.saved
  {
    hide Located, Queued, CurrentOk, Kinship, Words, Step, Delivery, Parked, Patched, SameButV0;
    PatchedIs(e0.saved, Delivered(After(b, e0), es, p));
    if es == [] {
      RunLoads(b, e0);
      StopSaves(b, e0);
      assert Patched(e0.saved, None) == e0.saved by { PatchedNone(); }
    } else {
      ResumesLater(b, e0, es, p, loaded);
    }
  }

  lemma ResumesLater(b: State, e0: Event, es: seq<Event>, p: Pcb, loaded: CpuState)
    requires Inv(b) && Enabled(b, e0) && b.pl.current == p && Possible(After(b, e0), es) && es != []
    requires Parked(After(b, e0), Front(es), p) && LastResult(After(b, e0), es).outcome == Run(p, loaded)
    ensures loaded == Patched(e0.saved, Delivered(After(b, e0), es, p))
  {
    hide Located, Queued, CurrentOk, Kinship, Words, Step, Delivery, Parked, Patched;
    InvShape(b);
    var s0 := After(b, e0);
    var s, e := Exec(s0, Front(es)), Last(es);
    InvShape(s);
    ParkedOverRuns(s0, Front(es), p);
    ParkedNow(s0, Front(es), p);
    StopSaves(b, e0);
    RunLoads(s, e);
    ParkedStep(s, e, p);
    PatchedTwice(e0.saved, Delivered(s0, Front(es), p), Delivery(s, e, p));
  }

  // ---------------------------------------------------------------- at most one status

  /** A delivery is to a process that waits for the device; then it no longer waits. */
  lemma DeliveryWakes(s: State, e: Event, p: Pcb)
    requires Inv(s) && Shape(s) && Enabled(s, e) && Delivery(s, e, p) != None
    ensures p in s.pl.waitsOn && s.pl.waitsOn[p] == Some(DevAddr(s.cfg.devBase, e.act.index))
    ensures p in Step(s, e).state.pl.waitsOn && Step(s, e).state.pl.waitsOn[p] == None
  {
    hide Queued, CurrentOk, Rooted, Kinship, Words, ReadySound, ReadyComplete, BlockedComplete;
    assert s.pl.blocked[DevAddr(s.cfg.devBase, e.act.index)][0] in s.pl.blocked[DevAddr(s.cfg.devBase, e.act.index)];
  }

  lemma StaysAwakeWork(s: State, e: Event, p: Pcb)
    requires Shape(s) && Rooted(s.fo) && Enabled(s, e) && p in s.pl.live && p != s.pl.current && s.pl.waitsOn[p] == None
    requires p in Work(s, e).pl.waitsOn
    ensures Work(s, e).pl.waitsOn[p] == None
  {
    hide Subtree, Minus, Domains;
  }

  lemma StaysAwake(s: State, e: Event, p: Pcb)
    requires Shape(s) && Rooted(s.fo) && Enabled(s, e) && p in s.pl.live && p != s.pl.current && s.pl.waitsOn[p] == None
    requires p in Step(s, e).state.pl.waitsOn
    ensures Step(s, e).state.pl.waitsOn[p] == None
  {
    hide Subtree, Minus, Work, Step, Domains, Rooted;
    StepEnds(s, e);
    StaysAwakeWork(s, e, p);
  }

  lemma {:induction false} DeliveredOnce(b: State, es: seq<Event>, p: Pcb)
    requires Inv(b) && Possible(b, es) && Parked(b, es, p)
    ensures DeliveriesOf(b, es, p) <= 1
    ensures DeliveriesOf(b, es, p) == 1 ==> p in Exec(b, es).pl.waitsOn && Exec(b, es).pl.waitsOn[p] == None
  {
    hide Located, Queued, CurrentOk, Rooted, Kinship, Words, Step, Delivery, Enabled;
    if es != [] {
      var s := Exec(b, Front(es));
      DeliveredOnce(b, Front(es), p);
      InvShape(s);
      InvDomain(Exec(b, es));
      if Delivery(s, Last(es), p) != None {
        DeliveryWakes(s, Last(es), p);
      } else if DeliveriesOf(b, Front(es), p) == 1 {
        StaysAwake(s, Last(es), p);
      }
    }
  }

  lemma {:induction false} ParkedNow(b: State, es: seq<Event>, p: Pcb)
    requires Inv(b) && Possible(b, es) && Parked(b, es, p)
    ensures p != b.pl.current && p in b.pl.live && p != Exec(b, es).pl.current && p in Exec(b, es).pl.live
  {
    hide Inv, Step, Enabled;
    if es != [] {
      ParkedNow(b, Front(es), p);
    }
  }

  /** What is loaded is the state in the PCB. */
  lemma RunLoads(s: State, e: Event)
    requires Shape(s) && Rooted(s.fo) && Enabled(s, e) && Step(s, e).outcome.Run?
    ensures var r := Step(s, e); r.outcome.p in r.state.cpu.regs && r.outcome.loaded == r.state.cpu.regs[r.outcome.p]
  {
    hide Subtree, Minus, Work, Step, Domains, Rooted;
    StepEnds(s, e);
  }
}
