/**
  What each SYSCALL does to the variables of the nucleus, read off the words of its registers. Registers
  are given by their places: 3 is a0, 4 to 6 are a1 to a3, 1 is v0.
  */
module ServiceEffects {
  import opened Collections
  import opened Types
  import opened ActiveSemaphores
  import opened NucleusState
  import opened NucleusInvariants
  import opened NucleusRuns
  import opened UserSemaphores
  import opened Endings
  import opened SubtreeTermination
  import opened KernelViews

  // ---------------------------------------------------------------- what is promised

  /** The state saved at a SYSCALL, behind the instruction and with answer in v0. */
  ghost predicate Returned(cs: CpuState, saved: CpuState, answer: int) {
    && cs.pc == saved.pc + 4 && cs.reg == saved.reg[1 := answer]
    && cs.entryHI == saved.entryHI && cs.cause == saved.cause && cs.status == saved.status
  }

  /** Of all processes only the caller is touched: its state is saved, and it is charged dt. */
  ghost predicate OnlyCaller(v0: View, v1: View, saved: CpuState, answer: int, dt: int) {
    var c := v0.current;
    && c != null && c in v0.slots && c in v1.slots
    && v1.slots == v0.slots[c := v1.slots[c]] && v1.base == v0.base && v1.procs == v0.procs
    && Returned(v1.slots[c].state, saved, answer)
    && v1.slots[c].time == v0.slots[c].time + dt
    && v1.slots[c].support == v0.slots[c].support && v1.slots[c].parent == v0.slots[c].parent
  }

  ghost function QueueAt(v: View, a: Addr): seq<Pcb> {
    if a in v.queues then v.queues[a] else []
  }

  /** The caller has lowered the semaphore at a to value: it waits there exactly if that is negative. */
  ghost predicate Lowered(v0: View, v1: View, o: Outcome, a: Addr, value: int, saved: CpuState, t: Times) {
    && OnlyCaller(v0, v1, saved, saved.reg[1], t.mid - v0.start)
    && (if value < 0 then v1.queues == v0.queues[a := QueueAt(v0, a) + [v0.current]] && Hands(v0.ready, v1, o, t)
        else v1.queues == v0.queues && v1.ready == v0.ready && RunsOn(v0.current, v1, o, t))
  }

  /** A service that only answers. */
  ghost predicate Answers(v0: View, v1: View, o: Outcome, saved: CpuState, answer: int, dt: int, t: Times) {
    && OnlyCaller(v0, v1, saved, answer, dt) && RunsOn(v0.current, v1, o, t)
    && v1.memory == v0.memory && v1.devices == v0.devices && v1.queues == v0.queues && v1.ready == v0.ready
    && v1.soft == v0.soft
  }

  /** SYS1: the block, if there is one, holds a child of the caller that starts in the state given. */
  ghost predicate Creates(
    v0: View, v1: View, o: Outcome, saved: CpuState, pointed: CpuState, block: Pcb?, t: Times)
  {
    if block == null then Answers(v0, v1, o, saved, -1, t.mid - v0.start, t)
    else
      && v0.current != null && block !in v0.slots && block in v1.slots
      && v1.slots[block] == Slot(pointed, 0, if saved.reg[5] == -1 then None else Some(saved.reg[5]), v0.current)
      && OnlyCaller(v0, v1.(slots := v1.slots - {block}, procs := v1.procs - 1), saved, 0, t.mid - v0.start)
      && v1.ready == v0.ready + [block] && RunsOn(v0.current, v1, o, t)
      && v1.memory == v0.memory && v1.devices == v0.devices && v1.queues == v0.queues && v1.soft == v0.soft
  }

  /** The waiters of the 49 device semaphores. */
  ghost predicate WaitsForDevice(v: View, p: Pcb) {
    exists i: nat | i < 49 :: p in QueueAt(v, v.base + 4 * i)
  }

  /**
    SYS2: the caller ends, and with it exactly those whose parent ends. Queues lose them and keep their order;
    a user semaphore gets a unit back for each that waited there, the count loses those that waited for devices.
    */
  ghost predicate Ends(v0: View, v1: View, o: Outcome, t: Times) {
    var gone := v0.slots.Keys - v1.slots.Keys;
    && v0.current != null && v0.current in gone && v1.slots.Keys <= v0.slots.Keys
    && (forall p | p in gone && p != v0.current :: v0.slots[p].parent != null && v0.slots[p].parent in gone)
    && (forall p | p in v1.slots :: v1.slots[p] == v0.slots[p] && v0.slots[p].parent !in gone)
    && v1.procs == v0.procs - |gone| && v1.devices == v0.devices && v1.base == v0.base
    && v1.memory.Keys == v0.memory.Keys
    && (forall a | a in v0.memory :: v1.memory[a] == v0.memory[a] + |Elements(QueueAt(v0, a)) * gone|)
    && v1.queues.Keys <= v0.queues.Keys
    && (forall a | a in v0.queues :: QueueAt(v1, a) == Minus(v0.queues[a], gone))
    && v1.soft == v0.soft - |set p | p in gone && WaitsForDevice(v0, p)|
    && Hands(Minus(v0.ready, gone), v1, o, t)
  }

  /** A fault: to the support level if there is one, otherwise as SYS2. */
  ghost predicate Faults(v0: View, v1: View, o: Outcome, t: Times) {
    var c := v0.current;
    && c != null && c in v0.slots
    && if v0.slots[c].support == None then Ends(v0, v1, o, t)
       else o == PassUp(c) && v1 == v0.(slots := v0.slots[c := v0.slots[c].(time := v0.slots[c].time + (t.mid - v0.start))])
  }

  /** SYS3 */
  ghost predicate PasserenEffect(v0: View, v1: View, o: Outcome, a: Addr, saved: CpuState, t: Times) {
    && a in v0.memory && v1.memory == v0.memory[a := v0.memory[a] - 1]
    && v1.devices == v0.devices && v1.soft == v0.soft
    && Lowered(v0, v1, o, a, v0.memory[a] - 1, saved, t)
  }

  /** SYS4: if the value is not positive then, the first waiter leaves its queue for the end of the ready queue. */
  ghost predicate VerhogenEffect(v0: View, v1: View, o: Outcome, a: Addr, saved: CpuState, t: Times) {
    && a in v0.memory && v1.memory == v0.memory[a := v0.memory[a] + 1]
    && v1.devices == v0.devices && v1.soft == v0.soft
    && OnlyCaller(v0, v1, saved, saved.reg[1], t.mid - v0.start) && RunsOn(v0.current, v1, o, t)
    && (if v0.memory[a] + 1 <= 0 && a in v0.queues && v0.queues[a] != [] then
          && v1.ready == v0.ready + [v0.queues[a][0]]
          && QueueAt(v1, a) == v0.queues[a][1..] && v1.queues - {a} == v0.queues - {a}
        else v1.ready == v0.ready && v1.queues == v0.queues)
  }

  /** SYS5 for semaphoreDevices[i] */
  ghost predicate WaitIOEffect(v0: View, v1: View, o: Outcome, i: int, saved: CpuState, t: Times) {
    && 0 <= i < |v0.devices| && v1.devices == v0.devices[i := v0.devices[i] - 1]
    && v1.memory == v0.memory && v1.soft == v0.soft + 1
    && Lowered(v0, v1, o, v0.base + 4 * i, v0.devices[i] - 1, saved, t)
  }

  /** SYS7: the pseudo-clock is the last device semaphore. */
  ghost predicate WaitClockEffect(v0: View, v1: View, o: Outcome, saved: CpuState, t: Times) {
    && |v0.devices| == 49 && v1.devices == v0.devices[48 := v0.devices[48] - 1]
    && v1.memory == v0.memory && v1.soft == v0.soft + (if v0.devices[48] - 1 < 0 then 1 else 0)
    && Lowered(v0, v1, o, v0.base + 192, v0.devices[48] - 1, saved, t)
  }

  /**
    systemTrapHandler by the words of the registers: pointed is the state that a1 points to, block the
    head of the free list.
    */
  ghost predicate ServiceEffect(
    v0: View, v1: View, o: Outcome, saved: CpuState, pointed: CpuState, block: Pcb?, t: Times)
  {
    var number, a1, a2, a3 := saved.reg[3], saved.reg[4], saved.reg[5], saved.reg[6];
    var a := if a1 >= 0 then a1 else a1 % 0x1_0000_0000;
    var c := v0.current;
    && c != null && c in v0.slots
    && (saved.status & 0x8 != 0 || number < 1 || number > 8 ==> Faults(v0, v1, o, t))
    && (saved.status & 0x8 == 0 ==>
      && (number == 1 ==> Creates(v0, v1, o, saved, pointed, block, t))
      && (number == 2 ==> Ends(v0, v1, o, t))
      && (number == 3 ==> PasserenEffect(v0, v1, o, a, saved, t))
      && (number == 4 ==> VerhogenEffect(v0, v1, o, a, saved, t))
      && (number == 5 ==> WaitIOEffect(v0, v1, o, (a1 - 3) * 8 + a2 + (if a1 == 7 && a3 != 1 then 8 else 0), saved, t))
      && (number == 6 ==> Answers(v0, v1, o, saved, v0.slots[c].time + (t.mid - v0.start),
                                  (t.mid - v0.start) + (t.late - v0.start), t))
      && (number == 7 ==> WaitClockEffect(v0, v1, o, saved, t))
      && (number == 8 ==> Answers(v0, v1, o, saved,
            match v0.slots[c].support case Some(w) => w case None => -1, t.mid - v0.start, t)))
  }

  // ---------------------------------------------------------------- what the caller has booked

  /** v is v0 after the state cs of the caller has been saved and dt has been charged to it. */
  ghost predicate Booked(v0: View, v: View, cs: CpuState, dt: int) {
    var c := v0.current;
    && c != null && c in v0.slots && v.base == v0.base && v.procs == v0.procs
    && v.slots == v0.slots[c := v0.slots[c].(state := cs, time := v0.slots[c].time + dt)]
  }

  lemma BookedIsOnlyCaller(v0: View, m: View, v1: View, o: Outcome, cs: CpuState, saved: CpuState, answer: int, dt: int, t: Times)
    requires Booked(v0, m, cs, dt) && EndsFrom(m, v1, o, t) && Returned(cs, saved, answer)
    ensures OnlyCaller(v0, v1, saved, answer, dt)
    ensures m.current == v0.current ==> v1.ready == m.ready && RunsOn(v0.current, v1, o, t)
    ensures m.current == null ==> Hands(m.ready, v1, o, t)
  {
    hide Hands, RunsOn, Returned;
  }

  lemma AdvancedIs(saved: CpuState)
    ensures Returned(saved.Advanced(), saved, saved.reg[1])
  {
    assert saved.reg == saved.reg[1 := saved.reg[1]];
  }

  lemma AnsweredIs(saved: CpuState, answer: int)
    ensures Returned(saved.Advanced().WithV0(answer), saved, answer)
  {
  }

  /** Everything about processes that m has from s: the caller's state cs is saved and dt is charged to it. */
  ghost predicate Books(s: State, m: State, cs: CpuState, dt: int) {
    var c := s.pl.current;
    && c != null && c in s.cpu.time && m.cfg == s.cfg && m.ct.procs == s.ct.procs && m.pl.live == s.pl.live
    && m.fo.parent == s.fo.parent && m.cpu.regs == s.cpu.regs[c := cs] && m.cpu.support == s.cpu.support
    && m.cpu.time == s.cpu.time[c := s.cpu.time[c] + dt]
  }

  lemma BookedFrom(s: State, m: State, cs: CpuState, dt: int)
    requires Domains(s) && s.pl.current != null && s.pl.current in s.pl.live && Books(s, m, cs, dt)
    ensures Uniform(s) && Uniform(m) && Booked(ViewOf(s), ViewOf(m), cs, dt)
  {
  }

  lemma BlockFields(s: State, a: Addr, t: Times)
    requires Shape(s) && s.pl.current != null
    ensures var m := BlockCurrent(s, a, t);
      && Books(s, m, s.cpu.regs[s.pl.current], t.mid - s.cpu.start) && m.ct == s.ct
      && m.pl.current == null && m.pl.ready == s.pl.ready
      && m.pl.blocked == s.pl.blocked[a := QueueOf(s.pl.blocked, a) + [s.pl.current]]
    ensures var m := ChargeCurrent(s, t);
      && Books(s, m, s.cpu.regs[s.pl.current], t.mid - s.cpu.start) && m.ct == s.ct && m.pl == s.pl
  {
  }

  /** The booking of s1, which is s with the state cs saved and other counters, is a booking of s. */
  lemma BooksSaved(s: State, s1: State, m: State, cs: CpuState, dt: int)
    requires s.pl.current != null && s.pl.current in s.cpu.regs && s1.pl == s.pl && s1.fo.parent == s.fo.parent
    requires s1.cfg == s.cfg && s1.ct.procs == s.ct.procs && s1.cpu == s.cpu.(regs := s.cpu.regs[s.pl.current := cs])
    requires Books(s1, m, cs, dt)
    ensures Books(s, m, cs, dt)
  {
    assert s1.cpu.regs[s.pl.current := cs] == s1.cpu.regs;
  }

  // ---------------------------------------------------------------- the services that lower a semaphore

  lemma LowerBooks(s: State, saved: CpuState, s1: State, a: Addr, t: Times)
    requires Shape(s) && s.pl.current != null && Shape(s1)
    requires s1.pl == s.pl && s1.fo == s.fo && s1.cfg == s.cfg && s1.ct.procs == s.ct.procs
    requires s1.cpu == s.cpu.(regs := s.cpu.regs[s.pl.current := saved.Advanced()])
    ensures Books(s, BlockCurrent(s1, a, t), saved.Advanced(), t.mid - s.cpu.start)
    ensures Books(s, ChargeCurrent(s1, t), saved.Advanced(), t.mid - s.cpu.start)
  {
    hide BlockCurrent, ChargeCurrent, Books;
    BlockFields(s1, a, t);
    BooksSaved(s, s1, BlockCurrent(s1, a, t), saved.Advanced(), t.mid - s.cpu.start);
    BooksSaved(s, s1, ChargeCurrent(s1, t), saved.Advanced(), t.mid - s.cpu.start);
  }

  /** The work of a service that lowers the semaphore at a to value. */
  ghost predicate LowerWork(s: State, m: State, a: Addr, value: int)
    requires s.pl.current != null
  {
    if value < 0 then
      && m.pl.current == null && m.pl.ready == s.pl.ready
      && m.pl.blocked == s.pl.blocked[a := QueueOf(s.pl.blocked, a) + [s.pl.current]]
    else m.pl == s.pl
  }

  lemma LoweredEffect(s: State, e: Event, saved: CpuState, a: Addr, value: int)
    requires Shape(s) && Rooted(s.fo) && Enabled(s, e) && s.pl.current != null && !Stray(s, e) && !PassesUp(s, e)
    requires Books(s, Work(s, e), saved.Advanced(), e.t.mid - s.cpu.start) && LowerWork(s, Work(s, e), a, value)
    ensures var r := Step(s, e);
      && Uniform(s) && Uniform(r.state) && Lowered(ViewOf(s), ViewOf(r.state), r.outcome, a, value, saved, e.t)
      && r.state.ct == Work(s, e).ct
  {
    hide Rooted, Work, Step, Domains, Hands, RunsOn, Returned, Enabled, Booked, OnlyCaller, Books;
    BookedFrom(s, Work(s, e), saved.Advanced(), e.t.mid - s.cpu.start);
    FinishView(s, e);
    FinishKeeps(s, e);
    AdvancedIs(saved);
    var r := Step(s, e);
    BookedIsOnlyCaller(ViewOf(s), ViewOf(Work(s, e)), ViewOf(r.state), r.outcome, saved.Advanced(), saved,
      saved.reg[1], e.t.mid - s.cpu.start, e.t);
  }

  lemma PasserenView(s: State, saved: CpuState, a: Addr, t: Times)
    requires Shape(s) && Rooted(s.fo) && Enabled(s, Event(Passeren(a), saved.Advanced(), t))
    ensures var r := Step(s, Event(Passeren(a), saved.Advanced(), t));
      Uniform(s) && Uniform(r.state) && PasserenEffect(ViewOf(s), ViewOf(r.state), r.outcome, a, saved, t)
  {
    hide Rooted, Step, BlockCurrent, ChargeCurrent, Lowered, Books;
    var e := Event(Passeren(a), saved.Advanced(), t);
    var s1 := SetUser(Save(s, s.pl.current, saved.Advanced()), a, s.ct.user[a] - 1);
    BlockFields(s1, a, t);
    LowerBooks(s, saved, s1, a, t);
    LoweredEffect(s, e, saved, a, s.ct.user[a] - 1);
  }

  lemma WaitIOView(s: State, saved: CpuState, line: int, dev: int, read: int, t: Times)
    requires Shape(s) && Rooted(s.fo) && Enabled(s, Event(WaitIO(line, dev, read), saved.Advanced(), t))
    ensures var r := Step(s, Event(WaitIO(line, dev, read), saved.Advanced(), t));
      && Uniform(s) && Uniform(r.state)
      && WaitIOEffect(ViewOf(s), ViewOf(r.state), r.outcome,
                      (line - 3) * 8 + dev + (if line == 7 && read != 1 then 8 else 0), saved, t)
  {
    hide Rooted, Step, BlockCurrent, ChargeCurrent, Lowered, Books;
    var e, i := Event(WaitIO(line, dev, read), saved.Advanced(), t), SemIndex(line, dev, read);
    var s0 := Save(s, s.pl.current, saved.Advanced());
    var s1 := SetDev(AddSoft(s0, 1), i, s.ct.dev[i] - 1);
    BlockFields(s1, DevAddr(s.cfg.devBase, i), t);
    LowerBooks(s, saved, s1, DevAddr(s.cfg.devBase, i), t);
    LoweredEffect(s, e, saved, DevAddr(s.cfg.devBase, i), s.ct.dev[i] - 1);
  }

  lemma WaitClockView(s: State, saved: CpuState, t: Times)
    requires Shape(s) && Rooted(s.fo) && Enabled(s, Event(WaitClock, saved.Advanced(), t))
    ensures var r := Step(s, Event(WaitClock, saved.Advanced(), t));
      Uniform(s) && Uniform(r.state) && WaitClockEffect(ViewOf(s), ViewOf(r.state), r.outcome, saved, t)
  {
    hide Rooted, Step, BlockCurrent, ChargeCurrent, Lowered, Books;
    var e, a := Event(WaitClock, saved.Advanced(), t), DevAddr(s.cfg.devBase, CLOCK_INDEX);
    var s1 := SetDev(Save(s, s.pl.current, saved.Advanced()), CLOCK_INDEX, s.ct.dev[CLOCK_INDEX] - 1);
    BlockFields(AddSoft(s1, 1), a, t);
    BlockFields(s1, a, t);
    LowerBooks(s, saved, AddSoft(s1, 1), a, t);
    LowerBooks(s, saved, s1, a, t);
    LoweredEffect(s, e, saved, a, s.ct.dev[CLOCK_INDEX] - 1);
  }

  // ---------------------------------------------------------------- the other services

  /** A caller that goes on, with everything else as the work leaves it. */
  lemma GoesOnView(s: State, e: Event, cs: CpuState, saved: CpuState, answer: int, dt: int)
    requires Shape(s) && Rooted(s.fo) && Enabled(s, e) && s.pl.current != null && !Stray(s, e) && !PassesUp(s, e)
    requires Books(s, Work(s, e), cs, dt) && Returned(cs, saved, answer) && Work(s, e).pl.current == s.pl.current
    ensures var r := Step(s, e);
      && Uniform(s) && Uniform(r.state) && OnlyCaller(ViewOf(s), ViewOf(r.state), saved, answer, dt)
      && RunsOn(s.pl.current, ViewOf(r.state), r.outcome, e.t)
      && r.state.ct == Work(s, e).ct && r.state.pl.ready == Work(s, e).pl.ready && r.state.pl.blocked == Work(s, e).pl.blocked
  {
    hide Rooted, Work, Step, Domains, Hands, RunsOn, Returned, Enabled, Booked, OnlyCaller, Books;
    BookedFrom(s, Work(s, e), cs, dt);
    FinishView(s, e);
    FinishKeeps(s, e);
    var r := Step(s, e);
    BookedIsOnlyCaller(ViewOf(s), ViewOf(Work(s, e)), ViewOf(r.state), r.outcome, cs, saved, answer, dt, e.t);
  }

  lemma VerhogenView(s: State, saved: CpuState, a: Addr, t: Times)
    requires Shape(s) && Rooted(s.fo) && Enabled(s, Event(Verhogen(a), saved.Advanced(), t))
    ensures var r := Step(s, Event(Verhogen(a), saved.Advanced(), t));
      Uniform(s) && Uniform(r.state) && VerhogenEffect(ViewOf(s), ViewOf(r.state), r.outcome, a, saved, t)
  {
    hide Rooted, Step, ChargeCurrent, Books, OnlyCaller, RunsOn;
    var e := Event(Verhogen(a), saved.Advanced(), t);
    AdvancedIs(saved);
    VerhogenBooks(s, saved, a, t);
    GoesOnView(s, e, saved.Advanced(), saved, saved.reg[1], t.mid - s.cpu.start);
  }

  lemma VerhogenBooks(s: State, saved: CpuState, a: Addr, t: Times)
    requires Shape(s) && Rooted(s.fo) && Enabled(s, Event(Verhogen(a), saved.Advanced(), t))
    ensures var m, v := Work(s, Event(Verhogen(a), saved.Advanced(), t)), s.ct.user[a] + 1;
      && Books(s, m, saved.Advanced(), t.mid - s.cpu.start) && m.ct == s.ct.(user := s.ct.user[a := v])
      && m.pl == if v <= 0 then Wake(s.pl, a) else s.pl
  {
    hide Rooted;
  }

  lemma AnswersView(s: State, e: Event, cs: CpuState, saved: CpuState, answer: int, dt: int)
    requires Shape(s) && Rooted(s.fo) && Enabled(s, e) && s.pl.current != null && !Stray(s, e) && !PassesUp(s, e)
    requires Books(s, Work(s, e), cs, dt) && Returned(cs, saved, answer)
    requires Work(s, e).pl == s.pl && Work(s, e).ct == s.ct
    ensures var r := Step(s, e);
      Uniform(s) && Uniform(r.state) && Answers(ViewOf(s), ViewOf(r.state), r.outcome, saved, answer, dt, e.t)
  {
    hide Rooted, Work, Step, Books, OnlyCaller, RunsOn, Enabled;
    GoesOnView(s, e, cs, saved, answer, dt);
  }

  lemma GetTimeBooks(s: State, saved: CpuState, t: Times)
    requires Shape(s) && Rooted(s.fo) && Enabled(s, Event(GetTime, saved.Advanced(), t))
    ensures var m, cur := Work(s, Event(GetTime, saved.Advanced(), t)), s.pl.current;
      && cur in s.cpu.time
      && Books(s, m, saved.Advanced().WithV0(s.cpu.time[cur] + (t.mid - s.cpu.start)),
               (t.mid - s.cpu.start) + (t.late - s.cpu.start))
      && m.pl == s.pl && m.ct == s.ct
  {
    hide Rooted;
    var m, cur := Work(s, Event(GetTime, saved.Advanced(), t)), s.pl.current;
    var cs := saved.Advanced().WithV0(s.cpu.time[cur] + (t.mid - s.cpu.start));
    assert m.cpu.regs == s.cpu.regs[cur := cs];
    assert m.cpu.time == s.cpu.time[cur := s.cpu.time[cur] + ((t.mid - s.cpu.start) + (t.late - s.cpu.start))];
  }

  lemma GetTimeView(s: State, saved: CpuState, t: Times)
    requires Shape(s) && Rooted(s.fo) && Enabled(s, Event(GetTime, saved.Advanced(), t))
    ensures var r := Step(s, Event(GetTime, saved.Advanced(), t));
      && Uniform(s) && Uniform(r.state) && s.pl.current in ViewOf(s).slots
      && Answers(ViewOf(s), ViewOf(r.state), r.outcome, saved,
                 ViewOf(s).slots[s.pl.current].time + (t.mid - s.cpu.start), (t.mid - s.cpu.start) + (t.late - s.cpu.start), t)
  {
    hide Rooted, Work, Step, Books, Answers, Returned;
    var answer := s.cpu.time[s.pl.current] + (t.mid - s.cpu.start);
    GetTimeBooks(s, saved, t);
    AnsweredIs(saved, answer);
    AnswersView(s, Event(GetTime, saved.Advanced(), t), saved.Advanced().WithV0(answer), saved, answer,
      (t.mid - s.cpu.start) + (t.late - s.cpu.start));
  }

  lemma GetSupportBooks(s: State, saved: CpuState, t: Times)
    requires Shape(s) && Rooted(s.fo) && Enabled(s, Event(GetSupport, saved.Advanced(), t))
    ensures var m, cur := Work(s, Event(GetSupport, saved.Advanced(), t)), s.pl.current;
      && cur in s.cpu.support
      && Books(s, m, saved.Advanced().WithV0(match s.cpu.support[cur] case Some(w) => w case None => -1), t.mid - s.cpu.start)
      && m.pl == s.pl && m.ct == s.ct
  {
    hide Rooted;
    var m, cur := Work(s, Event(GetSupport, saved.Advanced(), t)), s.pl.current;
    var cs := saved.Advanced().WithV0(match s.cpu.support[cur] case Some(w) => w case None => -1);
    assert m.cpu.regs == s.cpu.regs[cur := cs];
  }

  lemma GetSupportView(s: State, saved: CpuState, t: Times)
    requires Shape(s) && Rooted(s.fo) && Enabled(s, Event(GetSupport, saved.Advanced(), t))
    ensures var r := Step(s, Event(GetSupport, saved.Advanced(), t));
      && Uniform(s) && Uniform(r.state) && s.pl.current in ViewOf(s).slots
      && Answers(ViewOf(s), ViewOf(r.state), r.outcome, saved,
                 match ViewOf(s).slots[s.pl.current].support case Some(w) => w case None => -1, t.mid - s.cpu.start, t)
  {
    hide Rooted, Work, Step, Books, Answers, Returned;
    var answer := match s.cpu.support[s.pl.current] case Some(w) => w case None => -1;
    GetSupportBooks(s, saved, t);
    AnsweredIs(saved, answer);
    AnswersView(s, Event(GetSupport, saved.Advanced(), t), saved.Advanced().WithV0(answer), saved, answer, t.mid - s.cpu.start);
  }

  // ---------------------------------------------------------------- creation

  lemma RefusedBooks(s: State, saved: CpuState, init: CpuState, given: Option<int>, t: Times)
    requires Shape(s) && Rooted(s.fo) && Enabled(s, Event(Create(init, given, null), saved.Advanced(), t))
    ensures var m := Work(s, Event(Create(init, given, null), saved.Advanced(), t));
      && Books(s, m, saved.Advanced().WithV0(-1), t.mid - s.cpu.start) && m.pl == s.pl && m.ct == s.ct
  {
    hide Rooted;
    var m, cur := Work(s, Event(Create(init, given, null), saved.Advanced(), t)), s.pl.current;
    assert m.cpu.regs == s.cpu.regs[cur := saved.Advanced().WithV0(-1)];
  }

  lemma RefusedView(s: State, saved: CpuState, init: CpuState, given: Option<int>, t: Times)
    requires Shape(s) && Rooted(s.fo) && Enabled(s, Event(Create(init, given, null), saved.Advanced(), t))
    ensures var r := Step(s, Event(Create(init, given, null), saved.Advanced(), t));
      Uniform(s) && Uniform(r.state) && Answers(ViewOf(s), ViewOf(r.state), r.outcome, saved, -1, t.mid - s.cpu.start, t)
  {
    hide Rooted, Work, Step, Books, Answers, Returned;
    RefusedBooks(s, saved, init, given, t);
    AnsweredIs(saved, -1);
    AnswersView(s, Event(Create(init, given, null), saved.Advanced(), t), saved.Advanced().WithV0(-1), saved, -1,
      t.mid - s.cpu.start);
  }

  /** What the work of a creation leaves: block is a new live process, and the caller's state cs is saved. */
  ghost predicate Admits(s: State, m: State, block: Pcb, init: CpuState, given: Option<int>, cs: CpuState, dt: int) {
    var c := s.pl.current;
    && c != null && c in s.cpu.time && m.cfg == s.cfg && m.ct == s.ct.(procs := s.ct.procs + 1)
    && m.pl.live == s.pl.live + {block} && m.pl.ready == s.pl.ready + [block]
    && m.pl.blocked == s.pl.blocked && m.pl.current == c
    && m.fo.parent == s.fo.parent[block := c] && m.cpu.support == s.cpu.support[block := given]
    && m.cpu.regs == s.cpu.regs[block := init][c := cs]
    && m.cpu.time == s.cpu.time[block := 0][c := s.cpu.time[c] + dt]
  }

  lemma CreateAdmits(s: State, saved: CpuState, init: CpuState, given: Option<int>, block: Pcb, t: Times)
    requires Shape(s) && Rooted(s.fo) && Enabled(s, Event(Create(init, given, block), saved.Advanced(), t))
    ensures var m := Work(s, Event(Create(init, given, block), saved.Advanced(), t));
      Admits(s, m, block, init, given, saved.Advanced().WithV0(0), t.mid - s.cpu.start)
  {
    hide Rooted;
    var m, cur := Work(s, Event(Create(init, given, block), saved.Advanced(), t)), s.pl.current;
    var cs := saved.Advanced().WithV0(0);
    assert m.cpu.regs == s.cpu.regs[block := init][cur := cs];
    assert m.cpu.time == s.cpu.time[block := 0][cur := s.cpu.time[cur] + (t.mid - s.cpu.start)];
  }

  lemma AdmittedDomains(s: State, m: State, block: Pcb, init: CpuState, given: Option<int>, cs: CpuState, dt: int)
    requires Domains(s) && s.pl.current != null && s.pl.current in s.pl.live && block !in s.pl.live
    requires Admits(s, m, block, init, given, cs, dt)
    ensures Uniform(s) && Uniform(m)
  {
  }

  lemma AdmittedView(s: State, m: State, block: Pcb, init: CpuState, given: Option<int>, cs: CpuState, dt: int)
    requires Domains(s) && s.pl.current != null && s.pl.current in s.pl.live && block !in s.pl.live
    requires Admits(s, m, block, init, given, cs, dt)
    ensures Uniform(s) && Uniform(m)
    ensures var v0, v := ViewOf(s), ViewOf(m);
      && block !in v0.slots && block in v.slots && v.slots[block] == Slot(init, 0, given, s.pl.current)
      && Booked(v0, v.(slots := v.slots - {block}, procs := v.procs - 1), cs, dt)
  {
    hide Domains;
    AdmittedDomains(s, m, block, init, given, cs, dt);
    var v0, v, c := ViewOf(s), ViewOf(m), s.pl.current;
    assert v.slots - {block} == v0.slots[c := v0.slots[c].(state := cs, time := v0.slots[c].time + dt)];
  }

  lemma CreateView(s: State, saved: CpuState, init: CpuState, given: Option<int>, block: Pcb?, t: Times)
    requires Shape(s) && Rooted(s.fo) && Enabled(s, Event(Create(init, given, block), saved.Advanced(), t))
    requires given == if saved.reg[5] == -1 then None else Some(saved.reg[5])
    ensures var r := Step(s, Event(Create(init, given, block), saved.Advanced(), t));
      Uniform(s) && Uniform(r.state) && Creates(ViewOf(s), ViewOf(r.state), r.outcome, saved, init, block, t)
  {
    hide Rooted, Work, Step, Returned, Answers, Booked, Admits;
    if block == null {
      RefusedView(s, saved, init, given, t);
    } else {
      BlockCreated(s, saved, init, given, block, t);
    }
  }

  lemma BlockCreated(s: State, saved: CpuState, init: CpuState, given: Option<int>, block: Pcb, t: Times)
    requires Shape(s) && Rooted(s.fo) && Enabled(s, Event(Create(init, given, block), saved.Advanced(), t))
    requires given == if saved.reg[5] == -1 then None else Some(saved.reg[5])
    ensures var r := Step(s, Event(Create(init, given, block), saved.Advanced(), t));
      Uniform(s) && Uniform(r.state) && Creates(ViewOf(s), ViewOf(r.state), r.outcome, saved, init, block, t)
  {
    hide Rooted, Work, Step, Returned, Answers;
    var e, cs, dt := Event(Create(init, given, block), saved.Advanced(), t), saved.Advanced().WithV0(0), t.mid - s.cpu.start;
    var m, r := Work(s, e), Step(s, e);
    CreateAdmits(s, saved, init, given, block, t);
    AdmittedView(s, m, block, init, given, cs, dt);
    FinishView(s, e);
    AnsweredIs(saved, 0);
  }

  // ---------------------------------------------------------------- termination

  lemma {:induction false} BelowHasParent(fo: Forest, r: Pcb, p: Pcb)
    requires Rooted(fo) && p in Subtree(fo, r) && p != r
    ensures fo.parent[p] != null && fo.parent[p] in Subtree(fo, r)
  {
  }

  lemma EndsTree(s: State, e: Event)
    requires Inv(s) && Shape(s) && Rooted(s.fo) && Enabled(s, e) && Kills(s, e)
    ensures var r, gone := Step(s, e), Subtree(s.fo, s.pl.current);
      && Uniform(s) && Uniform(r.state) && s.pl.current in gone && r.state.pl.live == s.pl.live - gone && gone <= s.pl.live
      && (forall p | p in gone && p != s.pl.current :: s.fo.parent[p] != null && s.fo.parent[p] in gone)
      && (forall p | p in r.state.pl.live :: r.state.fo.parent[p] == s.fo.parent[p] && s.fo.parent[p] !in gone)
  {
    hide Inv, Rooted, Step, Subtree, Shape, Enabled, Kills;
    InvUniform(s);
    StepInv(s, e);
    InvUniform(Step(s, e).state);
    TerminationExact(s, e);
    forall p | p in Subtree(s.fo, s.pl.current) && p != s.pl.current
      ensures s.fo.parent[p] != null && s.fo.parent[p] in Subtree(s.fo, s.pl.current)
    {
      BelowHasParent(s.fo, s.pl.current, p);
    }
    forall p | p in Step(s, e).state.pl.live
      ensures Step(s, e).state.fo.parent[p] == s.fo.parent[p] && s.fo.parent[p] !in Subtree(s.fo, s.pl.current)
    {
      SurvivorsKeepFamily(s, e, p);
    }
  }

  lemma EndsBlocks(s: State, e: Event)
    requires Shape(s) && Rooted(s.fo) && Enabled(s, e) && Kills(s, e)
    ensures var s1, gone := Step(s, e).state, Subtree(s.fo, s.pl.current);
      && s1.cpu.regs == s.cpu.regs - gone && s1.cpu.time == s.cpu.time - gone && s1.cpu.support == s.cpu.support - gone
      && s1.cfg == s.cfg
  {
    hide Rooted, Step, Subtree;
    FinishKeeps(s, e);
    EndsWork(s, e);
  }

  lemma TerminatedBlocks(s: State)
    requires Shape(s) && Rooted(s.fo) && s.pl.current != null
    ensures var m, gone := DoTerminate(s), Subtree(s.fo, s.pl.current);
      && m.cpu.regs == s.cpu.regs - gone && m.cpu.time == s.cpu.time - gone && m.cpu.support == s.cpu.support - gone
      && m.cfg == s.cfg && m.pl.current == null && m.pl.ready == Minus(s.pl.ready, gone)
  {
    hide Rooted, Subtree, Minus, Domains;
  }

  lemma EndsWork(s: State, e: Event)
    requires Shape(s) && Rooted(s.fo) && Enabled(s, e) && Kills(s, e)
    ensures var m, gone := Work(s, e), Subtree(s.fo, s.pl.current);
      && m.cpu.regs == s.cpu.regs - gone && m.cpu.time == s.cpu.time - gone && m.cpu.support == s.cpu.support - gone
      && m.cfg == s.cfg && m.pl.current == null && m.pl.ready == Minus(s.pl.ready, gone)
  {
    hide Rooted, Subtree, Minus, DoTerminate;
    if e.act.Terminate? {
      TerminatedBlocks(Save(s, s.pl.current, e.saved));
      assert s.cpu.regs[s.pl.current := e.saved] - Subtree(s.fo, s.pl.current) == s.cpu.regs - Subtree(s.fo, s.pl.current) by {
        RootInSubtree(s.fo, s.pl.current);
      }
    } else {
      TerminatedBlocks(s);
    }
  }

  lemma EndsSlots(s: State, e: Event)
    requires Inv(s) && Shape(s) && Rooted(s.fo) && Enabled(s, e) && Kills(s, e)
    ensures Uniform(s) && Uniform(Step(s, e).state)
    ensures var v0, v1 := ViewOf(s), ViewOf(Step(s, e).state); var gone := v0.slots.Keys - v1.slots.Keys;
      && gone == Subtree(s.fo, s.pl.current) && v1.slots.Keys <= v0.slots.Keys && v0.current in gone
      && (forall p | p in gone && p != v0.current :: v0.slots[p].parent != null && v0.slots[p].parent in gone)
      && (forall p | p in v1.slots :: v1.slots[p] == v0.slots[p] && v0.slots[p].parent !in gone)
  {
    hide Inv, Rooted, Step, Subtree, Shape, Enabled, Kills;
    EndsTree(s, e);
    EndsBlocks(s, e);
    var v0, v1, dead := ViewOf(s), ViewOf(Step(s, e).state), Subtree(s.fo, s.pl.current);
    assert v0.slots.Keys == s.pl.live && v1.slots.Keys == s.pl.live - dead;
    assert v0.slots.Keys - v1.slots.Keys == dead;
  }

  lemma EndsHand(s: State, e: Event)
    requires Inv(s) && Shape(s) && Rooted(s.fo) && Enabled(s, e) && Kills(s, e)
    ensures Uniform(Step(s, e).state)
    ensures var r := Step(s, e); Hands(Minus(s.pl.ready, Subtree(s.fo, s.pl.current)), ViewOf(r.state), r.outcome, e.t)
  {
    hide Inv, Rooted, Step, Subtree, Shape, Enabled, Kills, Work, Hands, Minus, RunsOn;
    EndsWork(s, e);
    KillsWork(s, e);
    WorkUniform(s, e);
    FinishView(s, e);
  }

  lemma WorkUniform(s: State, e: Event)
    requires Inv(s) && Shape(s) && Rooted(s.fo) && Enabled(s, e)
    ensures Uniform(Work(s, e))
  {
    hide Inv, Rooted, Step, Shape, Enabled, Work;
    StepInv(s, e);
    InvUniform(Step(s, e).state);
    FinishKeeps(s, e);
  }

  /** Those blocked on a device semaphore are the waiters of the 49. */
  lemma SoftAreWaiters(s: State, p: Pcb)
    requires Inv(s) && Uniform(s) && s.pl.waitsOn.Keys == s.pl.live
    ensures p in SoftBlocked(s.cfg, s.pl) <==> p in s.pl.live && WaitsForDevice(ViewOf(s), p)
  {
    hide Queued, CurrentOk, Rooted, Kinship, ReadySound, ReadyComplete, Distinct, Domains;
    var v := ViewOf(s);
    if p in SoftBlocked(s.cfg, s.pl) {
      var a := s.pl.waitsOn[p].value;
      assert a in s.pl.blocked && p in s.pl.blocked[a];
      var i: nat := (a - s.cfg.devBase) / 4;
      assert a == v.base + 4 * i && i < 49;
    }
  }

  lemma SoftGone(s: State, gone: set<Pcb>)
    requires Inv(s) && Uniform(s) && s.pl.waitsOn.Keys == s.pl.live && gone <= s.pl.live
    ensures SoftBlocked(s.cfg, s.pl) * gone == set p | p in gone && WaitsForDevice(ViewOf(s), p)
  {
    hide Inv, Uniform, SoftBlocked, WaitsForDevice;
    forall p | p in s.pl.live ensures p in SoftBlocked(s.cfg, s.pl) <==> WaitsForDevice(ViewOf(s), p) {
      SoftAreWaiters(s, p);
    }
  }

  lemma WaitersAreQueued(s: State, a: Addr)
    requires Inv(s)
    ensures s.pl.waitsOn.Keys == s.pl.live && Elements(QueueOf(s.pl.blocked, a)) == Waiters(s.pl, a)
  {
    hide Located, Queued, CurrentOk, Rooted, Kinship, Words, Domains;
    InvDomain(s);
    SomebodyWaits(s.pl, a);
  }

  lemma EndsCounts(s: State, e: Event)
    requires Inv(s) && Shape(s) && Rooted(s.fo) && Enabled(s, e) && Kills(s, e)
    ensures Uniform(s) && Uniform(Step(s, e).state)
    ensures var v0, v1, gone := ViewOf(s), ViewOf(Step(s, e).state), Subtree(s.fo, s.pl.current);
      && v1.procs == v0.procs - |gone| && v1.devices == v0.devices && v1.base == v0.base
      && v1.memory.Keys == v0.memory.Keys
      && (forall a | a in v0.memory :: v1.memory[a] == v0.memory[a] + |Elements(QueueAt(v0, a)) * gone|)
      && v1.queues.Keys <= v0.queues.Keys
      && (forall a | a in v0.queues :: QueueAt(v1, a) == Minus(v0.queues[a], gone))
      && v1.soft == v0.soft - |set p | p in gone && WaitsForDevice(v0, p)|
  {
    hide Inv, Rooted, Step, Subtree, Shape, Enabled, Kills, Waiters, Minus, SoftBlocked, Uniform, WaitsForDevice;
    EndsTree(s, e);
    EndsBlocks(s, e);
    TerminationExact(s, e);
    InvDomain(s);
    SoftGone(s, Subtree(s.fo, s.pl.current));
    forall a: Addr ensures Elements(QueueAt(ViewOf(s), a)) == Waiters(s.pl, a) {
      WaitersAreQueued(s, a);
    }
  }

  lemma TerminateView(s: State, e: Event)
    requires Inv(s) && Shape(s) && Rooted(s.fo) && Enabled(s, e) && Kills(s, e)
    ensures var r := Step(s, e);
      Uniform(s) && Uniform(r.state) && Ends(ViewOf(s), ViewOf(r.state), r.outcome, e.t)
  {
    hide Inv, Rooted, Step, Subtree, Shape, Enabled, Kills, Hands, Minus, Uniform, WaitsForDevice;
    EndsSlots(s, e);
    EndsHand(s, e);
    EndsCounts(s, e);
  }

  lemma FaultView(s: State, saved: CpuState, t: Times)
    requires Inv(s) && Shape(s) && Rooted(s.fo) && Enabled(s, Event(Fault, saved, t))
    ensures var r := Step(s, Event(Fault, saved, t));
      Uniform(s) && Uniform(r.state) && Faults(ViewOf(s), ViewOf(r.state), r.outcome, t)
  {
    hide Inv, Rooted, Shape, Step, Ends;
    InvUniform(s);
    FaultDomains(s, saved, t);
    if s.cpu.support[s.pl.current] == None {
      TerminateView(s, Event(Fault, saved, t));
    } else {
      PassedUpView(s, saved, t);
    }
  }

  lemma FaultDomains(s: State, saved: CpuState, t: Times)
    requires Inv(s) && Shape(s) && Enabled(s, Event(Fault, saved, t))
    ensures s.pl.current != null && s.pl.current in s.pl.live && s.pl.current in s.cpu.support
  {
  }

  lemma PassedUpView(s: State, saved: CpuState, t: Times)
    requires Shape(s) && Rooted(s.fo) && Enabled(s, Event(Fault, saved, t)) && s.cpu.support[s.pl.current] != None
    ensures var r := Step(s, Event(Fault, saved, t));
      Uniform(s) && Uniform(r.state) && Faults(ViewOf(s), ViewOf(r.state), r.outcome, t)
  {
    hide Rooted, Ends;
  }
}
