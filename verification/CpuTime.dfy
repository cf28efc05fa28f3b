/** Accounting of processor time, over every run. */
module CpuAccounting {
  import opened Collections
  import opened Types
  import opened NucleusState
  import opened NucleusInvariants
  import opened NucleusRuns
  import opened UserSemaphores
  import opened Endings

  /** Up to when time has been charged or forgone: the start of the running process, or the last reading. */
  ghost function Mark(s: State): int {
    if s.pl.current != null then s.cpu.start else s.cpu.clock
  }

  ghost predicate ClockOk(s: State) {
    s.pl.current != null ==> s.cpu.start <= s.cpu.clock
  }

  /** The time an exception charges to processes. */
  ghost function Charged(s: State, e: Event): int
    requires Shape(s) && Enabled(s, e)
  {
    var ran := e.t.mid - s.cpu.start;
    match e.act
    case Terminate => 0
    case Fault => if PassesUp(s, e) then ran else 0
    case GetTime => ran + (e.t.late - s.cpu.start)
    case Slice => if s.pl.current == null then 0 else ran
    case Tick => if s.pl.current == null then 0 else e.t.arrive - s.cpu.start
    case Device(i, _) =>
      (if DevAddr(s.cfg.devBase, i) in s.pl.blocked then e.t.mid - e.t.arrive else 0)
      + (if s.pl.current == null then 0 else e.t.arrive - s.cpu.start)
    case _ => ran
  }

  /** The time an exception charges although it is or will be charged again: SYS6 and pass-up leave the start alone. */
  ghost function Recounted(s: State, e: Event): int
    requires Shape(s) && Enabled(s, e)
  {
    if e.act.GetTime? || PassesUp(s, e) then e.t.mid - s.cpu.start else 0
  }

  /** s1 has the accounts of s after one charge of dt to p. */
  ghost predicate ChargedOnce(s: State, s1: State, p: Pcb, dt: int)
    requires p in s.cpu.time
  {
    && s1.cpu.time == s.cpu.time[p := s.cpu.time[p] + dt]
    && s1.cpu.ledger == s.cpu.ledger + dt && s1.cpu.start == s.cpu.start && s1.cpu.clock == s.cpu.clock
  }

  lemma BlockCharges(s: State, a: Addr, t: Times)
    requires Shape(s) && s.pl.current != null
    ensures ChargedOnce(s, BlockCurrent(s, a, t), s.pl.current, t.mid - s.cpu.start)
    ensures ChargedOnce(s, ChargeCurrent(s, t), s.pl.current, t.mid - s.cpu.start)
  {
  }

  lemma PasserenCharges(s: State, a: Addr, t: Times)
    requires Shape(s) && s.pl.current != null && a in s.ct.user
    ensures ChargedOnce(s, DoPasseren(s, a, t), s.pl.current, t.mid - s.cpu.start)
  {
    hide BlockCurrent, ChargeCurrent;
    BlockCharges(SetUser(s, a, s.ct.user[a] - 1), a, t);
  }

  lemma WaitIOCharges(s: State, i: nat, t: Times)
    requires Shape(s) && s.pl.current != null && i < CLOCK_INDEX
    ensures ChargedOnce(s, DoWaitIO(s, i, t), s.pl.current, t.mid - s.cpu.start)
  {
    hide BlockCurrent, ChargeCurrent;
    BlockCharges(SetDev(AddSoft(s, 1), i, s.ct.dev[i] - 1), DevAddr(s.cfg.devBase, i), t);
  }

  lemma WaitClockCharges(s: State, t: Times)
    requires Shape(s) && s.pl.current != null
    ensures ChargedOnce(s, DoWaitClock(s, t), s.pl.current, t.mid - s.cpu.start)
  {
    hide BlockCurrent, ChargeCurrent;
    var s1 := SetDev(s, CLOCK_INDEX, s.ct.dev[CLOCK_INDEX] - 1);
    BlockCharges(AddSoft(s1, 1), DevAddr(s.cfg.devBase, CLOCK_INDEX), t);
    BlockCharges(s1, DevAddr(s.cfg.devBase, CLOCK_INDEX), t);
  }

  /** The system calls that may block. */
  lemma WaitCharges(s: State, act: Action, t: Times)
    requires Shape(s) && Rooted(s.fo) && s.pl.current != null
    requires (act.Passeren? && act.a in s.ct.user) || (act.WaitIO? && LegalDevice(act.line, act.dev)) || act.WaitClock?
    ensures ChargedOnce(s, SysWork(s, act, t), s.pl.current, t.mid - s.cpu.start)
  {
    hide DoPasseren, DoWaitIO, DoWaitClock, Rooted, ChargedOnce;
    match act
    case Passeren(a) => PasserenCharges(s, a, t);
    case WaitIO(line, dev, read) => WaitIOCharges(s, SemIndex(line, dev, read), t);
    case WaitClock => WaitClockCharges(s, t);
  }

  lemma PlainCharges(s: State, act: Action, t: Times)
    requires Shape(s) && Rooted(s.fo) && s.pl.current != null
    requires (act.Verhogen? && act.a in s.ct.user) || act.GetSupport?
    ensures ChargedOnce(s, SysWork(s, act, t), s.pl.current, t.mid - s.cpu.start)
  {
  }

  lemma GetTimeCharges(s: State, t: Times)
    requires Shape(s) && Rooted(s.fo) && s.pl.current != null
    ensures ChargedOnce(s, SysWork(s, GetTime, t), s.pl.current, (t.mid - s.cpu.start) + (t.late - s.cpu.start))
  {
    hide Rooted, Subtree, Minus;
    var cur, d1, d2 := s.pl.current, t.mid - s.cpu.start, t.late - s.cpu.start;
    var m := DoGetTime(s, t);
    assert SysWork(s, GetTime, t) == m;
    assert m.cpu.time == s.cpu.time[cur := s.cpu.time[cur] + d1 + d2];
  }

  lemma SavedCharges(s: State, cs: CpuState, t: Times)
    requires Shape(s) && s.pl.current != null
    ensures ChargedOnce(s, ChargeCurrent(Save(s, s.pl.current, cs), t), s.pl.current, t.mid - s.cpu.start)
  {
  }

  lemma PassUpCharges(s: State, e: Event)
    requires Shape(s) && Rooted(s.fo) && Enabled(s, e) && PassesUp(s, e)
    ensures s.pl.current in s.cpu.time && ChargedOnce(s, Work(s, e), s.pl.current, e.t.mid - s.cpu.start)
  {
    hide Rooted, DoTerminate, SysWork, DoSlice, Interrupted, Ticked, Deliver;
    assert Work(s, e) == ChargeCurrent(s, e.t);
  }

  lemma InterruptCharges(s: State, saved: CpuState, t: Times)
    requires Domains(s) && s.pl.current != null && s.pl.current in s.pl.live
    ensures ChargedOnce(s, Interrupted(s, saved, t), s.pl.current, t.arrive - s.cpu.start)
  {
  }

  lemma DeliverCharges(s: State, i: nat, status: int, t: Times)
    requires Shape(s) && i < CLOCK_INDEX
    ensures var a := DevAddr(s.cfg.devBase, i);
      if a in s.pl.blocked then ChargedOnce(s, Deliver(s, i, status, t), s.pl.blocked[a][0], t.mid - t.arrive)
      else Deliver(s, i, status, t).cpu == s.cpu
  {
  }

  lemma EndedCharges(s: State)
    requires Shape(s) && Rooted(s.fo) && s.pl.current != null
    ensures DoTerminate(s).cpu.time == s.cpu.time - Subtree(s.fo, s.pl.current)
    ensures DoTerminate(s).cpu.ledger == s.cpu.ledger && DoTerminate(s).cpu.start == s.cpu.start && DoTerminate(s).cpu.clock == s.cpu.clock
  {
    hide Subtree, Minus;
  }

  lemma WorkCurrent(s: State, e: Event)
    requires Shape(s) && Rooted(s.fo) && Enabled(s, e)
    ensures Stray(s, e) || PassesUp(s, e) ==> Work(s, e).pl.current == s.pl.current
  {
    hide Subtree, Minus, Domains;
  }

  // ---------------------------------------------------------------- the sum of the process times

  ghost predicate NonNegative(s: State) {
    forall p | p in s.cpu.time :: s.cpu.time[p] >= 0
  }

  /** The time of the processes that an exception ends. */
  ghost function Retired(s: State, e: Event): int
    requires Shape(s) && Rooted(s.fo) && Enabled(s, e)
  {
    if Kills(s, e) then Sum(s.cpu.time) - Sum(s.cpu.time - Subtree(s.fo, s.pl.current)) else 0
  }

  /** The accounts after the work of an exception: what was charged is in the ledger and with the processes. */
  ghost predicate Accounts(s: State, m: State, charged: int, retired: int) {
    && Sum(m.cpu.time) == Sum(s.cpu.time) + charged - retired
    && m.cpu.ledger == s.cpu.ledger + charged && m.cpu.start == s.cpu.start && m.cpu.clock == s.cpu.clock
    && (NonNegative(s) && charged >= 0 ==> NonNegative(m))
  }

  lemma ChargedOnceAccounts(s: State, m: State, p: Pcb, dt: int)
    requires p in s.cpu.time && ChargedOnce(s, m, p, dt)
    ensures Accounts(s, m, dt, 0)
  {
    hide Sum;
    SumUpdate(s.cpu.time, p, s.cpu.time[p] + dt);
  }

  lemma EndedAccounts(s: State)
    requires Shape(s) && Rooted(s.fo) && s.pl.current != null
    ensures Accounts(s, DoTerminate(s), 0, Sum(s.cpu.time) - Sum(s.cpu.time - Subtree(s.fo, s.pl.current)))
  {
    hide Sum, Subtree, DoTerminate, Domains;
    EndedCharges(s);
  }

  /** The new process starts with no time. */
  lemma BornAccounts(s: State, init: CpuState, given: Option<int>, p: Pcb)
    requires Shape(s) && s.pl.current != null && p in s.cfg.pool && p !in s.pl.live
    ensures s.pl.current in s.fo.kids && Accounts(s, Born(s, init, given, p), 0, 0)
  {
    hide Sum;
    SumUpdate(s.cpu.time, p, 0);
  }

  lemma CreateAccounts(s: State, act: Action, t: Times)
    requires Shape(s) && Rooted(s.fo) && s.pl.current != null
    requires act.Create? && (act.block != null ==> act.block in s.cfg.pool && act.block !in s.pl.live)
    ensures Accounts(s, SysWork(s, act, t), t.mid - s.cpu.start, 0)
  {
    hide Sum, Born, Rooted;
    var cur := s.pl.current;
    if act.block != null {
      BornShape(s, act.init, act.given, act.block);
      BornKeeps(s, act.init, act.given, act.block);
      BornAccounts(s, act.init, act.given, act.block);
      var s1 := Born(s, act.init, act.given, act.block);
      SavedCharges(s1, s1.cpu.regs[cur].WithV0(SUCCESS), t);
      ChargedOnceAccounts(s1, SysWork(s, act, t), cur, t.mid - s.cpu.start);
    } else {
      SavedCharges(s, s.cpu.regs[cur].WithV0(ERROR), t);
      ChargedOnceAccounts(s, SysWork(s, act, t), cur, t.mid - s.cpu.start);
    }
  }

  lemma SysAccounts(s: State, e: Event)
    requires Shape(s) && Rooted(s.fo) && Enabled(s, e)
    requires !(e.act.Slice? || e.act.Tick? || e.act.Device? || e.act.Fault?)
    ensures Accounts(s, Work(s, e), Charged(s, e), Retired(s, e))
  {
    hide Sum, Subtree, SysWork, Rooted, ChargedOnce;
    var s0, cur := Save(s, s.pl.current, e.saved), s.pl.current;
    match e.act
    case Create(_, _, _) =>
      CreateAccounts(s0, e.act, e.t);
    case Terminate => TerminateAccounts(s, e);
    case GetTime =>
      GetTimeCharges(s0, e.t);
      ChargedOnceAccounts(s0, Work(s, e), cur, (e.t.mid - s.cpu.start) + (e.t.late - s.cpu.start));
    case Passeren(_) =>
      WaitCharges(s0, e.act, e.t);
      ChargedOnceAccounts(s0, Work(s, e), cur, e.t.mid - s.cpu.start);
    case WaitIO(_, _, _) =>
      WaitCharges(s0, e.act, e.t);
      ChargedOnceAccounts(s0, Work(s, e), cur, e.t.mid - s.cpu.start);
    case WaitClock =>
      WaitCharges(s0, e.act, e.t);
      ChargedOnceAccounts(s0, Work(s, e), cur, e.t.mid - s.cpu.start);
    case Verhogen(_) =>
      PlainCharges(s0, e.act, e.t);
      ChargedOnceAccounts(s0, Work(s, e), cur, e.t.mid - s.cpu.start);
    case GetSupport =>
      PlainCharges(s0, e.act, e.t);
      ChargedOnceAccounts(s0, Work(s, e), cur, e.t.mid - s.cpu.start);
  }

  lemma TerminateAccounts(s: State, e: Event)
    requires Shape(s) && Rooted(s.fo) && Enabled(s, e) && e.act.Terminate?
    ensures Accounts(s, Work(s, e), Charged(s, e), Retired(s, e))
  {
    hide Sum, Subtree, SysWork, Rooted;
    EndedAccounts(Save(s, s.pl.current, e.saved));
    TerminateWork(s, e);
  }

  lemma TerminateWork(s: State, e: Event)
    requires Shape(s) && Rooted(s.fo) && Enabled(s, e) && e.act.Terminate?
    requires Shape(Save(s, s.pl.current, e.saved))
    ensures Work(s, e) == DoTerminate(Save(s, s.pl.current, e.saved))
  {
  }

  lemma DeviceAccounts(s: State, i: nat, status: int, saved: CpuState, t: Times)
    requires Shape(s) && i < CLOCK_INDEX
    ensures Accounts(s, Deliver(s, i, status, t), if DevAddr(s.cfg.devBase, i) in s.pl.blocked then t.mid - t.arrive else 0, 0)
    ensures Deliver(s, i, status, t).pl.current == s.pl.current
    ensures Domains(Deliver(s, i, status, t)) && Deliver(s, i, status, t).pl.live == s.pl.live
  {
    hide Sum;
    DeliverCharges(s, i, status, t);
    var a := DevAddr(s.cfg.devBase, i);
    if a in s.pl.blocked {
      ChargedOnceAccounts(s, Deliver(s, i, status, t), s.pl.blocked[a][0], t.mid - t.arrive);
    }
  }

  lemma EndAccounts(s: State, saved: CpuState, t: Times)
    requires Domains(s) && (s.pl.current != null ==> s.pl.current in s.pl.live)
    ensures Accounts(s, Interrupted(s, saved, t), if s.pl.current == null then 0 else t.arrive - s.cpu.start, 0)
  {
    hide Sum;
    if s.pl.current != null {
      InterruptCharges(s, saved, t);
      ChargedOnceAccounts(s, Interrupted(s, saved, t), s.pl.current, t.arrive - s.cpu.start);
    }
  }

  lemma OtherAccounts(s: State, e: Event)
    requires Shape(s) && Rooted(s.fo) && Enabled(s, e) && ClockOk(s)
    requires e.act.Slice? || e.act.Tick? || e.act.Device? || e.act.Fault?
    ensures Accounts(s, Work(s, e), Charged(s, e), Retired(s, e))
  {
    hide Sum, Subtree, Interrupted, Deliver, DoTerminate, Rooted, Domains;
    match e.act
    case Fault =>
      if PassesUp(s, e) {
        PassUpCharges(s, e);
        ChargedOnceAccounts(s, Work(s, e), s.pl.current, e.t.mid - s.cpu.start);
      } else {
        EndedAccounts(s);
      }
    case Slice =>
      if s.pl.current != null {
        SliceCharges(s, e);
        ChargedOnceAccounts(s, Work(s, e), s.pl.current, e.t.mid - s.cpu.start);
      }
    case Tick =>
      TickShape(s);
      EndAccounts(Ticked(s), e.saved, e.t);
    case Device(i, status) =>
      DeviceAccounts(s, i, status, e.saved, e.t);
      EndAccounts(Deliver(s, i, status, e.t), e.saved, e.t);
  }

  lemma SliceCharges(s: State, e: Event)
    requires Shape(s) && Rooted(s.fo) && Enabled(s, e) && e.act.Slice? && s.pl.current != null
    ensures s.pl.current in s.cpu.time && ChargedOnce(s, Work(s, e), s.pl.current, e.t.mid - s.cpu.start)
  {
    hide Rooted, Subtree, SysWork, DoTerminate, Interrupted, Deliver, Ticked, Minus;
  }

  lemma TickShape(s: State)
    requires Shape(s)
    ensures Domains(Ticked(s)) && Ticked(s).cpu == s.cpu
    ensures Ticked(s).pl.current == s.pl.current && Ticked(s).pl.live == s.pl.live
  {
  }

  lemma WorkAccounts(s: State, e: Event)
    requires Shape(s) && Rooted(s.fo) && Enabled(s, e) && ClockOk(s)
    ensures Accounts(s, Work(s, e), Charged(s, e), Retired(s, e))
  {
    hide Sum, Subtree, Work, Rooted, Domains, Charged, Retired, Accounts;
    if e.act.Slice? || e.act.Tick? || e.act.Device? || e.act.Fault? {
      OtherAccounts(s, e);
    } else {
      SysAccounts(s, e);
    }
  }

  // ---------------------------------------------------------------- runs

  /** A charge covers time that has passed since the mark, or is recounted. */
  lemma StepCharges(s: State, e: Event)
    requires Shape(s) && Rooted(s.fo) && Enabled(s, e) && ClockOk(s)
    ensures var s1 := Step(s, e).state;
      && Accounts(s, s1.(cpu := s1.cpu.(start := s.cpu.start, clock := s.cpu.clock)), Charged(s, e), Retired(s, e))
      && ClockOk(s1) && s1.cpu.clock == e.t.resume
      && 0 <= Charged(s, e) <= Mark(s1) - Mark(s) + Recounted(s, e)
  {
    hide Subtree, Minus, Domains, Work, Step, Rooted, Sum, Retired;
    WorkAccounts(s, e);
    StepEnds(s, e);
    WorkCurrent(s, e);
  }

  /** What the exceptions of a run charge, charge again, and take away with ended processes. */
  datatype Totals = Totals(charged: int, recounted: int, retired: int)

  ghost function TotalsOf(b: State, es: seq<Event>): Totals
    requires Inv(b) && Possible(b, es)
  {
    if es == [] then Totals(0, 0, 0)
    else
      var s, c := Exec(b, Front(es)), TotalsOf(b, Front(es));
      InvShape(s);
      Totals(c.charged + Charged(s, Last(es)), c.recounted + Recounted(s, Last(es)), c.retired + Retired(s, Last(es)))
  }

  /**
    Time is conserved: what the processes hold and what ended processes took with them is what was charged.
    Never more is charged than has passed, apart from the intervals that SYS6 and pass-up count again.
    */
  lemma {:induction false} TimeOverRuns(b: State, es: seq<Event>)
    requires Inv(b) && Possible(b, es) && ClockOk(b) && NonNegative(b)
    ensures var s, c := Exec(b, es), TotalsOf(b, es);
      && Sum(s.cpu.time) + c.retired == Sum(b.cpu.time) + c.charged
      && 0 <= c.charged <= Mark(s) - Mark(b) + c.recounted
      && Mark(s) <= s.cpu.clock && ClockOk(s) && NonNegative(s)
  {
    hide Located, Queued, CurrentOk, Rooted, Kinship, Words, Step, Enabled, Charged, Recounted, Retired, Sum, Domains;
    if es != [] {
      var s := Exec(b, Front(es));
      TimeOverRuns(b, Front(es));
      InvShape(s);
      StepCharges(s, Last(es));
    }
  }

  /** In runs without SYS6 and without pass-up, live processes together never have more time than has passed. */
  lemma NoMoreThanElapsed(b: State, es: seq<Event>)
    requires Inv(b) && Possible(b, es) && ClockOk(b) && NonNegative(b) && Sum(b.cpu.time) == 0
    requires TotalsOf(b, es).recounted == 0
    ensures Sum(Exec(b, es).cpu.time) <= Exec(b, es).cpu.clock - Mark(b)
  {
    hide Inv, Possible, Sum, TotalsOf;
    TimeOverRuns(b, es);
    RetiredNonNegative(b, es);
  }

  lemma {:induction false} RetiredNonNegative(b: State, es: seq<Event>)
    requires Inv(b) && Possible(b, es) && ClockOk(b) && NonNegative(b)
    ensures TotalsOf(b, es).retired >= 0
  {
    hide Located, Queued, CurrentOk, Kinship, Words, Step, Charged, Recounted, Sum, Subtree, Domains;
    if es != [] {
      var s := Exec(b, Front(es));
      RetiredNonNegative(b, Front(es));
      TimeOverRuns(b, Front(es));
      InvShape(s);
      if Kills(s, Last(es)) {
        SumDrop(s.cpu.time, Subtree(s.fo, s.pl.current));
      }
    }
  }

  /**
    The exceptions that charge more than the time that has passed: a SYS6 whose first interval is longer than
    what follows its second reading of the clock, and each pass-up after some time of running.
    */
  lemma OverchargedExactly(s: State, e: Event)
    requires Shape(s) && Rooted(s.fo) && Enabled(s, e) && ClockOk(s)
    ensures Charged(s, e) > Mark(Step(s, e).state) - Mark(s) <==>
      (e.act.GetTime? && e.t.mid - s.cpu.start > e.t.resume - e.t.late)
      || (PassesUp(s, e) && e.t.mid > s.cpu.start)
  {
    hide Subtree, Minus, Domains, Work, Step, Rooted, Sum, Retired;
    StepCharges(s, e);
    StepEnds(s, e);
    WorkCurrent(s, e);
    WorkAccounts(s, e);
    if e.act.GetTime? || PassesUp(s, e) {
      GetTimeRuns(s, e);
    }
  }

  lemma GetTimeRuns(s: State, e: Event)
    requires Shape(s) && Rooted(s.fo) && Enabled(s, e) && (e.act.GetTime? || PassesUp(s, e))
    ensures Work(s, e).pl.current == s.pl.current
  {
  }
}
