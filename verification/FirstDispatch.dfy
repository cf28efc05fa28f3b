/**
  The laws for the runs that begin where main() leaves off: with the first process dispatched.
  All that the laws ask of their first state holds there.
  */
module FirstDispatch {
  import opened Collections
  import opened Types
  import opened NucleusState
  import opened NucleusRuns
  import opened UserSemaphores
  import opened DeviceSemaphores
  import opened Endings
  import opened CpuAccounting
  import opened SchedulerVerdicts

  /** The state after the first dispatch, with readings t of the clock. */
  ghost function Booted(cfg: Config, root: Pcb, user: map<Addr, int>, init: CpuState, t: Times): (b: State)
    requires Bootable(cfg, root, user)
    ensures Inv(b)
  {
    BootRunsRoot(cfg, root, user, init, 0, Times(0, t.mid, t.late, t.resume));
    Schedule(Initial(cfg, root, user, init, 0, 0), t).state
  }

  lemma BootedAccounts(cfg: Config, root: Pcb, user: map<Addr, int>, init: CpuState, t: Times)
    requires Bootable(cfg, root, user)
    ensures var b := Booted(cfg, root, user, init, t);
      && ClockOk(b) && NonNegative(b) && Sum(b.cpu.time) == 0 && Mark(b) == b.cpu.clock == t.resume
      && b.ct.user == user && b.pl.waitsOn == map[root := None] && b.pl.live == {root}
      && b.cpu.start == t.resume && b.cfg == cfg
  {
    hide Sum;
    var none: map<Pcb, int> := map[root := 0];
    SumPick(none, root);
    assert none - {root} == map[];
    SumOfNone<Pcb>();
    assert Booted(cfg, root, user, init, t).cpu.time == none;
  }

  lemma SumOfNone<K>()
    ensures Sum<K>(map[]) == 0
  {
  }

  lemma BootedBounded(cfg: Config, root: Pcb, user: map<Addr, int>, init: CpuState, t: Times)
    requires Bootable(cfg, root, user)
    ensures var b := Booted(cfg, root, user, init, t);
      b.pl.waitsOn.Keys == b.pl.live && forall i: nat | i < MAX_DEVICE_COUNT :: Bounded(b, i)
  {
    var b := Booted(cfg, root, user, init, t);
    assert forall a: Addr :: Waiters(b.pl, a) == {};
  }

  /** Everything that the laws below ask of a first state. */
  lemma BootedFacts(cfg: Config, root: Pcb, user: map<Addr, int>, init: CpuState, t: Times)
    requires Bootable(cfg, root, user)
    ensures var b := Booted(cfg, root, user, init, t);
      && Inv(b) && Shape(b) && Alone(b, root) && b.ct.user == user && Excess(b) == 0
      && (forall i: nat | i < MAX_DEVICE_COUNT :: Bounded(b, i))
      && (forall a: Addr :: Waiters(b.pl, a) == {})
      && ClockOk(b) && NonNegative(b) && Sum(b.cpu.time) == 0 && Mark(b) == t.resume
  {
    hide Inv, Shape, Bounded, Sum, Bootable;
    BootRunsRoot(cfg, root, user, init, 0, Times(0, t.mid, t.late, t.resume));
    BootedAccounts(cfg, root, user, init, t);
    BootedBounded(cfg, root, user, init, t);
    assert Booted(cfg, root, user, init, t) == Booted(cfg, root, user, init, Times(0, t.mid, t.late, t.resume));
  }

  // ---------------------------------------------------------------- the laws

  /** User semaphores: the value counts the waiters but for the V operations that still have to find nobody. */
  lemma SemaphoresFromBoot(
    cfg: Config, root: Pcb, user: map<Addr, int>, init: CpuState, t: Times, es: seq<Event>, a: Addr)
    requires Bootable(cfg, root, user) && a in user
    requires Possible(Booted(cfg, root, user, init, t), es)
    ensures var b := Booted(cfg, root, user, init, t);
      var s, c := Exec(b, es), TallyOf(b, es, a);
      && s.pl.waitsOn.Keys == s.pl.live && a in s.ct.user
      && (Counts(s, a) <==> IdleVs(b, es, a) == Positive(-user[a]))
      && Shortfall(s, a) == Positive(-user[a]) - IdleVs(b, es, a) >= 0
      && s.ct.user[a] == user[a] - c.ps + c.vs + c.killed
      && c.ps == c.passed + |Waiters(s.pl, a)| + c.killed
  {
    hide Inv, Shape, Possible, Bounded, Sum, Bootable, Booted, Alone, Counts, IdleVs, TallyOf, Waiters, Exec;
    BootedFacts(cfg, root, user, init, t);
    var b := Booted(cfg, root, user, init, t);
    ShortfallOverRuns(b, es, a);
    CountsExactly(b, es, a);
    OperationsConserved(b, es, a);
  }

  /** Device semaphores and the count of soft-blocked processes. */
  lemma DevicesFromBoot(
    cfg: Config, root: Pcb, user: map<Addr, int>, init: CpuState, t: Times, es: seq<Event>, i: nat)
    requires Bootable(cfg, root, user) && i < MAX_DEVICE_COUNT
    requires Possible(Booted(cfg, root, user, init, t), es)
    ensures var b := Booted(cfg, root, user, init, t);
      && Exec(b, es).pl.waitsOn.Keys == Exec(b, es).pl.live && Bounded(Exec(b, es), i)
      && Excess(Exec(b, es)) == SlipsOf(b, es)
  {
    hide Inv, Shape, Possible, Bounded, Sum, Bootable, Booted, Alone, Waiters, Exec, Excess, SlipsOf;
    BootedFacts(cfg, root, user, init, t);
    var b := Booted(cfg, root, user, init, t);
    BoundedOverRuns(b, es, i);
    SoftCountOverRuns(b, es);
  }

  /** SYS7 always blocks. */
  lemma ClockFromBoot(
    cfg: Config, root: Pcb, user: map<Addr, int>, init: CpuState, t: Times, es: seq<Event>)
    requires Bootable(cfg, root, user) && es != [] && Last(es).act == WaitClock
    requires Possible(Booted(cfg, root, user, init, t), es)
    ensures var b := Booted(cfg, root, user, init, t);
      var s, s1 := Exec(b, Front(es)), Exec(b, es);
      && s.pl.current in s1.pl.waitsOn && s.pl.current != s1.pl.current
      && s1.pl.waitsOn[s.pl.current] == Some(DevAddr(cfg.devBase, CLOCK_INDEX))
  {
    hide Inv, Shape, Bounded, Sum, Bootable, Booted, Alone, Waiters, Excess, SlipsOf;
    BootedFacts(cfg, root, user, init, t);
    var b := Booted(cfg, root, user, init, t);
    WaitClockAlwaysBlocks(b, es);
    BootedAccounts(cfg, root, user, init, t);
    SameConfig(b, Front(es));
  }

  lemma {:induction false} SameConfig(b: State, es: seq<Event>)
    requires Inv(b) && Possible(b, es)
    ensures Exec(b, es).cfg == b.cfg
  {
    hide Inv, Shape, Enabled, Step;
    if es != [] {
      SameConfig(b, Front(es));
      InvShape(Exec(b, Front(es)));
      StepConfig(Exec(b, Front(es)), Last(es));
    }
  }

  lemma StepConfig(s: State, e: Event)
    requires Shape(s) && Rooted(s.fo) && Enabled(s, e)
    ensures Step(s, e).state.cfg == s.cfg
  {
    hide Rooted, Shape, Work, Step, Enabled;
    FinishKeeps(s, e);
    WorkConfig(s, e);
  }

  lemma WorkConfig(s: State, e: Event)
    requires Shape(s) && Rooted(s.fo) && Enabled(s, e)
    ensures Work(s, e).cfg == s.cfg
  {
    hide Rooted, Subtree, Minus;
  }

  /** The verdict on a stalled state. */
  lemma VerdictFromBoot(
    cfg: Config, root: Pcb, user: map<Addr, int>, init: CpuState, t: Times, es: seq<Event>)
    requires Bootable(cfg, root, user) && es != []
    requires Possible(Booted(cfg, root, user, init, t), es)
    requires var b := Booted(cfg, root, user, init, t);
      !Stray(Exec(b, Front(es)), Last(es)) && Stalled(Exec(b, es))
    ensures var b := Booted(cfg, root, user, init, t);
      && Exec(b, es).pl.waitsOn.Keys == Exec(b, es).pl.live
      && (LastResult(b, es).outcome == Panic <==> Deadlocked(Exec(b, es)) && SlipsOf(b, es) == 0)
  {
    hide Inv, Shape, Bounded, Sum, Bootable, Booted, Alone, Waiters, Excess, SlipsOf, Stray, Stalled, Deadlocked;
    BootedFacts(cfg, root, user, init, t);
    PanicExactly(Booted(cfg, root, user, init, t), es);
  }

  /** All processes together hold no more time than has passed since the first dispatch and has been counted again. */
  lemma TimeFromBoot(
    cfg: Config, root: Pcb, user: map<Addr, int>, init: CpuState, t: Times, es: seq<Event>)
    requires Bootable(cfg, root, user)
    requires Possible(Booted(cfg, root, user, init, t), es)
    ensures var b := Booted(cfg, root, user, init, t);
      var s, c := Exec(b, es), TotalsOf(b, es);
      && Sum(s.cpu.time) + c.retired == c.charged && c.retired >= 0
      && Sum(s.cpu.time) <= s.cpu.clock - t.resume + c.recounted
  {
    hide Inv, Shape, Possible, Bounded, Sum, Bootable, Booted, Alone, Waiters, Excess, TotalsOf, Exec;
    BootedFacts(cfg, root, user, init, t);
    var b := Booted(cfg, root, user, init, t);
    TimeOverRuns(b, es);
    RetiredNonNegative(b, es);
  }

  // ---------------------------------------------------------------- charging too much

  /** Ten units after the first dispatch, SYS6 charges twenty. */
  lemma GetTimeOvercharges(cfg: Config, root: Pcb, init: CpuState)
    requires Bootable(cfg, root, map[])
    ensures var b, e := Booted(cfg, root, map[], init, Times(0, 0, 0, 0)), Event(GetTime, init, Times(10, 10, 10, 10));
      && Shape(b) && Rooted(b.fo) && Enabled(b, e)
      && Charged(b, e) == 20 && Mark(Step(b, e).state) - Mark(b) == 10
      && Sum(Step(b, e).state.cpu.time) == 20 && Step(b, e).state.cpu.clock == 10
  {
    hide Inv, Bounded, Sum, Bootable, Booted, Excess, NonNegative, Waiters, Step;
    var t := Times(0, 0, 0, 0);
    var b, e := Booted(cfg, root, map[], init, t), Event(GetTime, init, Times(10, 10, 10, 10));
    BootedFacts(cfg, root, map[], init, t);
    BootedAccounts(cfg, root, map[], init, t);
    InvShape(b);
    StepCharges(b, e);
    GetTimeRuns(b, e);
    StepEnds(b, e);
  }

  /** The current process p creates c with a support structure. */
  lemma AloneCreates(s: State, p: Pcb, c: Pcb, e: Event)
    requires Inv(s) && Shape(s) && Enabled(s, e) && Alone(s, p) && p != c
    requires e.act.Create? && e.act.block == c && e.act.given == Some(0)
    ensures var s1 := Step(s, e).state;
      && s1.pl.current == p && s1.pl.ready == [c] && s1.pl.blocked == map[] && s1.pl.live == {p, c}
      && c in s1.cpu.support && s1.cpu.support[c] == Some(0) && s1.ct.dev == s.ct.dev && s1.cpu.clock == e.t.resume
  {
    hide Located, Queued, CurrentOk, Rooted, Kinship, Words;
  }

  /** Then p waits for the clock, and c runs. */
  lemma ThenWaits(s: State, p: Pcb, c: Pcb, e: Event)
    requires Inv(s) && Shape(s) && Enabled(s, e) && e.act.WaitClock?
    requires s.pl.current == p && s.pl.ready == [c] && c in s.cpu.support && s.cpu.support[c] == Some(0)
    requires s.ct.dev[CLOCK_INDEX] == 0
    ensures var s1 := Step(s, e).state;
      && s1.pl.current == c && c in s1.cpu.support && s1.cpu.support[c] == Some(0)
      && s1.cpu.clock == s1.cpu.start == e.t.resume
  {
    hide Located, Queued, CurrentOk, Rooted, Kinship, Words;
  }

  /**
    A process with a support structure traps ten units after it was dispatched: ten units are charged,
    and all of them are still to be charged when it next stops.
    */
  lemma PassUpOvercharges(cfg: Config, root: Pcb, c: Pcb, init: CpuState)
    requires Bootable(cfg, root, map[]) && c in cfg.pool && c != root
    ensures var t := Times(0, 0, 0, 0);
      var b := Booted(cfg, root, map[], init, t);
      var es := [Event(Create(init, Some(0), c), init, t), Event(WaitClock, init, t)];
      && Possible(b, es)
      && var s, e := Exec(b, es), Event(Fault, init, Times(10, 10, 10, 10));
      && Shape(s) && Rooted(s.fo) && Enabled(s, e) && PassesUp(s, e)
      && Charged(s, e) == 10 && Mark(Step(s, e).state) == Mark(s) == 0
  {
    hide Inv, Shape, Bounded, Sum, Bootable, Booted, Excess, NonNegative, Waiters, Step;
    var t := Times(0, 0, 0, 0);
    var b := Booted(cfg, root, map[], init, t);
    var e1, e2 := Event(Create(init, Some(0), c), init, t), Event(WaitClock, init, t);
    assert [] + [e1] == [e1] && [e1] + [e2] == [e1, e2];
    BootedFacts(cfg, root, map[], init, t);
    BootedAccounts(cfg, root, map[], init, t);
    BootedDevices(cfg, root, init, t);
    AloneCreates(b, root, c, e1);
    RunExtends(b, [], e1);
    var s1 := Exec(b, [e1]);
    InvShape(s1);
    ThenWaits(s1, root, c, e2);
    RunExtends(b, [e1], e2);
    var s := Exec(b, [e1, e2]);
    InvShape(s);
    PassUpKeepsMark(s, Event(Fault, init, Times(10, 10, 10, 10)));
  }

  lemma BootedDevices(cfg: Config, root: Pcb, init: CpuState, t: Times)
    requires Bootable(cfg, root, map[])
    ensures Booted(cfg, root, map[], init, t).ct.dev == seq(MAX_DEVICE_COUNT, _ => 0)
  {
  }

  lemma PassUpKeepsMark(s: State, e: Event)
    requires Shape(s) && Rooted(s.fo) && Enabled(s, e) && PassesUp(s, e)
    ensures Mark(Step(s, e).state) == Mark(s)
  {
    hide Rooted;
  }
}
