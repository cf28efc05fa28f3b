/** The start of the nucleus, and what it means that the scheduler halts, waits or panics. */
module SchedulerVerdicts {
  import opened Types
  import opened ActiveSemaphores
  import opened NucleusState
  import opened NucleusInvariants
  import opened NucleusRuns
  import opened DeviceSemaphores
  import opened Endings

  // ---------------------------------------------------------------- the start

  /** What main() has set up when it calls the scheduler: one ready process, root, and zeroed device semaphores. */
  ghost function Initial(cfg: Config, root: Pcb, user: map<Addr, int>, init: CpuState, start: int, now: int): State {
    State(
      cfg,
      Places({root}, [root], map[], map[root := None], null),
      Forest(map[root := null], map[root := []], map[root := 0], 1),
      Counters(user, seq(MAX_DEVICE_COUNT, _ => 0), 1, 0),
      Cpu(map[root := init], map[root := 0], map[root := None], start, now, 0))
  }

  ghost predicate Bootable(cfg: Config, root: Pcb, user: map<Addr, int>) {
    && root in cfg.pool && cfg.devBase > MAXINT
    && forall a | a in user :: !IsDummy(a) && !IsDevAddr(cfg.devBase, a)
  }

  lemma InitialInv(cfg: Config, root: Pcb, user: map<Addr, int>, init: CpuState, start: int, now: int)
    requires Bootable(cfg, root, user)
    ensures Inv(Initial(cfg, root, user, init, start, now))
    ensures forall i: nat | i < MAX_DEVICE_COUNT :: Bounded(Initial(cfg, root, user, init, start, now), i)
    ensures Excess(Initial(cfg, root, user, init, start, now)) == 0
  {
    var s := Initial(cfg, root, user, init, start, now);
    assert SoftBlocked(cfg, s.pl) == {};
    assert forall a: Addr :: Waiters(s.pl, a) == {};
  }

  // ---------------------------------------------------------------- endings

  /** The decision of the scheduler when nobody is ready. */
  ghost function Verdict(s: State): Outcome {
    if s.ct.procs == 0 then Halt else if s.ct.soft > 0 then Wait else Panic
  }

  /** What each ending says about the state it leaves. */
  lemma OutcomeMeaning(s: State, e: Event)
    requires Inv(s) && Shape(s) && Enabled(s, e)
    ensures var r := Step(s, e);
      match r.outcome
      case Run(p, loaded) => r.state.pl.current == p && p in r.state.cpu.regs && loaded == r.state.cpu.regs[p]
      case PassUp(p) => r.state.pl.current == p == s.pl.current
      case _ =>
        (r.state.pl.current == null &&
         if Stray(s, e) then r.outcome == Panic else r.state.pl.ready == [] && r.outcome == Verdict(r.state))
  {
    hide Located, Queued, CurrentOk, Kinship, Words, Step, Work, Domains;
    StepEnds(s, e);
    if PassesUp(s, e) {
      assert Work(s, e).pl.current == s.pl.current by { PassUpKeeps(s, e); }
    } else if Stray(s, e) {
      assert Work(s, e) == s by { StrayKeeps(s, e); }
    }
  }

  lemma PassUpKeeps(s: State, e: Event)
    requires Shape(s) && Rooted(s.fo) && Enabled(s, e) && PassesUp(s, e)
    ensures Work(s, e).pl == s.pl
  {
  }

  lemma StrayKeeps(s: State, e: Event)
    requires Shape(s) && Rooted(s.fo) && Enabled(s, e) && Stray(s, e)
    ensures Work(s, e) == s
  {
  }

  /** Nobody runs and nobody is ready. */
  ghost predicate Stalled(s: State) {
    s.pl.current == null && s.pl.ready == []
  }

  /** Every live process waits for a semaphore of the user programs. */
  ghost predicate Deadlocked(s: State)
    requires s.pl.waitsOn.Keys == s.pl.live
  {
    s.pl.live != {} && forall p | p in s.pl.live :: s.pl.waitsOn[p] != None && s.pl.waitsOn[p].value in s.ct.user
  }

  /** In a stalled state, deadlock means that there are processes but none of them waits for a device. */
  lemma StalledDeadlock(s: State)
    requires Inv(s) && Stalled(s)
    ensures s.pl.waitsOn.Keys == s.pl.live
    ensures Deadlocked(s) <==> s.ct.procs > 0 && SoftBlocked(s.cfg, s.pl) == {}
  {
    hide Rooted, Kinship, Domains, Queued, ReadySound;
    if s.pl.live != {} && SoftBlocked(s.cfg, s.pl) == {} {
      forall p | p in s.pl.live ensures s.pl.waitsOn[p] != None && s.pl.waitsOn[p].value in s.ct.user {
        assert p !in SoftBlocked(s.cfg, s.pl);
      }
    }
    if Deadlocked(s) {
      forall p | p in s.pl.live ensures p !in SoftBlocked(s.cfg, s.pl) {
        assert s.pl.waitsOn[p].value in s.ct.user;
      }
    }
  }

  /** HALT only when every PCB is free again. */
  lemma HaltMeansAllFree(b: State, es: seq<Event>)
    requires Inv(b) && Possible(b, es) && es != [] && LastResult(b, es).outcome == Halt
    ensures Exec(b, es).pl.live == {}
  {
    hide Located, Queued, CurrentOk, Rooted, Kinship, Words, Step, Domains;
    var s := Exec(b, Front(es));
    InvShape(s);
    OutcomeMeaning(s, Last(es));
  }

  /**
    The verdict on a stalled state, in every run that starts with an exact count:
    PANIC if and only if all processes are deadlocked on user semaphores and no SYS5 has slipped through.
    That the deadlock would last is DeadlockPersists.
    */
  lemma PanicExactly(b: State, es: seq<Event>)
    requires Inv(b) && Shape(b) && Possible(b, es) && es != [] && Excess(b) == 0
    requires !Stray(Exec(b, Front(es)), Last(es)) && Stalled(Exec(b, es))
    ensures Exec(b, es).pl.waitsOn.Keys == Exec(b, es).pl.live
    ensures LastResult(b, es).outcome == Panic <==> Deadlocked(Exec(b, es)) && SlipsOf(b, es) == 0
    ensures LastResult(b, es).outcome == Wait <==>
      Exec(b, es).pl.live != {} && !(Deadlocked(Exec(b, es)) && SlipsOf(b, es) == 0)
  {
    hide Located, Queued, CurrentOk, Rooted, Kinship, Words, Step, Domains, Deadlocked, SlipsOf, SoftBlocked;
    var s := Exec(b, Front(es));
    InvShape(s);
    OutcomeMeaning(s, Last(es));
    StalledRuns(s, Last(es));
    SoftCountOverRuns(b, es);
    StalledDeadlock(Exec(b, es));
  }

  /** A stalled state is not left to a process. */
  lemma StalledRuns(s: State, e: Event)
    requires Inv(s) && Shape(s) && Enabled(s, e) && Stalled(Step(s, e).state)
    ensures !Step(s, e).outcome.Run? && !Step(s, e).outcome.PassUp?
  {
    hide Located, Queued, Rooted, Kinship, Words, Step, Domains;
    OutcomeMeaning(s, e);
  }

  /** PANIC in the scheduler only when every live process is blocked on a semaphore that is not a device's. */
  lemma PanicMeansDeadlock(b: State, es: seq<Event>)
    requires Inv(b) && Shape(b) && Possible(b, es) && es != [] && Excess(b) == 0
    requires !Stray(Exec(b, Front(es)), Last(es)) && LastResult(b, es).outcome == Panic
    ensures Exec(b, es).pl.waitsOn.Keys == Exec(b, es).pl.live && Deadlocked(Exec(b, es))
  {
    hide Located, Queued, CurrentOk, Rooted, Kinship, Words, Step, Domains, Deadlocked, SlipsOf, Shape;
    var s := Exec(b, Front(es));
    InvShape(s);
    OutcomeMeaning(s, Last(es));
    PanicExactly(b, es);
  }

  // ---------------------------------------------------------------- a deadlock is for ever

  lemma NoDeviceWaits(s: State, i: nat)
    requires Inv(s) && i < MAX_DEVICE_COUNT && s.pl.waitsOn.Keys == s.pl.live && Deadlocked(s)
    ensures DevAddr(s.cfg.devBase, i) !in s.pl.blocked
  {
    hide Rooted, Kinship, Domains, Queued, CurrentOk;
    var a := DevAddr(s.cfg.devBase, i);
    assert a !in s.ct.user by { NotAUserWord(s, i); }
    if a in s.pl.blocked {
      SomebodyWaits(s.pl, a);
    }
  }

  lemma NotAUserWord(s: State, i: nat)
    requires Words(s) && i < MAX_DEVICE_COUNT
    ensures DevAddr(s.cfg.devBase, i) !in s.ct.user
  {
  }

  lemma NobodyWoken(pl: Places, a: Addr)
    requires a !in pl.blocked
    ensures WakeAll(pl, a) == pl
  {
    assert WakeAll(pl, a).waitsOn == pl.waitsOn;
    assert pl.blocked - {a} == pl.blocked;
  }

  /** Interrupts find nobody to wake. */
  lemma DeadlockWork(s: State, e: Event)
    requires Shape(s) && Rooted(s.fo) && Enabled(s, e) && Stalled(s)
    requires forall i: nat | i < MAX_DEVICE_COUNT :: DevAddr(s.cfg.devBase, i) !in s.pl.blocked
    ensures var m := Work(s, e); m.pl == s.pl && m.ct.user == s.ct.user && m.ct.procs == s.ct.procs
    ensures !PassesUp(s, e)
  {
    hide Rooted, Domains, WakeAll;
    NobodyWoken(s.pl, DevAddr(s.cfg.devBase, CLOCK_INDEX));
  }

  lemma DeadlockStep(s: State, e: Event)
    requires Inv(s) && Shape(s) && Enabled(s, e) && Stalled(s) && Deadlocked(s)
    ensures var r := Step(s, e);
      r.state.pl == s.pl && r.state.ct.user == s.ct.user && (r.outcome == Wait || r.outcome == Panic)
  {
    hide Located, Queued, CurrentOk, Rooted, Kinship, Words, Work, Step, Domains, Enabled;
    forall i: nat | i < MAX_DEVICE_COUNT ensures DevAddr(s.cfg.devBase, i) !in s.pl.blocked {
      NoDeviceWaits(s, i);
    }
    DeadlockWork(s, e);
    StepEnds(s, e);
  }

  /** Once every process waits for a user semaphore, no run ever moves any of them again. */
  lemma {:induction false} DeadlockPersists(b: State, es: seq<Event>)
    requires Inv(b) && Shape(b) && Possible(b, es) && Stalled(b) && Deadlocked(b)
    ensures Exec(b, es).pl == b.pl && Exec(b, es).ct.user == b.ct.user
    ensures es != [] ==> LastResult(b, es).outcome == Wait || LastResult(b, es).outcome == Panic
  {
    hide Inv, Shape, Enabled, Step;
    if es != [] {
      var s := Exec(b, Front(es));
      DeadlockPersists(b, Front(es));
      InvShape(s);
      DeadlockStep(s, Last(es));
    }
  }

  // ---------------------------------------------------------------- a deadlock that is not detected

  /** Only p exists, and it is running. */
  ghost predicate Alone(s: State, p: Pcb) {
    && s.pl.live == {p} && s.pl.current == p && s.pl.ready == [] && s.pl.blocked == map[]
    && s.pl.waitsOn == map[p := None] && s.ct.procs == 1
  }

  /** An interrupt of a device nobody waits for raises its semaphore. */
  lemma AloneDevice(s: State, p: Pcb, e: Event, i: nat)
    requires Inv(s) && Shape(s) && Enabled(s, e) && Alone(s, p) && e.act.Device? && e.act.index == i
    ensures var s1 := Step(s, e).state;
      Alone(s1, p) && s1.ct == s.ct.(dev := s.ct.dev[i := s.ct.dev[i] + 1]) && s1.cpu.clock == e.t.resume
  {
    hide Located, Queued, CurrentOk, Rooted, Kinship, Words;
  }

  /** A SYS5 on a raised semaphore does not block, but is counted. */
  lemma AloneSlip(s: State, p: Pcb, e: Event)
    requires Inv(s) && Shape(s) && Enabled(s, e) && Alone(s, p) && e.act.WaitIO? && Slips(s, e)
    ensures var s1 := Step(s, e).state;
      Alone(s1, p) && s1.ct.soft == s.ct.soft + 1 && s1.ct.user == s.ct.user && s1.cpu.clock == e.t.resume
  {
    hide Located, Queued, CurrentOk, Rooted, Kinship, Words;
  }

  /** A P on a zero semaphore then leaves nobody to run, but the verdict is to wait. */
  lemma AloneStuck(s: State, p: Pcb, e: Event, a: Addr)
    requires Inv(s) && Shape(s) && Enabled(s, e) && Alone(s, p)
    requires e.act == Passeren(a) && s.ct.user[a] == 0 && s.ct.soft > 0
    ensures var r := Step(s, e);
      r.outcome == Wait && Stalled(r.state) && r.state.pl.live == {p} && r.state.pl.waitsOn == map[p := Some(a)]
      && r.state.ct.user.Keys == s.ct.user.Keys
  {
    hide Located, Queued, CurrentOk, Rooted, Kinship, Words;
  }

  /**
    The source expects each SYS5 to block. Where one does not, a deadlock can go undetected: an interrupt
    of an idle device, a SYS5 on that device and a P on a zero semaphore make the scheduler wait
    although its only process is blocked, and stays blocked whatever happens then.
    */
  lemma UndetectedDeadlock(b: State, p: Pcb, a: Addr, saved: CpuState)
    requires Inv(b) && Shape(b) && Alone(b, p) && b.ct.dev == seq(MAX_DEVICE_COUNT, _ => 0) && b.ct.soft == 0
    requires a in b.ct.user && b.ct.user[a] == 0
    ensures var c := b.cpu.clock;
      var t := Times(c, c, c, c);
      var es := [Event(Device(0, 0), saved, t), Event(WaitIO(BASE_LINE, 0, 1), saved, t), Event(Passeren(a), saved, t)];
      && Possible(b, es) && LastResult(b, es).outcome == Wait
      && Exec(b, es).pl.waitsOn.Keys == Exec(b, es).pl.live && Deadlocked(Exec(b, es))
      && forall more | Possible(Exec(b, es), more) :: Exec(Exec(b, es), more).pl == Exec(b, es).pl
  {
    hide Located, Queued, CurrentOk, Rooted, Kinship, Words, Domains, Shape, Step, Slips;
    var c := b.cpu.clock;
    var t := Times(c, c, c, c);
    var e1, e2, e3 := Event(Device(0, 0), saved, t), Event(WaitIO(BASE_LINE, 0, 1), saved, t), Event(Passeren(a), saved, t);
    assert [] + [e1] == [e1] && [e1] + [e2] == [e1, e2] && [e1, e2] + [e3] == [e1, e2, e3];
    AloneDevice(b, p, e1, 0);
    RunExtends(b, [], e1);
    var s1 := Exec(b, [e1]);
    InvShape(s1);
    assert Slips(s1, e2) by { SlipHere(s1, e2); }
    AloneSlip(s1, p, e2);
    RunExtends(b, [e1], e2);
    var s2 := Exec(b, [e1, e2]);
    InvShape(s2);
    AloneStuck(s2, p, e3, a);
    RunExtends(b, [e1, e2], e3);
    ForEverAfter(Exec(b, [e1, e2, e3]));
  }

  lemma ForEverAfter(s: State)
    requires Inv(s) && Stalled(s) && s.pl.waitsOn.Keys == s.pl.live && Deadlocked(s)
    ensures forall more | Possible(s, more) :: Exec(s, more).pl == s.pl
  {
    hide Inv, Exec, Stalled, Deadlocked;
    InvShape(s);
    forall more | Possible(s, more) ensures Exec(s, more).pl == s.pl {
      DeadlockPersists(s, more);
    }
  }

  lemma SlipHere(s: State, e: Event)
    requires Shape(s) && Enabled(s, e) && e.act.WaitIO? && s.ct.dev[SemIndex(e.act.line, e.act.dev, e.act.read)] > 0
    ensures Slips(s, e)
  {
  }

  /** One more exception. */
  lemma RunExtends(b: State, es: seq<Event>, e: Event)
    requires Inv(b) && Possible(b, es) && Enabled(Exec(b, es), e)
    ensures Possible(b, es + [e]) && Shape(Exec(b, es)) && Rooted(Exec(b, es).fo)
    ensures Exec(b, es + [e]) == Step(Exec(b, es), e).state && LastResult(b, es + [e]) == Step(Exec(b, es), e)
  {
    hide Inv, Step, Enabled;
    assert Front(es + [e]) == es && Last(es + [e]) == e;
    StepInv(Exec(b, es), e);
  }

  /** The first dispatch runs root alone; counts and device semaphores are exact. */
  lemma BootRunsRoot(cfg: Config, root: Pcb, user: map<Addr, int>, init: CpuState, start: int, t: Times)
    requires Bootable(cfg, root, user)
    ensures var s := Initial(cfg, root, user, init, start, t.arrive);
      var r := Schedule(s, t);
      && r.outcome == Run(root, init) && Inv(r.state) && Shape(r.state) && Alone(r.state, root)
      && Excess(r.state) == 0 && r.state.ct == s.ct
  {
    hide Located, Queued, CurrentOk, Rooted, Kinship, Words;
    var s := Initial(cfg, root, user, init, start, t.arrive);
    InitialInv(cfg, root, user, init, start, t.arrive);
    InvShape(s);
    ScheduleInv(s, t);
    InvShape(Schedule(s, t).state);
    ScheduleDevs(s, t);
    SameExcess(s, Schedule(s, t).state);
  }

  /** The undetected deadlock is reached from the start: three exceptions after the first dispatch. */
  lemma UndetectedDeadlockFromBoot(cfg: Config, root: Pcb, init: CpuState, a: Addr)
    requires Bootable(cfg, root, map[a := 0])
    ensures var t := Times(0, 0, 0, 0);
      var b := Schedule(Initial(cfg, root, map[a := 0], init, 0, 0), t).state;
      var es := [Event(Device(0, 0), init, t), Event(WaitIO(BASE_LINE, 0, 1), init, t), Event(Passeren(a), init, t)];
      && Inv(b) && Possible(b, es) && LastResult(b, es).outcome == Wait
      && Exec(b, es).pl.waitsOn.Keys == Exec(b, es).pl.live && Deadlocked(Exec(b, es))
      && forall more | Possible(Exec(b, es), more) :: Exec(Exec(b, es), more).pl == Exec(b, es).pl
  {
    hide Inv, Shape, Possible, LastResult, Exec, Deadlocked;
    var t := Times(0, 0, 0, 0);
    BootRunsRoot(cfg, root, map[a := 0], init, 0, t);
    UndetectedDeadlock(Schedule(Initial(cfg, root, map[a := 0], init, 0, 0), t).state, root, a, init);
  }
}
