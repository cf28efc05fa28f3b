/** From power-on: main(), then any sequence of exceptions, and what holds of the kernel's own variables afterwards. */
module WholeSystem {
  import opened Types
  import opened ActiveSemaphores
  import opened NucleusState
  import opened NucleusInvariants
  import opened NucleusRuns
  import opened NucleusKernel
  import opened NucleusInitial
  import opened UserSemaphores
  import opened DeviceSemaphores
  import opened SchedulerVerdicts
  import opened FirstDispatch
  import opened InterruptHandlers
  import opened Machine
  import opened ConcretePlaces

  /** The processes in the queues of device semaphores. */
  ghost function SoftWaiting(k: Kernel): set<Pcb>
    reads k.asl
  {
    set a, p | a in k.asl.queues && IsDevAddr(k.devBase, a) && p in k.asl.queues[a] :: p
  }

  lemma SoftWaitingIs(k: Kernel)
    requires k.Rep() && Inv(k.st)
    ensures k.st.pl.waitsOn.Keys == k.st.pl.live && SoftWaiting(k) == SoftBlocked(k.st.cfg, k.st.pl)
  {
    hide Rooted, Kinship, Words, Queued, Domains, CurrentOk, Kernel.Rep, IsDevAddr, ReadySound, ReadyComplete;
    k.Known();
    k.PlacesAre();
    forall p | p in SoftBlocked(k.st.cfg, k.st.pl) ensures p in SoftWaiting(k) {
      var a := k.st.pl.waitsOn[p].value;
      assert a in k.asl.queues && p in k.asl.queues[a];
    }
  }

  /** The device bound and the soft-block count, in the kernel's variables. */
  ghost predicate DeviceLaws(k: Kernel, slips: nat)
    reads k, k.asl, k.semaphoreDevices
  {
    && k.semaphoreDevices.Length == MAX_DEVICE_COUNT
    && (forall i: nat | i < MAX_DEVICE_COUNT ::
          |QueueOf(k.asl.queues, DevAddr(k.devBase, i))| <= Positive(-k.semaphoreDevices[i]))
    && k.semaphoreDevices[CLOCK_INDEX] <= 0
    && k.softBlockedCount == |SoftWaiting(k)| + slips
  }

  lemma QueueSize(k: Kernel, a: Addr)
    requires k.Rep() && Inv(k.st)
    ensures k.st.pl.waitsOn.Keys == k.st.pl.live && |QueueOf(k.asl.queues, a)| == |Waiters(k.st.pl, a)|
  {
    hide Located, Rooted, Kinship, Words, Queued, Domains, CurrentOk, Kernel.Rep, QueueOf, Waiters;
    InvDomain(k.st);
    k.PlacesAre();
    SomebodyWaits(k.st.pl, a);
  }

  lemma DeviceLawsHold(k: Kernel, slips: nat)
    requires k.Rep() && Inv(k.st) && k.st.pl.waitsOn.Keys == k.st.pl.live
    requires (forall i: nat | i < MAX_DEVICE_COUNT :: Bounded(k.st, i)) && Excess(k.st) == slips
    ensures DeviceLaws(k, slips)
  {
    hide Inv, Kernel.Rep, QueueOf, Waiters, SoftWaiting, SoftBlocked;
    k.Known();
    SoftWaitingIs(k);
    assert Bounded(k.st, CLOCK_INDEX);
    assert |k.semaphoreDevices[..]| == MAX_DEVICE_COUNT by { DevicesCounted(k.st); }
    forall i: nat | i < MAX_DEVICE_COUNT
      ensures |QueueOf(k.asl.queues, DevAddr(k.devBase, i))| <= Positive(-k.semaphoreDevices[i])
    {
      assert Bounded(k.st, i);
      QueueSize(k, DevAddr(k.devBase, i));
    }
  }

  lemma DevicesCounted(s: State)
    requires Inv(s)
    ensures |s.ct.dev| == MAX_DEVICE_COUNT
  {
    hide Inv;
    InvShape(s);
  }

  /** A user semaphore, and how many V operations on it have found it negative with nobody waiting. */
  ghost predicate WordLaw(k: Kernel, a: Addr, first: int, idle: nat)
    reads k, k.asl
  {
    && a in k.memory
    && Positive(-k.memory[a]) - |QueueOf(k.asl.queues, a)| == Positive(-first) - idle >= 0
  }

  lemma WordLawHolds(k: Kernel, a: Addr, first: int, idle: nat)
    requires k.Rep() && Inv(k.st) && a in k.st.ct.user && k.st.pl.waitsOn.Keys == k.st.pl.live
    requires Shortfall(k.st, a) == Positive(-first) - idle >= 0
    ensures WordLaw(k, a, first, idle)
  {
    hide Inv, Kernel.Rep, QueueOf, Waiters;
    k.Known();
    QueueSize(k, a);
  }

  /** What a run es from the first dispatch b leaves in the variables. */
  ghost predicate Laws(k: Kernel, b: State, es: seq<Event>, words: map<Addr, int>)
    requires Inv(b) && Possible(b, es)
    reads k, k.asl, k.pcbs, k.semaphoreDevices
  {
    && DeviceLaws(k, SlipsOf(b, es))
    && (forall a | a in words :: WordLaw(k, a, words[a], IdleVs(b, es, a)))
    && k.processCount == |k.cfg.pool| - |k.pcbs.free|
  }

  lemma LawsHold(k: Kernel, root: Pcb, words: map<Addr, int>, init: CpuState, t: Times, es: seq<Event>)
    requires Bootable(k.cfg, root, words) && Possible(Booted(k.cfg, root, words, init, t), es)
    requires k.Rep() && Inv(k.st) && k.st == Exec(Booted(k.cfg, root, words, init, t), es)
    ensures Laws(k, Booted(k.cfg, root, words, init, t), es, words)
  {
    hide Inv, Kernel.Rep, Bootable, Possible, Exec, Booted, Bounded, Excess, SlipsOf, IdleVs, Shortfall, DeviceLaws, WordLaw, Counts;
    var b := Booted(k.cfg, root, words, init, t);
    InvDomain(k.st);
    forall i: nat | i < MAX_DEVICE_COUNT ensures Bounded(k.st, i) {
      DevicesFromBoot(k.cfg, root, words, init, t, es, i);
    }
    DevicesFromBoot(k.cfg, root, words, init, t, es, CLOCK_INDEX);
    DeviceLawsHold(k, SlipsOf(b, es));
    forall a | a in words ensures WordLaw(k, a, words[a], IdleVs(b, es, a)) {
      SemaphoresFromBoot(k.cfg, root, words, init, t, es, a);
      WordLawHolds(k, a, words[a], IdleVs(b, es, a));
    }
    FreeCount(k);
  }

  /**
    Power-on, and then the exceptions envs as they can occur. What the kernel's variables say at the end
    obeys the laws; es are the exceptions that did occur, and last is how the last of them, or power-on, ended.
    */
  method PowerOn(
    maxProc: nat, base: Addr, words: map<Addr, int>, entry: int, ramTop: int, t: Times, envs: seq<Environment>)
    returns (k: Kernel, last: Option<Outcome>, ghost root: Pcb?, ghost es: seq<Event>)
    requires base > MAXINT && forall a | a in words :: !IsDummy(a) && !IsDevAddr(base, a)
    requires Chronological(t.resume, envs) && forall env | env in envs :: Lawful(words.Keys, env)
    ensures k.Rep() && |k.cfg.pool| == maxProc && k.devBase == base
    ensures maxProc == 0 ==> root == null && es == [] && last == Some(Panic)
    ensures maxProc > 0 ==> root != null && Bootable(k.cfg, root, words)
    ensures maxProc > 0 ==> var b := Booted(k.cfg, root, words, FirstState(ZERO_STATE, entry, ramTop), t);
      && Possible(b, es) && Happens(b, envs, es) && k.st == Exec(b, es) && Laws(k, b, es, words)
      && last == Some(if es == [] then Run(root, FirstState(ZERO_STATE, entry, ramTop)) else LastResult(b, es).outcome)
  {
    hide Inv, Kernel.Rep, Possible, Exec, Booted, Laws, Lawful, Chronological, Bootable, Schedule, Happens, LastResult, FirstLoaded, FirstRuns;
    var o;
    k, o := Boot(maxProc, base, words, entry, ramTop, t);
    k.Known();
    root, es, last := null, [], Some(o);
    if maxProc > 0 {
      ghost var init := FirstState(ZERO_STATE, entry, ramTop);
      root :| root in k.cfg.pool && Bootable(k.cfg, root, words)
        && Result(k.st, o) == Schedule(Initial(k.cfg, root, words, init, 0, 0), t);
      BootedIs(k.cfg, root, words, init, t);
      FirstIsDispatched(k.cfg, root, words, init, t);
      last, es := Machine.Run(k, envs);
      LawsHold(k, root, words, init, t, es);
      if last == None {
        last := Some(o);
      }
    }
  }

  lemma BootedIs(cfg: Config, root: Pcb, words: map<Addr, int>, init: CpuState, t: Times)
    requires Bootable(cfg, root, words)
    ensures var b := Booted(cfg, root, words, init, t);
      && b == Schedule(Initial(cfg, root, words, init, 0, 0), t).state
      && b.cpu.clock == t.resume && b.ct.user == words
  {
    hide Bootable;
  }
}
