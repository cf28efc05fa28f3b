/**
  The nucleus as an abstract state machine: what its global variables and pointer
  structures stand for, and what one exception does to them.
  */
module NucleusState {
  import opened Collections
  import opened Types
  import opened ActiveSemaphores

  const MAX_DEVICE_COUNT := 49
  const CLOCK_INDEX := MAX_DEVICE_COUNT - 1
  const DEV_PER_INT := 8
  const BASE_LINE := 3
  const LINE7 := 7
  const SUCCESS := 0
  const ERROR := -1
  // (int) NULL, where NULL is the address 0xFFFFFFFF
  const NULL_WORD := -1

  /** The static PCB table, and the address of semaphoreDevices[0]. */
  datatype Config = Config(pool: set<Pcb>, devBase: Addr)

  function DevAddr(base: Addr, i: nat): Addr {
    base + WORD_LEN * i
  }

  /** The range test by which the nucleus recognises a device semaphore. */
  predicate IsDevAddr(base: Addr, a: Addr) {
    DevAddr(base, 0) <= a <= DevAddr(base, CLOCK_INDEX)
  }

  /** Index in semaphoreDevices for a device, as computed by SYS5. */
  function SemIndex(line: int, dev: int, read: int): (index: int)
    ensures LegalDevice(line, dev) ==> 0 <= index < CLOCK_INDEX
  {
    var index := (line - BASE_LINE) * DEV_PER_INT + dev;
    if line == LINE7 && read != 1 then index + DEV_PER_INT else index
  }

  predicate LegalDevice(line: int, dev: int) {
    BASE_LINE <= line <= LINE7 && 0 <= dev < DEV_PER_INT
  }

  /** Where the processes are. The PCBs of the table that are not live are on the free list. */
  datatype Places = Places(
    live: set<Pcb>,
    ready: seq<Pcb>,
    blocked: map<Addr, seq<Pcb>>,
    waitsOn: map<Pcb, Option<Addr>>,
    current: Pcb?)

  /** The process tree. A child is younger than its parent; births are counted by stamp. */
  datatype Forest = Forest(
    parent: map<Pcb, Pcb?>,
    kids: map<Pcb, seq<Pcb>>,
    birth: map<Pcb, nat>,
    stamp: nat)

  /** Semaphore values (user words by address, device semaphores by index) and the two counters. */
  datatype Counters = Counters(user: map<Addr, int>, dev: seq<int>, procs: int, soft: int)

  /**
    Processor states and times. clock is the last reading of the time of day,
    ledger the sum of everything ever charged to a process.
    */
  datatype Cpu = Cpu(
    regs: map<Pcb, CpuState>,
    time: map<Pcb, int>,
    support: map<Pcb, Option<int>>,
    start: int,
    clock: int,
    ledger: int)

  datatype State = State(cfg: Config, pl: Places, fo: Forest, ct: Counters, cpu: Cpu)

  /** How a handler ends; none of the primitives it ends with returns to it. */
  datatype Outcome =
    | Run(p: Pcb, loaded: CpuState)
    | PassUp(p: Pcb)
    | Wait
    | Halt
    | Panic

  datatype Result = Result(state: State, outcome: Outcome)

  /** Readings of the clock during one exception, in the order in which they are taken. */
  datatype Times = Times(arrive: int, mid: int, late: int, resume: int)

  ghost predicate Monotone(clock: int, t: Times) {
    clock <= t.arrive <= t.mid <= t.late <= t.resume
  }

  /** What an exception asks for. block is the PCB at the head of the free list, null if there is none. */
  datatype Action =
    | Create(init: CpuState, given: Option<int>, block: Pcb?)
    | Terminate
    | Passeren(a: Addr)
    | Verhogen(a: Addr)
    | WaitIO(line: int, dev: int, read: int)
    | GetTime
    | WaitClock
    | GetSupport
    | Fault
    | Slice
    | Tick
    | Device(index: nat, status: int)

  /** saved is the processor state at the exception, already advanced for a SYSCALL. */
  datatype Event = Event(act: Action, saved: CpuState, t: Times)

  // ---------------------------------------------------------------- invariants

  /** Only processes that wait for nothing are in the ready queue, the running one is not. */
  ghost predicate ReadySound(pl: Places)
    requires pl.waitsOn.Keys == pl.live
  {
    forall p | p in pl.ready :: p in pl.live && pl.waitsOn[p] == None && p != pl.current
  }

  /** Only processes that wait for a are in the queue of a. */
  ghost predicate BlockedSound(pl: Places)
    requires pl.waitsOn.Keys == pl.live
  {
    forall a, p | a in pl.blocked && p in pl.blocked[a] :: p in pl.live && pl.waitsOn[p] == Some(a)
  }

  ghost predicate ReadyComplete(pl: Places)
    requires pl.waitsOn.Keys == pl.live
  {
    forall p | p in pl.live && pl.waitsOn[p] == None && p != pl.current :: p in pl.ready
  }

  ghost predicate BlockedComplete(pl: Places)
    requires pl.waitsOn.Keys == pl.live
  {
    forall p | p in pl.live && pl.waitsOn[p] != None ::
      pl.waitsOn[p].value in pl.blocked && p in pl.blocked[pl.waitsOn[p].value]
  }

  /** Each live process is running, ready, or in the queue of the one semaphore it waits for. */
  ghost predicate Located(pl: Places) {
    && pl.waitsOn.Keys == pl.live
    && ReadySound(pl) && BlockedSound(pl) && ReadyComplete(pl) && BlockedComplete(pl)
  }

  ghost predicate Queued(pl: Places) {
    && Distinct(pl.ready)
    && (forall a | a in pl.blocked :: pl.blocked[a] != [] && Distinct(pl.blocked[a]))
  }

  ghost predicate CurrentOk(pl: Places) {
    pl.current != null ==> pl.current in pl.live && pl.waitsOn.Keys == pl.live && pl.waitsOn[pl.current] == None
  }

  ghost predicate ForestDomain(fo: Forest) {
    fo.kids.Keys == fo.parent.Keys && fo.birth.Keys == fo.parent.Keys
  }

  /** Parents are live and older. */
  ghost predicate Rooted(fo: Forest) {
    && ForestDomain(fo)
    && (forall p {:trigger fo.birth[p]} | p in fo.parent :: fo.birth[p] < fo.stamp)
    && (forall p {:trigger fo.parent[p]} | p in fo.parent && fo.parent[p] != null ::
      fo.parent[p] in fo.parent && fo.birth[fo.parent[p]] < fo.birth[p])
  }

  ghost predicate KidsDistinct(fo: Forest) {
    forall p | p in fo.kids :: Distinct(fo.kids[p])
  }

  ghost predicate KidsSound(fo: Forest) {
    forall p, c | p in fo.kids && c in fo.kids[p] :: c in fo.parent && fo.parent[c] == p
  }

  ghost predicate KidsComplete(fo: Forest) {
    forall c {:trigger fo.parent[c]} | c in fo.parent && fo.parent[c] != null :: fo.parent[c] in fo.kids && c in fo.kids[fo.parent[c]]
  }

  /** Child lists and parent links say the same. */
  ghost predicate Kinship(fo: Forest) {
    ForestDomain(fo) && KidsDistinct(fo) && KidsSound(fo) && KidsComplete(fo)
  }

  ghost predicate Domains(s: State) {
    && s.pl.live <= s.cfg.pool
    && s.fo.parent.Keys == s.pl.live && s.fo.kids.Keys == s.pl.live && s.fo.birth.Keys == s.pl.live
    && s.cpu.regs.Keys == s.pl.live && s.cpu.time.Keys == s.pl.live && s.cpu.support.Keys == s.pl.live
  }

  /** a is the address of an element of semaphoreDevices. */
  predicate IsDevIndexAddr(base: Addr, a: Addr) {
    IsDevAddr(base, a) && (a - base) % WORD_LEN == 0
  }

  /** Semaphore words of user programs are neither device semaphores nor keys of dummies. */
  ghost predicate Words(s: State) {
    && s.cfg.devBase > MAXINT
    && |s.ct.dev| == MAX_DEVICE_COUNT
    && (forall a | a in s.ct.user :: !IsDummy(a) && !IsDevAddr(s.cfg.devBase, a))
    && (forall a | a in s.pl.blocked :: a in s.ct.user || IsDevIndexAddr(s.cfg.devBase, a))
  }

  /** The invariant of the nucleus between exceptions. */
  ghost predicate Inv(s: State) {
    && Located(s.pl) && Queued(s.pl) && CurrentOk(s.pl)
    && Rooted(s.fo) && Kinship(s.fo)
    && Domains(s) && Words(s)
    && s.ct.procs == |s.pl.live|
  }

  /** The part of the invariant that the steps below need to be well defined. */
  ghost predicate Shape(s: State) {
    && Domains(s)
    && s.pl.waitsOn.Keys == s.pl.live
    && (s.pl.current != null ==> s.pl.current in s.pl.live)
    && (forall p | p in s.pl.ready :: p in s.pl.live)
    && (forall a | a in s.pl.blocked :: s.pl.blocked[a] != [] && s.pl.blocked[a][0] in s.pl.live)
    && |s.ct.dev| == MAX_DEVICE_COUNT
  }

  lemma InvShape(s: State)
    requires Inv(s)
    ensures Shape(s) && Rooted(s.fo)
  {
    hide Rooted, Kinship, Words, Distinct;
    assert |s.ct.dev| == MAX_DEVICE_COUNT by { WordsSize(s); }
    forall a | a in s.pl.blocked ensures s.pl.blocked[a] != [] && s.pl.blocked[a][0] in s.pl.live {
      assert s.pl.blocked[a][0] in s.pl.blocked[a];
    }
  }

  lemma WordsSize(s: State)
    requires Words(s)
    ensures |s.ct.dev| == MAX_DEVICE_COUNT
  {
  }

  // ---------------------------------------------------------------- building blocks

  ghost function Charge(s: State, p: Pcb, dt: int): State
    requires p in s.cpu.time
  {
    s.(cpu := s.cpu.(time := s.cpu.time[p := s.cpu.time[p] + dt], ledger := s.cpu.ledger + dt))
  }

  ghost function Save(s: State, p: Pcb, cs: CpuState): State {
    s.(cpu := s.cpu.(regs := s.cpu.regs[p := cs]))
  }

  ghost function Enqueue(pl: Places, p: Pcb): Places {
    pl.(ready := pl.ready + [p])
  }

  /** The current process joins the queue of a. */
  ghost function Block(pl: Places, a: Addr): Places
    requires pl.current != null
  {
    pl.(blocked := WithQueue(pl.blocked, a, QueueOf(pl.blocked, a) + [pl.current]),
        waitsOn := pl.waitsOn[pl.current := Some(a)],
        current := null)
  }

  /** The first waiter of a leaves its queue. */
  ghost function Unblock(pl: Places, a: Addr): Places
    requires a in pl.blocked && pl.blocked[a] != []
  {
    pl.(blocked := WithQueue(pl.blocked, a, pl.blocked[a][1..]),
        waitsOn := pl.waitsOn[pl.blocked[a][0] := None])
  }

  ghost function Wake(pl: Places, a: Addr): Places
    requires a in pl.blocked ==> pl.blocked[a] != []
  {
    if a in pl.blocked then Enqueue(Unblock(pl, a), pl.blocked[a][0]) else pl
  }

  /** All waiters of a leave their queue for the ready queue, in order. */
  ghost function WakeAll(pl: Places, a: Addr): Places {
    var q := QueueOf(pl.blocked, a);
    pl.(ready := pl.ready + q,
        blocked := pl.blocked - {a},
        waitsOn := map p | p in pl.waitsOn :: if p in q then None else pl.waitsOn[p])
  }

  ghost function Idle(pl: Places): Places {
    pl.(current := null)
  }

  ghost function At(s: State, t: Times): State {
    s.(cpu := s.cpu.(clock := t.resume))
  }

  /** scheduler(): dispatch the head of the ready queue, or decide why there is none. */
  ghost function Schedule(s: State, t: Times): Result
    requires s.pl.ready != [] ==> s.pl.ready[0] in s.cpu.regs
  {
    if s.pl.ready != [] then
      var p := s.pl.ready[0];
      var pl := s.pl.(ready := s.pl.ready[1..], current := p);
      Result(At(s.(pl := pl, cpu := s.cpu.(start := t.resume)), t), Run(p, s.cpu.regs[p]))
    else
      Result(At(s, t), if s.ct.procs == 0 then Halt else if s.ct.soft > 0 then Wait else Panic)
  }

  /** switchContext(currentProcess) */
  ghost function Resume(s: State, t: Times): Result
    requires s.pl.current != null && s.pl.current in s.cpu.regs
  {
    Result(At(s.(cpu := s.cpu.(start := t.resume)), t), Run(s.pl.current, s.cpu.regs[s.pl.current]))
  }

  // ---------------------------------------------------------------- process creation and termination

  /** x is r or has r among its ancestors. */
  ghost predicate Descends(fo: Forest, x: Pcb, r: Pcb)
    requires Rooted(fo) && x in fo.parent
    decreases fo.birth[x]
  {
    x == r || (fo.parent[x] != null && Descends(fo, fo.parent[x], r))
  }

  ghost function Subtree(fo: Forest, r: Pcb): set<Pcb>
    requires Rooted(fo)
  {
    set x | x in fo.parent && Descends(fo, x, r)
  }

  /** block becomes live, first child of the current process, and last in the ready queue. */
  ghost function Born(s: State, init: CpuState, given: Option<int>, block: Pcb): State
    requires s.pl.current != null && s.pl.current in s.fo.kids
  {
    var cur, pl, fo := s.pl.current, s.pl, s.fo;
    s.(pl := pl.(live := pl.live + {block}, waitsOn := pl.waitsOn[block := None], ready := pl.ready + [block]),
       fo := fo.(parent := fo.parent[block := cur],
                 kids := fo.kids[cur := [block] + fo.kids[cur]][block := []],
                 birth := fo.birth[block := fo.stamp], stamp := fo.stamp + 1),
       ct := s.ct.(procs := s.ct.procs + 1),
       cpu := s.cpu.(regs := s.cpu.regs[block := init], time := s.cpu.time[block := 0],
                     support := s.cpu.support[block := given]))
  }

  /** removeChild: the first child of p leaves its list and has no parent any more. */
  ghost function DetachFirst(fo: Forest, p: Pcb): Forest
    requires p in fo.kids && fo.kids[p] != []
  {
    fo.(kids := fo.kids[p := fo.kids[p][1..]], parent := fo.parent[fo.kids[p][0] := null])
  }

  ghost function Waiters(pl: Places, a: Addr): set<Pcb>
    requires pl.waitsOn.Keys == pl.live
  {
    set p | p in pl.live && pl.waitsOn[p] == Some(a)
  }

  /** Processes blocked on a device semaphore. */
  ghost function SoftBlocked(cfg: Config, pl: Places): set<Pcb>
    requires pl.waitsOn.Keys == pl.live
  {
    set p | p in pl.live && pl.waitsOn[p] != None && IsDevAddr(cfg.devBase, pl.waitsOn[p].value)
  }

  /** The queues without the dead; a queue that falls empty goes. */
  ghost function PruneQueues(m: map<Addr, seq<Pcb>>, dead: set<Pcb>): (r: map<Addr, seq<Pcb>>)
    ensures forall a | a in r :: a in m && r[a] == Minus(m[a], dead) && r[a] != []
    ensures forall a | a in m && Minus(m[a], dead) != [] :: a in r
  {
    map a | a in m && Minus(m[a], dead) != [] :: Minus(m[a], dead)
  }

  ghost function PruneKids(m: map<Pcb, seq<Pcb>>, dead: set<Pcb>): (r: map<Pcb, seq<Pcb>>)
    ensures r.Keys == m.Keys - dead
    ensures forall p | p in r :: r[p] == Minus(m[p], dead)
  {
    map p | p in m && p !in dead :: Minus(m[p], dead)
  }

  ghost function KillPlaces(pl: Places, dead: set<Pcb>): Places {
    pl.(live := pl.live - dead,
        ready := Minus(pl.ready, dead),
        blocked := PruneQueues(pl.blocked, dead),
        waitsOn := pl.waitsOn - dead)
  }

  ghost function KillForest(fo: Forest, dead: set<Pcb>): Forest {
    fo.(parent := fo.parent - dead,
        kids := PruneKids(fo.kids, dead),
        birth := fo.birth - dead)
  }

  /** User semaphores get back one unit for each dead waiter, the counters lose the dead. */
  ghost function KillCounts(s: State, dead: set<Pcb>): Counters
    requires s.pl.waitsOn.Keys == s.pl.live
  {
    s.ct.(user := map a | a in s.ct.user :: s.ct.user[a] + |Waiters(s.pl, a) * dead|,
          procs := s.ct.procs - |dead|,
          soft := s.ct.soft - |SoftBlocked(s.cfg, s.pl) * dead|)
  }

  /** All processes of dead are gone at once. The pointer to the current process is left alone. */
  ghost function Kill(s: State, dead: set<Pcb>): State
    requires s.pl.waitsOn.Keys == s.pl.live
  {
    s.(pl := KillPlaces(s.pl, dead), fo := KillForest(s.fo, dead), ct := KillCounts(s, dead),
       cpu := s.cpu.(regs := s.cpu.regs - dead, time := s.cpu.time - dead, support := s.cpu.support - dead))
  }

  // ---------------------------------------------------------------- the exceptions

  /** The action may happen in s. */
  ghost predicate Enabled(s: State, e: Event) {
    && Monotone(s.cpu.clock, e.t)
    && (e.act.Slice? || e.act.Tick? || e.act.Device? || s.pl.current != null)
    && (e.act.Create? ==>
       if e.act.block == null then s.pl.live == s.cfg.pool else e.act.block in s.cfg.pool && e.act.block !in s.pl.live)
    && (e.act.Passeren? || e.act.Verhogen? ==> e.act.a in s.ct.user)
    && (e.act.WaitIO? ==> LegalDevice(e.act.line, e.act.dev))
    && (e.act.Device? ==> e.act.index < CLOCK_INDEX)
  }

  ghost function SetUser(s: State, a: Addr, v: int): State {
    s.(ct := s.ct.(user := s.ct.user[a := v]))
  }

  ghost function SetDev(s: State, i: nat, v: int): State
    requires i < |s.ct.dev|
  {
    s.(ct := s.ct.(dev := s.ct.dev[i := v]))
  }

  ghost function AddSoft(s: State, d: int): State {
    s.(ct := s.ct.(soft := s.ct.soft + d))
  }

  /** The current process is charged up to the second reading of the clock. */
  ghost function ChargeCurrent(s: State, t: Times): State
    requires s.pl.current != null && s.pl.current in s.cpu.time
  {
    Charge(s, s.pl.current, t.mid - s.cpu.start)
  }

  /** blockCurrentProcessHelper */
  ghost function BlockCurrent(s: State, a: Addr, t: Times): State
    requires Shape(s) && s.pl.current != null
  {
    var s1 := ChargeCurrent(s, t);
    s1.(pl := Block(s1.pl, a))
  }

  // Each of the following is the state in which the exception ends, see Finish.

  ghost function DoCreate(s: State, init: CpuState, given: Option<int>, block: Pcb?, t: Times): State
    requires Shape(s) && s.pl.current != null && (block != null ==> block in s.cfg.pool)
  {
    var cur := s.pl.current;
    if block != null then
      var s1 := Born(s, init, given, block);
      ChargeCurrent(Save(s1, cur, s1.cpu.regs[cur].WithV0(SUCCESS)), t)
    else
      ChargeCurrent(Save(s, cur, s.cpu.regs[cur].WithV0(ERROR)), t)
  }

  /** SYS2, and the fatal half of passUpOrDie. */
  ghost function DoTerminate(s: State): State
    requires Shape(s) && Rooted(s.fo) && s.pl.current != null
  {
    var s1 := Kill(s, Subtree(s.fo, s.pl.current));
    s1.(pl := Idle(s1.pl))
  }

  ghost function DoPasseren(s: State, a: Addr, t: Times): State
    requires Shape(s) && s.pl.current != null && a in s.ct.user
  {
    var v := s.ct.user[a] - 1;
    var s1 := SetUser(s, a, v);
    if v < 0 then BlockCurrent(s1, a, t) else ChargeCurrent(s1, t)
  }

  ghost function DoVerhogen(s: State, a: Addr, t: Times): State
    requires Shape(s) && s.pl.current != null && a in s.ct.user
  {
    var v := s.ct.user[a] + 1;
    var s1 := SetUser(s, a, v);
    ChargeCurrent(if v <= 0 then s1.(pl := Wake(s1.pl, a)) else s1, t)
  }

  ghost function DoWaitIO(s: State, i: nat, t: Times): State
    requires Shape(s) && s.pl.current != null && i < CLOCK_INDEX
  {
    var v := s.ct.dev[i] - 1;
    var s1 := SetDev(AddSoft(s, 1), i, v);
    if v < 0 then BlockCurrent(s1, DevAddr(s.cfg.devBase, i), t) else ChargeCurrent(s1, t)
  }

  ghost function DoWaitClock(s: State, t: Times): State
    requires Shape(s) && s.pl.current != null
  {
    var v := s.ct.dev[CLOCK_INDEX] - 1;
    var s1 := SetDev(s, CLOCK_INDEX, v);
    if v < 0 then BlockCurrent(AddSoft(s1, 1), DevAddr(s.cfg.devBase, CLOCK_INDEX), t) else ChargeCurrent(s1, t)
  }

  ghost function DoGetTime(s: State, t: Times): State
    requires Shape(s) && s.pl.current != null
  {
    var cur := s.pl.current;
    var s1 := ChargeCurrent(s, t);
    var s2 := Save(s1, cur, s1.cpu.regs[cur].WithV0(s1.cpu.time[cur]));
    Charge(s2, cur, t.late - s2.cpu.start)
  }

  ghost function DoGetSupport(s: State, t: Times): State
    requires Shape(s) && s.pl.current != null
  {
    var cur := s.pl.current;
    var word := match s.cpu.support[cur] case Some(w) => w case None => NULL_WORD;
    ChargeCurrent(Save(s, cur, s.cpu.regs[cur].WithV0(word)), t)
  }

  /** The exception is handed to the support level. */
  ghost predicate PassesUp(s: State, e: Event)
    requires Shape(s) && Enabled(s, e)
  {
    e.act.Fault? && s.cpu.support[s.pl.current] != None
  }

  /** PLTInterruptHandler */
  ghost function DoSlice(s: State, saved: CpuState, t: Times): State
    requires Shape(s)
  {
    if s.pl.current == null then s
    else
      var s1 := ChargeCurrent(Save(s, s.pl.current, saved), t);
      s1.(pl := Idle(Enqueue(s1.pl, s1.pl.current)))
  }

  /** The end of a device or clock interrupt for the process it interrupted, if any. */
  ghost function Interrupted(s: State, saved: CpuState, t: Times): State
    requires Domains(s) && (s.pl.current != null ==> s.pl.current in s.pl.live)
  {
    if s.pl.current == null then s
    else Charge(Save(s, s.pl.current, saved), s.pl.current, t.arrive - s.cpu.start)
  }

  /** intervalTimerInterruptHandler, before it returns to whoever was interrupted */
  ghost function Ticked(s: State): State
    requires Shape(s)
  {
    var a := DevAddr(s.cfg.devBase, CLOCK_INDEX);
    SetDev(AddSoft(s.(pl := WakeAll(s.pl, a)), -|QueueOf(s.pl.blocked, a)|), CLOCK_INDEX, 0)
  }

  /**
    nonTimerInterruptHandler, once the sub-device is known: the waiter of device semaphore i, if any,
    gets the status in v0 and is charged for the interrupt.
    */
  ghost function Deliver(s: State, i: nat, status: int, t: Times): State
    requires Shape(s) && i < CLOCK_INDEX
  {
    var a := DevAddr(s.cfg.devBase, i);
    var s1 := SetDev(s, i, s.ct.dev[i] + 1);
    if a in s.pl.blocked then
      var p := s.pl.blocked[a][0];
      var s2 := Save(s1.(pl := Wake(s1.pl, a)), p, s1.cpu.regs[p].WithV0(status));
      Charge(AddSoft(s2, -1), p, t.mid - t.arrive)
    else s1
  }

  /** systemTrapHandler, after it has saved the state of the caller */
  ghost function SysWork(s: State, act: Action, t: Times): State
    requires Shape(s) && Rooted(s.fo) && s.pl.current != null
    requires act.Passeren? || act.Verhogen? ==> act.a in s.ct.user
    requires act.WaitIO? ==> LegalDevice(act.line, act.dev)
    requires act.Create? && act.block != null ==> act.block in s.cfg.pool
    requires !(act.Slice? || act.Tick? || act.Device? || act.Fault?)
  {
    match act
    case Create(init, given, block) => DoCreate(s, init, given, block, t)
    case Terminate => DoTerminate(s)
    case Passeren(a) => DoPasseren(s, a, t)
    case Verhogen(a) => DoVerhogen(s, a, t)
    case WaitIO(line, dev, read) => DoWaitIO(s, SemIndex(line, dev, read), t)
    case GetTime => DoGetTime(s, t)
    case WaitClock => DoWaitClock(s, t)
    case GetSupport => DoGetSupport(s, t)
  }

  /** exceptionHandler, just before scheduler(), switchContext() or the like */
  ghost function Work(s: State, e: Event): State
    requires Shape(s) && Rooted(s.fo) && Enabled(s, e)
  {
    match e.act
    case Fault => if PassesUp(s, e) then ChargeCurrent(s, e.t) else DoTerminate(s)
    case Slice => DoSlice(s, e.saved, e.t)
    case Tick => Interrupted(Ticked(s), e.saved, e.t)
    case Device(i, status) => Interrupted(Deliver(s, i, status, e.t), e.saved, e.t)
    case _ => SysWork(Save(s, s.pl.current, e.saved), e.act, e.t)
  }

  // ---------------------------------------------------------------- how exceptions end

  /** Whoever may run has a saved state. */
  ghost predicate Finishable(m: State) {
    if m.pl.current != null then m.pl.current in m.cpu.regs
    else m.pl.ready != [] ==> m.pl.ready[0] in m.cpu.regs
  }

  /** To the scheduler if nobody runs any more, otherwise back to the current process. */
  ghost function Conclude(m: State, t: Times): Result
    requires Finishable(m)
  {
    if m.pl.current == null then Schedule(m, t) else Resume(m, t)
  }

  /** A handler whose work leaves m ends in st and with o. */
  ghost predicate Concludes(st: State, o: Outcome, m: State, t: Times) {
    Finishable(m) && Result(st, o) == Conclude(m, t)
  }

  /** A timer interrupt without a running process. */
  ghost predicate Stray(s: State, e: Event) {
    e.act.Slice? && s.pl.current == null
  }

  /** Panic on a stray timer interrupt, the support level, the scheduler, or back to the running process. */
  ghost function Finish(s: State, m: State, e: Event): Result
    requires Shape(s) && Enabled(s, e) && Finishable(m)
  {
    if Stray(s, e) then Result(At(m, e.t), Panic)
    else if PassesUp(s, e) then Result(At(m, e.t), PassUp(s.pl.current))
    else Conclude(m, e.t)
  }

  lemma CreateFinishable(s: State, init: CpuState, given: Option<int>, block: Pcb?, t: Times)
    requires Shape(s) && s.pl.current != null && (block != null ==> block in s.cfg.pool)
    ensures Finishable(DoCreate(s, init, given, block, t))
  {
  }

  lemma BlockFinishable(s: State, a: Addr, t: Times)
    requires Shape(s) && s.pl.current != null
    ensures Finishable(BlockCurrent(s, a, t)) && Finishable(ChargeCurrent(s, t))
  {
  }

  lemma KillFinishable(s: State)
    requires Shape(s) && Rooted(s.fo) && s.pl.current != null
    ensures Finishable(DoTerminate(s))
  {
    hide Subtree, PruneQueues, PruneKids, Waiters, SoftBlocked;
    assert forall p | p in Minus(s.pl.ready, Subtree(s.fo, s.pl.current)) :: p in s.pl.ready;
  }

  lemma SysFinishable(s: State, act: Action, t: Times)
    requires Shape(s) && Rooted(s.fo) && s.pl.current != null
    requires act.Passeren? || act.Verhogen? ==> act.a in s.ct.user
    requires act.WaitIO? ==> LegalDevice(act.line, act.dev)
    requires act.Create? && act.block != null ==> act.block in s.cfg.pool
    requires !(act.Slice? || act.Tick? || act.Device? || act.Fault?)
    ensures Finishable(SysWork(s, act, t))
  {
    hide Subtree, Minus, Rooted, BlockCurrent, DoCreate, DoTerminate;
    match act
    case Create(init, given, block) => CreateFinishable(s, init, given, block, t);
    case Terminate => KillFinishable(s);
    case Passeren(a) => BlockFinishable(SetUser(s, a, s.ct.user[a] - 1), a, t);
    case Verhogen(a) =>
    case WaitIO(line, dev, read) =>
      var i := SemIndex(line, dev, read);
      BlockFinishable(SetDev(AddSoft(s, 1), i, s.ct.dev[i] - 1), DevAddr(s.cfg.devBase, i), t);
    case GetTime =>
    case WaitClock =>
      var s1 := SetDev(s, CLOCK_INDEX, s.ct.dev[CLOCK_INDEX] - 1);
      BlockFinishable(AddSoft(s1, 1), DevAddr(s.cfg.devBase, CLOCK_INDEX), t);
      BlockFinishable(s1, DevAddr(s.cfg.devBase, CLOCK_INDEX), t);
    case GetSupport =>
  }

  lemma SliceFinishable(s: State, saved: CpuState, t: Times)
    requires Shape(s)
    ensures Finishable(DoSlice(s, saved, t))
  {
  }

  lemma TickFinishable(s: State, saved: CpuState, t: Times)
    requires Shape(s)
    ensures Finishable(Interrupted(Ticked(s), saved, t))
  {
    var q := QueueOf(s.pl.blocked, DevAddr(s.cfg.devBase, CLOCK_INDEX));
    assert q != [] ==> q[0] in s.pl.live;
    assert s.pl.ready != [] ==> s.pl.ready[0] in s.pl.ready;
  }

  lemma DeviceFinishable(s: State, i: nat, status: int, saved: CpuState, t: Times)
    requires Shape(s) && i < CLOCK_INDEX
    ensures Finishable(Interrupted(Deliver(s, i, status, t), saved, t))
  {
    assert s.pl.ready != [] ==> s.pl.ready[0] in s.pl.ready;
  }

  lemma InterruptFinishable(s: State, e: Event)
    requires Shape(s) && Rooted(s.fo) && Enabled(s, e) && (e.act.Slice? || e.act.Tick? || e.act.Device?)
    ensures Finishable(Work(s, e))
  {
    hide Finishable, Interrupted, Ticked, Deliver, DoSlice, Rooted;
    match e.act
    case Slice => SliceFinishable(s, e.saved, e.t);
    case Tick => TickFinishable(s, e.saved, e.t);
    case Device(i, status) => DeviceFinishable(s, i, status, e.saved, e.t);
  }

  lemma WorkFinishable(s: State, e: Event)
    requires Shape(s) && Rooted(s.fo) && Enabled(s, e)
    ensures Finishable(Work(s, e))
  {
    hide Subtree, Minus, SysWork, DoTerminate, Rooted;
    if e.act.Slice? || e.act.Tick? || e.act.Device? {
      InterruptFinishable(s, e);
    } else if e.act.Fault? {
      KillFinishable(s);
    } else {
      SysFinishable(Save(s, s.pl.current, e.saved), e.act, e.t);
    }
  }

  /** exceptionHandler */
  ghost function Step(s: State, e: Event): Result
    requires Shape(s) && Rooted(s.fo) && Enabled(s, e)
  {
    WorkFinishable(s, e);
    Finish(s, Work(s, e), e)
  }
}
