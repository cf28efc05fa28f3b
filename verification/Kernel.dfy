/**
  The global variables of the nucleus and the pointer structures they lead to.
  The ghost field st is the abstract state they stand for; Rep() says that they do.
  Each method here is one operation that the handlers use, and says what it does to st.
  */
module NucleusKernel {
  import opened Collections
  import opened Types
  import opened ProcQueue
  import opened PcbPool
  import opened ChildList
  import opened ProcessTree
  import opened ActiveSemaphores
  import opened NucleusState

  /** What waits for nothing may be ready, what is in a queue waits for its key. */
  ghost predicate Apart(pl: Places) {
    && (forall p | p in pl.ready :: p in pl.live && p in pl.waitsOn && pl.waitsOn[p] == None)
    && (forall a, p | a in pl.blocked && p in pl.blocked[a] ::
      p in pl.live && p in pl.waitsOn && pl.waitsOn[p] == Some(a))
  }

  lemma ApartEnqueue(pl: Places, p: Pcb)
    requires Apart(pl) && p in pl.live && p in pl.waitsOn && pl.waitsOn[p] == None
    ensures Apart(Enqueue(pl, p))
  {
  }

  lemma ApartReady(pl: Places, ready: seq<Pcb>)
    requires Apart(pl) && forall p | p in ready :: p in pl.ready
    ensures Apart(pl.(ready := ready))
  {
  }

  /** p joins the queue of a. */
  ghost function Join(pl: Places, p: Pcb, a: Addr): Places {
    pl.(blocked := WithQueue(pl.blocked, a, QueueOf(pl.blocked, a) + [p]), waitsOn := pl.waitsOn[p := Some(a)])
  }

  lemma ApartJoin(pl: Places, p: Pcb, a: Addr)
    requires Apart(pl) && p in pl.live && p in pl.waitsOn && pl.waitsOn[p] == None && p !in pl.ready
    ensures Apart(Join(pl, p, a))
  {
  }

  lemma ApartUnblock(pl: Places, a: Addr)
    requires Apart(pl) && a in pl.blocked && pl.blocked[a] != [] && pl.blocked[a][0] !in pl.blocked[a][1..]
    ensures Apart(Unblock(pl, a))
  {
    var p, rest := pl.blocked[a][0], pl.blocked[a][1..];
    assert p in pl.blocked[a] && forall x | x in rest :: x in pl.blocked[a];
    assert pl.waitsOn[p] == Some(a);
    forall b | b in pl.blocked && p in pl.blocked[b] ensures b == a {
      assert pl.waitsOn[p] == Some(b);
    }
  }

  /** p leaves the queue of a. What it is said to wait for stays as it is. */
  ghost function Leave(pl: Places, p: Pcb, a: Addr): Places
    requires a in pl.blocked
  {
    pl.(blocked := WithQueue(pl.blocked, a, Minus<Pcb>(pl.blocked[a], {p})))
  }

  lemma ApartLeave(pl: Places, p: Pcb, a: Addr)
    requires Apart(pl) && a in pl.blocked
    ensures Apart(Leave(pl, p, a))
  {
  }

  /** p is live, but nowhere yet. */
  ghost function Awake(pl: Places, p: Pcb): Places {
    pl.(live := pl.live + {p}, waitsOn := pl.waitsOn[p := None])
  }

  lemma ApartAwake(pl: Places, p: Pcb)
    requires Apart(pl) && p !in pl.live
    ensures Apart(Awake(pl, p))
  {
  }

  /** p, which is in no queue, is live no longer. */
  ghost function Gone(pl: Places, p: Pcb): Places {
    pl.(live := pl.live - {p}, waitsOn := pl.waitsOn - {p})
  }

  ghost predicate Nowhere(pl: Places, p: Pcb) {
    p !in pl.ready && forall a | a in pl.blocked :: p !in pl.blocked[a]
  }

  lemma ApartGone(pl: Places, p: Pcb)
    requires Apart(pl) && Nowhere(pl, p)
    ensures Apart(Gone(pl, p))
  {
  }

  /** The forest is about processes of live only. */
  ghost predicate Within(fo: Forest, live: set<Pcb>) {
    && fo.parent.Keys <= live && fo.kids.Keys <= live
    && forall q, c | q in fo.kids && c in fo.kids[q] :: c in live
  }

  /** p, the youngest of all, has neither parent nor child. */
  ghost function Foundling(fo: Forest, p: Pcb): Forest {
    fo.(parent := fo.parent[p := null], kids := fo.kids[p := []], birth := fo.birth[p := fo.stamp], stamp := fo.stamp + 1)
  }

  ghost function Dropped(fo: Forest, p: Pcb): Forest {
    fo.(parent := fo.parent - {p}, kids := fo.kids - {p}, birth := fo.birth - {p})
  }

  /** p is taken out of everything that is known about live processes. */
  ghost function Departed(s: State, p: Pcb): State {
    s.(pl := Gone(s.pl, p), fo := Dropped(s.fo, p),
       cpu := s.cpu.(regs := s.cpu.regs - {p}, time := s.cpu.time - {p}, support := s.cpu.support - {p}))
  }

  /** p becomes the first child of prnt. */
  ghost function Adopted(fo: Forest, prnt: Pcb, p: Pcb): Forest
    requires prnt in fo.kids
  {
    fo.(parent := fo.parent[p := prnt], kids := fo.kids[prnt := [p] + fo.kids[prnt]])
  }

  ghost function Started(cpu: Cpu, p: Pcb, cs: CpuState): Cpu {
    cpu.(regs := cpu.regs[p := cs], time := cpu.time[p := 0], support := cpu.support[p := None])
  }

  /** A block just taken from the free list. */
  ghost function Newborn(s: State, p: Pcb, cs: CpuState): State {
    s.(pl := Awake(s.pl, p), fo := Foundling(s.fo, p), cpu := Started(s.cpu, p, cs))
  }

  lemma FirstIsOnce(asl: Asl, a: Addr)
    requires asl.Valid() && a in asl.queues
    ensures asl.queues[a] != [] && asl.queues[a][0] !in asl.queues[a][1..]
  {
    var i :| 0 <= i < |asl.entries| && asl.entries[i].key == a;
    assert EntryOk(asl.nodes[i], asl.entries[i]) && asl.entries[i].queue == asl.queues[a];
  }

  class Kernel {
    ghost const cfg: Config
    const devBase: Addr
    const pcbs: FreePcbs
    const asl: Asl
    const semaphoreDevices: array<int>
    // the semaphore words of user programs
    var memory: map<Addr, int>
    var readyQueue: Pcb?
    var currentProcess: Pcb?
    var processCount: int
    var softBlockedCount: int
    var startTod: int
    var currTod: int
    var interruptTod: int
    ghost var st: State

    ghost predicate FreeOk(live: set<Pcb>)
      reads pcbs, pcbs.free`next
    {
      && live <= cfg.pool
      && (forall p | p in pcbs.free :: p in cfg.pool && p !in live)
      && (forall p | p in cfg.pool && p !in live :: p in pcbs.free)
      && pcbs.Valid()
    }

    ghost predicate ReadyOk(ready: seq<Pcb>)
      reads this`readyQueue, ready`next, ready`prev
    {
      (forall p | p in ready :: p in cfg.pool) && IsProcQ(readyQueue, ready)
    }

    ghost predicate AslOk(blocked: map<Addr, seq<Pcb>>)
      reads asl, asl.table, asl.waiting`next, asl.waiting`prev, asl.waiting`semAdd
    {
      && asl.waiting <= cfg.pool && asl.Valid() && asl.queues == blocked
      && |asl.table| == |cfg.pool| + 2
    }

    ghost predicate TreeOk(fo: Forest)
      reads cfg.pool`parent, cfg.pool`child, cfg.pool`leftSib, cfg.pool`rightSib
    {
      ListsOk(cfg.pool, fo.kids) && ParentsOk(cfg.pool, fo.parent)
    }

    ghost predicate WaitsOk(waitsOn: map<Pcb, Option<Addr>>)
      reads cfg.pool`semAdd
    {
      (forall p | p in waitsOn :: p in cfg.pool) && forall p | p in waitsOn :: p.semAdd == waitsOn[p]
    }

    ghost predicate CpuOk(cpu: Cpu)
      reads this`startTod, cfg.pool`state, cfg.pool`time, cfg.pool`support
    {
      && startTod == cpu.start
      && cpu.regs.Keys <= cfg.pool && cpu.time.Keys <= cfg.pool && cpu.support.Keys <= cfg.pool
      && (forall p | p in cpu.regs :: p.state == cpu.regs[p])
      && (forall p | p in cpu.time :: p.time == cpu.time[p])
      && (forall p | p in cpu.support :: p.support == cpu.support[p])
    }

    ghost predicate CountsOk(ct: Counters)
      reads this`memory, this`processCount, this`softBlockedCount, semaphoreDevices
    {
      && memory == ct.user && semaphoreDevices[..] == ct.dev
      && processCount == ct.procs && softBlockedCount == ct.soft
    }

    /** Free list, ready queue and semaphore queues share the queue links of the blocks. */
    ghost predicate Links(pl: Places)
      reads this`readyQueue, pcbs, pcbs.free`next, pl.ready`next, pl.ready`prev, cfg.pool`semAdd
      reads asl, asl.table, asl.waiting`next, asl.waiting`prev, asl.waiting`semAdd
    {
      Apart(pl) && FreeOk(pl.live) && ReadyOk(pl.ready) && AslOk(pl.blocked) && WaitsOk(pl.waitsOn)
    }

    /** The variables and structures stand for st. */
    ghost predicate Rep()
      reads this`st, this`memory, this`readyQueue, this`currentProcess
      reads this`processCount, this`softBlockedCount, this`startTod
      reads pcbs, asl, asl.table, semaphoreDevices, cfg.pool, pcbs.free, st.pl.ready, asl.waiting
    {
      && st.cfg == cfg && devBase == cfg.devBase && currentProcess == st.pl.current
      && Links(st.pl) && TreeOk(st.fo) && CountsOk(st.ct) && CpuOk(st.cpu)
    }

    /** The state before there is any process. */
    static ghost function Empty(cfg: Config, words: map<Addr, int>, dev: seq<int>): State {
      State(cfg, Places({}, [], map[], map[], null), Forest(map[], map[], map[], 0),
            Counters(words, dev, 0, 0), Cpu(map[], map[], map[], 0, 0, 0))
    }

    /** initPcbs, initASL, and the first assignments of main */
    constructor (maxProc: nat, base: Addr, words: map<Addr, int>)
      ensures Rep() && |cfg.pool| == maxProc && cfg.devBase == base
      ensures semaphoreDevices.Length == MAX_DEVICE_COUNT && st == Empty(cfg, words, semaphoreDevices[..])
      ensures forall p | p in pcbs.free :: p.state == ZERO_STATE
      ensures fresh(pcbs) && fresh(asl) && fresh(asl.table) && fresh(cfg.pool) && fresh(semaphoreDevices)
    {
      hide Rep, FreePcbs.Valid, Asl.Valid;
      devBase := base;
      var blocks := new FreePcbs(maxProc);
      var list := new Asl(maxProc + 2);
      var sems := new int[49];
      pcbs, asl, semaphoreDevices := blocks, list, sems;
      cfg := Config(Elements(blocks.free), base);
      memory := words;
      processCount, softBlockedCount := 0, 0;
      readyQueue, currentProcess := null, null;
      startTod, currTod, interruptTod := 0, 0, 0;
      st := Empty(Config(Elements(blocks.free), base), words, sems[..]);
      new;
      FreeSize();
      EmptyRep(words);
    }

    lemma FreeSize()
      requires pcbs.Valid()
      ensures |Elements(pcbs.free)| == |pcbs.free|
    {
      DistinctSize(pcbs.free);
    }

    lemma EmptyRep(words: map<Addr, int>)
      requires pcbs.Valid() && cfg.pool == Elements(pcbs.free)
      requires asl.Valid() && asl.queues == map[] && |asl.table| == |cfg.pool| + 2
      requires st == Empty(cfg, words, semaphoreDevices[..])
      requires devBase == cfg.devBase && memory == words && processCount == 0 && softBlockedCount == 0
      requires readyQueue == null && currentProcess == null && startTod == 0
      ensures Rep()
    {
      hide FreePcbs.Valid, Asl.Valid;
      asl.MapFacts();
      assert AslOk(map[]);
      assert TreeOk(st.fo);
      assert CpuOk(st.cpu);
    }

    /** The plain variables have the values they have in st. */
    lemma Known()
      requires Rep()
      ensures devBase == st.cfg.devBase && st.cfg == cfg
      ensures currentProcess == st.pl.current && startTod == st.cpu.start && memory == st.ct.user
      ensures semaphoreDevices[..] == st.ct.dev && processCount == st.ct.procs && softBlockedCount == st.ct.soft
      ensures st.cpu.regs.Keys <= cfg.pool && st.cpu.time.Keys <= cfg.pool && st.cpu.support.Keys <= cfg.pool
    {
      hide Links, TreeOk;
    }

    // ---------------------------------------------------------------- who is where

    /** The first waiter of a can be put into the ready queue once it has left the queue of a. */
    lemma FirstWaiter(a: Addr)
      requires Rep() && a in st.pl.blocked && st.pl.blocked[a] != []
      ensures var p, pl := st.pl.blocked[a][0], Unblock(st.pl, a);
        p in pl.live && p in pl.waitsOn && pl.waitsOn[p] == None && p !in pl.ready && p in cfg.pool
    {
      hide ReadyOk, AslOk, WaitsOk, TreeOk, CountsOk, CpuOk;
      assert st.pl.blocked[a][0] in st.pl.blocked[a];
      FreeFacts(st.pl);
    }

    lemma WaitingIsBlocked(pl: Places)
      requires AslOk(pl.blocked)
      ensures forall x | x in asl.waiting :: exists a :: a in pl.blocked && x in pl.blocked[a]
      ensures forall a, x | a in pl.blocked && x in pl.blocked[a] :: x in asl.waiting
      ensures forall x | x in asl.waiting :: x in cfg.pool
    {
      hide Asl.Valid;
      asl.MapFacts();
    }

    lemma FreeFacts(pl: Places)
      requires FreeOk(pl.live)
      ensures forall x | x in pcbs.free :: x in cfg.pool && x !in pl.live
      ensures forall x | x in cfg.pool && x !in pl.live :: x in pcbs.free
      ensures forall x | x in pl.live :: x in cfg.pool
    {
    }

    lemma TreeIs()
      requires Rep()
      ensures ListsOk(cfg.pool, st.fo.kids) && ParentsOk(cfg.pool, st.fo.parent)
    {
      hide Links, CountsOk, CpuOk, ListsOk, ParentsOk;
    }

    lemma ParentIs(p: Pcb)
      requires Rep() && p in st.fo.parent
      ensures p.parent == st.fo.parent[p]
    {
      hide Links, CountsOk, CpuOk, ListsOk;
    }

    /** The fields of the blocks are those of st. */
    lemma FieldsAre()
      requires Rep()
      ensures forall p | p in st.cpu.regs :: p.state == st.cpu.regs[p]
      ensures forall p | p in st.cpu.time :: p.time == st.cpu.time[p]
      ensures forall p | p in st.cpu.support :: p.support == st.cpu.support[p]
    {
      hide Links, TreeOk, CountsOk;
    }

    /** Where Rep finds the places of st. */
    lemma PlacesAre()
      requires Rep()
      ensures currentProcess == st.pl.current && asl.queues == st.pl.blocked && st.pl.live <= cfg.pool
      ensures forall p | p in cfg.pool :: p in pcbs.free <==> p !in st.pl.live
      ensures forall p | p in pcbs.free :: p in cfg.pool
      ensures Distinct(pcbs.free)
      ensures forall p | p in st.pl.waitsOn :: p.semAdd == st.pl.waitsOn[p]
    {
      hide TreeOk, CountsOk, CpuOk, ReadyOk, Apart, Asl.Valid;
    }

    /** The three users of the queue links have no block in common. */
    lemma LinksApart(pl: Places)
      requires Links(pl)
      ensures forall x | x in asl.waiting :: x in cfg.pool && x in pl.live && x !in pcbs.free && x !in pl.ready
      ensures forall x | x in asl.waiting :: x in pl.waitsOn && pl.waitsOn[x] != None
      ensures forall x | x in pl.ready :: x in cfg.pool && x in pl.live && x !in pcbs.free
      ensures forall x | x in pcbs.free :: x in cfg.pool && x !in pl.live
      ensures forall x | x in pl.live :: x in cfg.pool
    {
      hide IsProcQ, Asl.Valid, FreeOk, AslOk;
      WaitingIsBlocked(pl);
      FreeFacts(pl);
    }

    lemma UnpackLinks(pl: Places)
      requires Links(pl)
      ensures Apart(pl) && FreeOk(pl.live) && ReadyOk(pl.ready) && AslOk(pl.blocked) && WaitsOk(pl.waitsOn)
    {
    }

    lemma PackLinks(pl: Places)
      requires Apart(pl) && FreeOk(pl.live) && ReadyOk(pl.ready) && AslOk(pl.blocked) && WaitsOk(pl.waitsOn)
      ensures Links(pl)
    {
    }

    // ---------------------------------------------------------------- the ready queue

    method ReadyLink(p: Pcb, ghost ready: seq<Pcb>)
      requires ReadyOk(ready) && p in cfg.pool && p !in ready
      modifies this`readyQueue, ready`next, ready`prev, p`next, p`prev
      ensures ReadyOk(ready + [p])
    {
      hide IsProcQ;
      readyQueue := InsertProcQ(readyQueue, p, ready);
    }

    method LinksReadyInsert(p: Pcb, ghost pl: Places)
      requires Links(pl) && p in pl.live && p in pl.waitsOn && pl.waitsOn[p] == None && p !in pl.ready
      modifies this`readyQueue, cfg.pool`next, cfg.pool`prev
      ensures Links(Enqueue(pl, p))
    {
      hide Links, FreeOk, ReadyOk, AslOk, WaitsOk, Apart;
      UnpackLinks(pl);
      LinksApart(pl);
      ReadyLink(p, pl.ready);
      assert forall x | x in pcbs.free :: x.next == old(x.next);
      ApartEnqueue(pl, p);
      PackLinks(Enqueue(pl, p));
    }

    /** insertProcQ(&readyQueue, p) */
    method ReadyInsert(p: Pcb)
      requires Rep() && p in st.pl.live && p in st.pl.waitsOn && st.pl.waitsOn[p] == None && p !in st.pl.ready
      modifies this`readyQueue, this`st, cfg.pool`next, cfg.pool`prev
      ensures Rep() && st == old(st).(pl := Enqueue(old(st).pl, p))
    {
      hide Links, CountsOk, CpuOk, TreeOk;
      LinksReadyInsert(p, st.pl);
      st := st.(pl := Enqueue(st.pl, p));
    }

    method ReadyUnlink(ghost ready: seq<Pcb>) returns (p: Pcb?)
      requires ReadyOk(ready)
      modifies this`readyQueue, ready`next, ready`prev
      ensures ready == [] ==> p == null && ReadyOk(ready)
      ensures ready != [] ==> p == ready[0] && ReadyOk(ready[1..])
    {
      readyQueue, p := RemoveProcQ(readyQueue, ready);
    }

    method LinksReadyRemove(ghost pl: Places) returns (p: Pcb?)
      requires Links(pl)
      modifies this`readyQueue, cfg.pool`next, cfg.pool`prev
      ensures pl.ready == [] ==> p == null && Links(pl)
      ensures pl.ready != [] ==> p == pl.ready[0] && Links(pl.(ready := pl.ready[1..]))
    {
      hide Links, FreeOk, ReadyOk, AslOk, WaitsOk, Apart;
      UnpackLinks(pl);
      LinksApart(pl);
      p := ReadyUnlink(pl.ready);
      assert forall x | x in pcbs.free :: x.next == old(x.next);
      ghost var rest := if p == null then pl.ready else pl.ready[1..];
      ApartReady(pl, rest);
      PackLinks(pl.(ready := rest));
    }

    /** removeProcQ(&readyQueue) */
    method ReadyRemove() returns (p: Pcb?)
      requires Rep()
      modifies this`readyQueue, this`st, cfg.pool`next, cfg.pool`prev
      ensures Rep()
      ensures old(st).pl.ready == [] ==> p == null && st == old(st)
      ensures old(st).pl.ready != [] ==>
        p == old(st).pl.ready[0] && st == old(st).(pl := old(st).pl.(ready := old(st).pl.ready[1..]))
    {
      hide Links, CountsOk, CpuOk, TreeOk;
      p := LinksReadyRemove(st.pl);
      if p != null {
        st := st.(pl := st.pl.(ready := st.pl.ready[1..]));
      }
    }

    method ReadyCut(p: Pcb, ghost ready: seq<Pcb>) returns (out: Pcb?)
      requires ReadyOk(ready)
      modifies this`readyQueue, ready`next, ready`prev
      ensures ReadyOk(Minus(ready, {p})) && out == if p in ready then p else null
    {
      hide IsProcQ;
      if p !in ready {
        MinusUntouched(ready, {p});
      }
      readyQueue, out := OutProcQ(readyQueue, p, ready);
    }

    method LinksReadyOut(p: Pcb, ghost pl: Places) returns (out: Pcb?)
      requires Links(pl)
      modifies this`readyQueue, cfg.pool`next, cfg.pool`prev
      ensures Links(pl.(ready := Minus(pl.ready, {p}))) && out == if p in pl.ready then p else null
    {
      hide Links, FreeOk, ReadyOk, AslOk, WaitsOk, Apart;
      UnpackLinks(pl);
      LinksApart(pl);
      out := ReadyCut(p, pl.ready);
      assert forall x | x in pcbs.free :: x.next == old(x.next);
      ApartReady(pl, Minus(pl.ready, {p}));
      PackLinks(pl.(ready := Minus(pl.ready, {p})));
    }

    /** outProcQ(&readyQueue, p) */
    method ReadyOut(p: Pcb) returns (out: Pcb?)
      requires Rep()
      modifies this`readyQueue, this`st, cfg.pool`next, cfg.pool`prev
      ensures Rep() && st == old(st).(pl := old(st).pl.(ready := Minus(old(st).pl.ready, {p})))
      ensures out == if p in old(st).pl.ready then p else null
    {
      hide Links, CountsOk, CpuOk, TreeOk, Minus;
      out := LinksReadyOut(p, st.pl);
      st := st.(pl := st.pl.(ready := Minus(st.pl.ready, {p})));
    }

    /** emptyProcQ(readyQueue) */
    method ReadyEmpty() returns (empty: bool)
      requires Rep()
      ensures empty <==> st.pl.ready == []
    {
      hide CountsOk, CpuOk, TreeOk, AslOk, FreeOk, WaitsOk;
      empty := EmptyProcQ(readyQueue, st.pl.ready);
    }

    // ---------------------------------------------------------------- semaphore queues

    /** There is always a descriptor left for a block that does not wait yet. */
    method AslJoin(p: Pcb, a: Addr, ghost blocked: map<Addr, seq<Pcb>>)
      requires AslOk(blocked) && p in cfg.pool && p !in asl.waiting && !IsDummy(a)
      modifies asl, asl.table, asl.waiting`next, asl.waiting`prev, p`next, p`prev, p`semAdd
      ensures AslOk(WithQueue(blocked, a, QueueOf(blocked, a) + [p]))
      ensures p.semAdd == Some(a) && asl.waiting == old(asl.waiting) + {p}
    {
      hide Asl.Valid, WithQueue;
      SubsetSize(asl.waiting + {p}, cfg.pool);
      asl.NeverFull(asl.waiting);
      var full := asl.InsertBlocked(a, p);
    }

    method LinksJoin(p: Pcb, a: Addr, ghost pl: Places)
      requires Links(pl) && !IsDummy(a)
      requires p in pl.live && p in pl.waitsOn && pl.waitsOn[p] == None && p !in pl.ready
      modifies asl, asl.table, cfg.pool`next, cfg.pool`prev, cfg.pool`semAdd
      ensures Links(Join(pl, p, a))
    {
      hide Links, FreeOk, ReadyOk, AslOk, Apart, WithQueue;
      UnpackLinks(pl);
      LinksApart(pl);
      AslJoin(p, a, pl.blocked);
      assert forall x | x in pcbs.free :: x.next == old(x.next);
      assert forall x | x in pl.ready :: x.next == old(x.next) && x.prev == old(x.prev);
      ApartJoin(pl, p, a);
      PackLinks(Join(pl, p, a));
    }

    /** insertBlocked(a, p) */
    method InsertBlocked(p: Pcb, a: Addr)
      requires Rep() && !IsDummy(a)
      requires p in st.pl.live && p in st.pl.waitsOn && st.pl.waitsOn[p] == None && p !in st.pl.ready
      modifies this`st, asl, asl.table, cfg.pool`next, cfg.pool`prev, cfg.pool`semAdd
      ensures Rep() && st == old(st).(pl := Join(old(st).pl, p, a))
    {
      hide Links, CountsOk, CpuOk, TreeOk;
      LinksJoin(p, a, st.pl);
      st := st.(pl := Join(st.pl, p, a));
    }

    method AslTake(a: Addr, ghost blocked: map<Addr, seq<Pcb>>) returns (p: Pcb?)
      requires AslOk(blocked) && !IsDummy(a)
      modifies asl, asl.table, asl.waiting`next, asl.waiting`prev, asl.waiting`semAdd
      ensures asl.waiting <= old(asl.waiting)
      ensures a !in blocked ==> p == null && AslOk(blocked)
      ensures a in blocked ==> blocked[a] != [] && p == blocked[a][0] && p !in blocked[a][1..] && p in cfg.pool
      ensures a in blocked ==> p.semAdd == None && AslOk(WithQueue(blocked, a, blocked[a][1..]))
      ensures forall x | x in old(asl.waiting) && x != p :: x.semAdd == old(x.semAdd)
    {
      hide Asl.Valid, WithQueue;
      asl.MapFacts();
      if a in blocked {
        FirstIsOnce(asl, a);
      }
      p := asl.RemoveBlocked(a);
    }

    method LinksTake(a: Addr, ghost pl: Places) returns (p: Pcb?)
      requires Links(pl) && !IsDummy(a)
      modifies asl, asl.table, cfg.pool`next, cfg.pool`prev, cfg.pool`semAdd
      ensures a !in pl.blocked ==> p == null && Links(pl)
      ensures a in pl.blocked ==> pl.blocked[a] != [] && p == pl.blocked[a][0] && Links(Unblock(pl, a))
    {
      hide Links, FreeOk, ReadyOk, AslOk, Apart, WithQueue;
      UnpackLinks(pl);
      LinksApart(pl);
      p := AslTake(a, pl.blocked);
      assert forall x | x in pcbs.free :: x.next == old(x.next);
      assert forall x | x in pl.ready :: x.next == old(x.next) && x.prev == old(x.prev);
      if a in pl.blocked {
        ApartUnblock(pl, a);
        PackLinks(Unblock(pl, a));
      } else {
        PackLinks(pl);
      }
    }

    /** removeBlocked(a) */
    method RemoveBlocked(a: Addr) returns (p: Pcb?)
      requires Rep() && !IsDummy(a)
      modifies this`st, asl, asl.table, cfg.pool`next, cfg.pool`prev, cfg.pool`semAdd
      ensures Rep()
      ensures a !in old(st).pl.blocked ==> p == null && st == old(st)
      ensures a in old(st).pl.blocked ==> old(st).pl.blocked[a] != [] && p == old(st).pl.blocked[a][0]
      ensures a in old(st).pl.blocked ==> st == old(st).(pl := Unblock(old(st).pl, a))
    {
      hide Links, CountsOk, CpuOk, TreeOk;
      p := LinksTake(a, st.pl);
      if p != null {
        st := st.(pl := Unblock(st.pl, a));
      }
    }

    /** headBlocked(a) */
    method HeadBlocked(a: Addr) returns (p: Pcb?)
      requires Rep()
      ensures p == if a in st.pl.blocked && st.pl.blocked[a] != [] then st.pl.blocked[a][0] else null
      ensures a in st.pl.blocked ==> st.pl.blocked[a] != []
    {
      hide CountsOk, CpuOk, TreeOk, Asl.Valid, IsProcQ;
      asl.MapFacts();
      p := asl.HeadBlocked(a);
    }

    method AslDrop(p: Pcb, ghost a: Addr, ghost blocked: map<Addr, seq<Pcb>>) returns (out: Pcb?)
      requires AslOk(blocked) && p.semAdd == Some(a) && a in blocked && p in blocked[a]
      modifies asl, asl.table, asl.waiting`next, asl.waiting`prev
      ensures asl.waiting <= old(asl.waiting)
      ensures out == p && AslOk(WithQueue(blocked, a, Minus<Pcb>(blocked[a], {p})))
    {
      hide Asl.Valid, WithQueue, Minus;
      out := asl.OutBlocked(p);
    }

    method LinksDrop(p: Pcb, ghost a: Addr, ghost pl: Places) returns (out: Pcb?)
      requires Links(pl) && p in pl.waitsOn && pl.waitsOn[p] == Some(a)
      requires a in pl.blocked && p in pl.blocked[a]
      modifies asl, asl.table, cfg.pool`next, cfg.pool`prev
      ensures out == p && Links(Leave(pl, p, a))
    {
      hide Links, FreeOk, ReadyOk, AslOk, Apart, WithQueue;
      UnpackLinks(pl);
      LinksApart(pl);
      out := AslDrop(p, a, pl.blocked);
      assert forall x | x in pcbs.free :: x.next == old(x.next);
      assert forall x | x in pl.ready :: x.next == old(x.next) && x.prev == old(x.prev);
      ApartLeave(pl, p, a);
      PackLinks(Leave(pl, p, a));
    }

    /** outBlocked(p) */
    method OutBlocked(p: Pcb) returns (out: Pcb?)
      requires Rep() && p in st.pl.waitsOn && st.pl.waitsOn[p] != None
      requires st.pl.waitsOn[p].value in st.pl.blocked && p in st.pl.blocked[st.pl.waitsOn[p].value]
      modifies this`st, asl, asl.table, cfg.pool`next, cfg.pool`prev
      ensures Rep() && out == p && st == old(st).(pl := Leave(old(st).pl, p, old(st).pl.waitsOn[p].value))
    {
      hide Links, CountsOk, CpuOk, TreeOk;
      out := LinksDrop(p, st.pl.waitsOn[p].value, st.pl);
      st := st.(pl := Leave(st.pl, p, st.pl.waitsOn[p].value));
    }

    // ---------------------------------------------------------------- the free list

    method FreeTake(ghost live: set<Pcb>) returns (p: Pcb?)
      requires FreeOk(live)
      modifies pcbs, Cell(pcbs.head)
      ensures p == old(pcbs.head)
      ensures p == null ==> live == cfg.pool && FreeOk(live)
      ensures p != null ==> p in cfg.pool && p !in live && FreeOk(live + {p})
      ensures p != null ==> p.parent == null && p.child == null && p.semAdd == None && p.time == 0 && p.support == None
      ensures p != null ==> p.state == old(pcbs.head.state).(reg := ZERO_STATE.reg)
    {
      p := pcbs.AllocPcb();
    }

    method LinksAwake(ghost pl: Places) returns (p: Pcb?)
      requires Links(pl)
      modifies pcbs, Cell(pcbs.head)
      ensures p == old(pcbs.head)
      ensures p == null ==> pl.live == cfg.pool && Links(pl)
      ensures p != null ==> p in cfg.pool && p !in pl.live && Links(Awake(pl, p))
      ensures p != null ==> p.parent == null && p.child == null && p.time == 0 && p.support == None
      ensures p != null ==> p.state == old(pcbs.head.state).(reg := ZERO_STATE.reg)
    {
      hide Links, FreeOk, ReadyOk, AslOk, Apart;
      UnpackLinks(pl);
      LinksApart(pl);
      HeadIsFree(pl);
      p := FreeTake(pl.live);
      assert forall x | x in pl.ready :: x.next == old(x.next) && x.prev == old(x.prev);
      if p != null {
        ApartAwake(pl, p);
        PackLinks(Awake(pl, p));
      } else {
        PackLinks(pl);
      }
    }

    lemma HeadInPool()
      requires Rep()
      ensures pcbs.head != null ==> pcbs.head in cfg.pool
    {
      hide ReadyOk, AslOk, WaitsOk, TreeOk, CountsOk, CpuOk, Apart;
    }

    lemma HeadFree()
      requires Rep()
      ensures pcbs.head != null ==> pcbs.head in pcbs.free
    {
      hide ReadyOk, AslOk, WaitsOk, TreeOk, CountsOk, CpuOk, Apart;
    }

    lemma LiveInPool()
      requires Rep()
      ensures st.pl.live <= cfg.pool
    {
      hide ReadyOk, AslOk, WaitsOk, TreeOk, CountsOk, CpuOk, Apart;
    }

    /** The head of the free list: a block that is not live, or none because all are. */
    lemma HeadFits()
      requires Rep()
      ensures pcbs.head == null ==> st.pl.live == cfg.pool
      ensures pcbs.head != null ==> pcbs.head in cfg.pool && pcbs.head !in st.pl.live
    {
      hide ReadyOk, AslOk, WaitsOk, TreeOk, CountsOk, CpuOk, Apart;
    }

    lemma HeadIsFree(pl: Places)
      requires FreeOk(pl.live)
      ensures pcbs.head != null ==> pcbs.head in pcbs.free
    {
    }

    method TreeAwake(ghost pl: Places, ghost fo: Forest) returns (p: Pcb?)
      requires Links(pl) && TreeOk(fo) && Within(fo, pl.live)
      modifies pcbs, Cell(pcbs.head)
      ensures p == old(pcbs.head)
      ensures p == null ==> pl.live == cfg.pool && Links(pl) && TreeOk(fo)
      ensures p != null ==> p in cfg.pool && p !in pl.live && Links(Awake(pl, p)) && TreeOk(Foundling(fo, p))
      ensures p != null ==> p.parent == null && p.time == 0 && p.support == None
      ensures p != null ==> p.state == old(pcbs.head.state).(reg := ZERO_STATE.reg)
    {
      hide Links, IsChildList;
      p := LinksAwake(pl);
      forall q | q in fo.kids ensures q != p && IsChildList(q, fo.kids[q]) {
        assert forall c | c in fo.kids[q] ::
          c.parent == old(c.parent) && c.leftSib == old(c.leftSib) && c.rightSib == old(c.rightSib);
      }
      assert p != null ==> IsChildList(p, []) by { NoChild(p); }
    }

    lemma NoChild(p: Pcb?)
      ensures p != null && p.child == null ==> IsChildList(p, [])
    {
    }

    method BlockAwake(ghost pl: Places, ghost fo: Forest, ghost cpu: Cpu) returns (p: Pcb?)
      requires Links(pl) && TreeOk(fo) && CpuOk(cpu) && Within(fo, pl.live)
      modifies pcbs, Cell(pcbs.head)
      ensures p == old(pcbs.head)
      ensures p == null ==> pl.live == cfg.pool && Links(pl) && TreeOk(fo) && CpuOk(cpu)
      ensures p != null ==> p in cfg.pool && p !in pl.live && Links(Awake(pl, p)) && TreeOk(Foundling(fo, p))
      ensures p != null ==> CpuOk(Started(cpu, p, p.state))
      ensures p != null ==> p.state == old(pcbs.head.state).(reg := ZERO_STATE.reg)
    {
      hide Links, TreeOk, Within;
      p := TreeAwake(pl, fo);
    }

    /** allocPcb() */
    method AllocPcb() returns (p: Pcb?)
      requires Rep() && Within(st.fo, st.pl.live)
      modifies this`st, pcbs, Cell(pcbs.head)
      ensures Rep() && p == old(pcbs.head)
      ensures p == null ==> st == old(st) && st.pl.live == cfg.pool
      ensures p != null ==> p in cfg.pool && p !in old(st).pl.live && st == Newborn(old(st), p, p.state)
      ensures p != null ==> p.state == old(pcbs.head.state).(reg := ZERO_STATE.reg)
    {
      hide Links, TreeOk, Within, CpuOk, CountsOk;
      p := BlockAwake(st.pl, st.fo, st.cpu);
      if p != null {
        st := Newborn(st, p, p.state);
      }
    }

    method FreeGive(p: Pcb, ghost live: set<Pcb>)
      requires FreeOk(live) && p in live
      modifies pcbs, p`next, p`prev, Cell(pcbs.head)`prev
      ensures FreeOk(live - {p})
    {
      pcbs.FreePcb(p);
    }

    method LinksGone(p: Pcb, ghost pl: Places)
      requires Links(pl) && p in pl.live && Nowhere(pl, p)
      modifies pcbs, p`next, p`prev, Cell(pcbs.head)`prev
      ensures Links(Gone(pl, p))
    {
      hide Links, FreeOk, ReadyOk, AslOk, Apart;
      UnpackLinks(pl);
      LinksApart(pl);
      WaitingIsBlocked(pl);
      HeadIsFree(pl);
      FreeGive(p, pl.live);
      assert forall x | x in pl.ready :: x.next == old(x.next) && x.prev == old(x.prev);
      ApartGone(pl, p);
      PackLinks(Gone(pl, p));
    }

    lemma DepartedTreeOk(fo: Forest, p: Pcb)
      requires TreeOk(fo)
      ensures TreeOk(Dropped(fo, p))
    {
      hide IsChildList;
    }

    /** freePcb(p) for a process p that is in no queue */
    method FreePcb(p: Pcb)
      requires Rep() && p in st.pl.live && Nowhere(st.pl, p)
      modifies this`st, pcbs, p`next, p`prev, Cell(pcbs.head)`prev
      ensures Rep() && st == Departed(old(st), p)
    {
      hide Links, TreeOk, CountsOk, Nowhere;
      LinksGone(p, st.pl);
      DepartedTreeOk(st.fo, p);
      st := Departed(st, p);
    }

    // ---------------------------------------------------------------- the process tree

    /** insertChild(prnt, p) */
    method InsertChild(prnt: Pcb, p: Pcb)
      requires Rep() && prnt in st.fo.kids && p in st.fo.parent && st.fo.parent[p] == null
      modifies this`st, cfg.pool`parent, cfg.pool`child, cfg.pool`leftSib, cfg.pool`rightSib
      ensures Rep() && st == old(st).(fo := Adopted(old(st).fo, prnt, p))
    {
      hide Links, CountsOk, CpuOk, ListsOk;
      Adopt(cfg.pool, st.fo, prnt, p);
      st := st.(fo := Adopted(st.fo, prnt, p));
    }

    /** emptyChild(p) */
    method EmptyChild(p: Pcb) returns (empty: bool)
      requires Rep() && p in st.fo.kids
      ensures empty <==> st.fo.kids[p] == []
    {
      hide Links, CountsOk, CpuOk;
      empty := ChildList.EmptyChild(p, st.fo.kids[p]);
    }

    /** removeChild(p) */
    method RemoveChild(p: Pcb) returns (child: Pcb?)
      requires Rep() && p in st.fo.kids
      modifies this`st, cfg.pool`parent, cfg.pool`child, cfg.pool`leftSib, cfg.pool`rightSib
      ensures Rep()
      ensures old(st).fo.kids[p] == [] ==> child == null && st == old(st)
      ensures old(st).fo.kids[p] != [] ==> child == old(st).fo.kids[p][0]
      ensures old(st).fo.kids[p] != [] ==> st == old(st).(fo := DetachFirst(old(st).fo, p))
      ensures forall x | x in cfg.pool && x != child :: x.leftSib == old(x.leftSib) && x.rightSib == old(x.rightSib)
      ensures forall x | x in cfg.pool && x != p :: x.child == old(x.child)
    {
      hide Links, CountsOk, CpuOk, ListsOk, ParentsOk;
      child := TakeFirst(cfg.pool, st.fo, p);
      if child != null {
        st := st.(fo := DetachFirst(st.fo, p));
      }
    }

    /** outChild(p) */
    method OutChild(p: Pcb) returns (out: Pcb?)
      requires Rep() && p in st.fo.parent
      requires st.fo.parent[p] != null ==> st.fo.parent[p] in st.fo.kids && p in st.fo.kids[st.fo.parent[p]]
      modifies this`st, cfg.pool`parent, cfg.pool`child, cfg.pool`leftSib, cfg.pool`rightSib
      ensures Rep() && st == old(st).(fo := Orphaned(old(st).fo, p))
      ensures out == if old(st).fo.parent[p] == null then null else p
      ensures forall x | x in cfg.pool && x != p ::
        x.leftSib == if x == old(Relinked(p)) then old(p.leftSib) else old(x.leftSib)
    {
      hide Links, CountsOk, CpuOk, ListsOk, ParentsOk;
      out := Orphan(cfg.pool, st.fo, p);
      st := st.(fo := Orphaned(st.fo, p));
    }

    // ---------------------------------------------------------------- processor states and times

    /** updateProcessTimeHelper */
    method UpdateProcessTime(p: Pcb, start: int, end: int)
      requires Rep() && p in st.cpu.time
      modifies this`st, p`time
      ensures Rep() && st == Charge(old(st), p, end - start)
    {
      hide Links, TreeOk, CountsOk;
      p.time := p.time + (end - start);
      st := Charge(st, p, end - start);
    }

    method AssignState(p: Pcb, cs: CpuState, ghost cpu: Cpu)
      requires CpuOk(cpu) && p in cpu.regs
      modifies p`state
      ensures CpuOk(cpu.(regs := cpu.regs[p := cs]))
    {
      p.state := cs;
    }

    method FillState(source: CpuState, p: Pcb, ghost cpu: Cpu)
      requires CpuOk(cpu) && p in cpu.regs
      modifies p`state
      ensures CpuOk(cpu.(regs := cpu.regs[p := source]))
    {
      CopyState(source, p);
    }

    lemma RegsInPool()
      requires Rep()
      ensures forall p | p in st.cpu.regs :: p in cfg.pool && p.state == st.cpu.regs[p]
    {
      hide Links, TreeOk, CountsOk;
    }

    /** moveStateHelper, into the state of p */
    method MoveState(source: CpuState, p: Pcb)
      requires Rep() && p in st.cpu.regs
      modifies this`st, p`state
      ensures Rep() && st == Save(old(st), p, source)
    {
      hide Links, TreeOk, CountsOk, CpuOk;
      RegsInPool();
      FillState(source, p, st.cpu);
      st := Save(st, p, source);
    }

    static method CopyState(source: CpuState, p: Pcb)
      modifies p`state
      ensures p.state == source
    {
      p.state := p.state.(entryHI := source.entryHI);
      p.state := p.state.(cause := source.cause);
      p.state := p.state.(status := source.status);
      p.state := p.state.(pc := source.pc);
      for i := 0 to STATE_REG_NUM
        invariant p.state == source.(reg := p.state.reg)
        invariant forall j :: 0 <= j < i ==> p.state.reg[j] == source.reg[j]
      {
        p.state := p.state.(reg := p.state.reg[i := source.reg[i]]);
      }
      assert p.state.reg == source.reg;
    }

    /** p_s of p is assigned to, field by field or as a whole. */
    method SetState(p: Pcb, cs: CpuState)
      requires Rep() && p in st.cpu.regs
      modifies this`st, p`state
      ensures Rep() && st == Save(old(st), p, cs)
    {
      hide Links, TreeOk, CountsOk, CpuOk;
      RegsInPool();
      AssignState(p, cs, st.cpu);
      st := Save(st, p, cs);
    }

    method SetV0(p: Pcb, v: int)
      requires Rep() && p in st.cpu.regs
      modifies this`st, p`state
      ensures Rep() && st == Save(old(st), p, old(st).cpu.regs[p].WithV0(v))
    {
      hide Rep;
      RegsInPool();
      SetState(p, p.state.WithV0(v));
    }

    method SemaphoreOf(p: Pcb) returns (a: Option<Addr>)
      requires Rep() && p in st.pl.waitsOn
      ensures a == st.pl.waitsOn[p]
    {
      hide TreeOk, CountsOk, CpuOk, FreeOk, ReadyOk, AslOk, Apart;
      a := p.semAdd;
    }

    method StateOf(p: Pcb) returns (cs: CpuState)
      requires Rep() && p in st.cpu.regs
      ensures cs == st.cpu.regs[p]
    {
      hide Links, TreeOk, CountsOk;
      cs := p.state;
    }

    method TimeOf(p: Pcb) returns (time: int)
      requires Rep() && p in st.cpu.time
      ensures time == st.cpu.time[p]
    {
      hide Links, TreeOk, CountsOk;
      time := p.time;
    }

    method SupportOf(p: Pcb) returns (given: Option<int>)
      requires Rep() && p in st.cpu.support
      ensures given == st.cpu.support[p]
    {
      hide Links, TreeOk, CountsOk;
      given := p.support;
    }

    method SetSupport(p: Pcb, given: Option<int>)
      requires Rep() && p in st.cpu.support
      modifies this`st, p`support
      ensures Rep() && st == old(st).(cpu := old(st).cpu.(support := old(st).cpu.support[p := given]))
    {
      hide Links, TreeOk, CountsOk;
      st := st.(cpu := st.cpu.(support := st.cpu.support[p := given]));
      p.support := given;
    }

    // ---------------------------------------------------------------- the other variables

    lemma LinksCurrent(pl: Places, p: Pcb?)
      requires Links(pl)
      ensures Links(pl.(current := p))
    {
    }

    method SetCurrent(p: Pcb?)
      requires Rep()
      modifies this`st, this`currentProcess
      ensures Rep() && st == old(st).(pl := old(st).pl.(current := p))
    {
      hide Links, TreeOk, CountsOk, CpuOk;
      LinksCurrent(st.pl, p);
      currentProcess := p;
      st := st.(pl := st.pl.(current := p));
    }

    method SetMemory(a: Addr, v: int)
      requires Rep() && a in st.ct.user
      modifies this`st, this`memory
      ensures Rep() && st == SetUser(old(st), a, v)
    {
      hide Links, TreeOk, CpuOk;
      memory := memory[a := v];
      st := SetUser(st, a, v);
    }

    method SetDevice(i: nat, v: int)
      requires Rep() && i < |st.ct.dev|
      modifies this`st, semaphoreDevices
      ensures Rep() && st == SetDev(old(st), i, v)
    {
      hide Links, TreeOk, CpuOk;
      semaphoreDevices[i] := v;
      st := SetDev(st, i, v);
    }

    method AddSoftBlocked(d: int)
      requires Rep()
      modifies this`st, this`softBlockedCount
      ensures Rep() && st == AddSoft(old(st), d)
    {
      hide Links, TreeOk, CpuOk;
      softBlockedCount := softBlockedCount + d;
      st := AddSoft(st, d);
    }

    method AddProcesses(d: int)
      requires Rep()
      modifies this`st, this`processCount
      ensures Rep() && st == old(st).(ct := old(st).ct.(procs := old(st).ct.procs + d))
    {
      hide Links, TreeOk, CpuOk;
      processCount := processCount + d;
      st := st.(ct := st.ct.(procs := st.ct.procs + d));
    }

    /** The clock has been read. */
    ghost method NoteClock(now: int)
      requires Rep()
      modifies this`st
      ensures Rep() && st == old(st).(cpu := old(st).cpu.(clock := now))
    {
      hide Links, TreeOk, CountsOk;
      st := st.(cpu := st.cpu.(clock := now));
    }

    /** STCK(start_TOD) */
    method StampStart(now: int)
      requires Rep()
      modifies this`st, this`startTod
      ensures Rep() && st == old(st).(cpu := old(st).cpu.(start := now))
    {
      hide Links, TreeOk, CountsOk;
      startTod := now;
      st := st.(cpu := st.cpu.(start := now));
    }
  }
}
