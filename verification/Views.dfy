/**
  The variables of the nucleus and the fields of the processes, as a program or a device can tell them
  apart. Contracts that fix what an exception does to them are stated here and in the modules that use this.
  */
module KernelViews {
  import opened Types
  import opened NucleusState
  import opened NucleusKernel
  import opened Endings

  /** What is in the block of a process. */
  datatype Slot = Slot(state: CpuState, time: int, support: Option<int>, parent: Pcb?)

  datatype View = View(
    base: Addr,
    memory: map<Addr, int>,
    devices: seq<int>,
    queues: map<Addr, seq<Pcb>>,
    ready: seq<Pcb>,
    current: Pcb?,
    procs: int,
    soft: int,
    start: int,
    slots: map<Pcb, Slot>)

  ghost predicate Uniform(s: State) {
    && s.cpu.regs.Keys == s.pl.live && s.cpu.time.Keys == s.pl.live && s.cpu.support.Keys == s.pl.live
    && s.fo.parent.Keys == s.pl.live
  }

  ghost function ViewOf(s: State): View
    requires Uniform(s)
  {
    View(s.cfg.devBase, s.ct.user, s.ct.dev, s.pl.blocked, s.pl.ready, s.pl.current, s.ct.procs, s.ct.soft, s.cpu.start,
      map p | p in s.pl.live :: Slot(s.cpu.regs[p], s.cpu.time[p], s.cpu.support[p], s.fo.parent[p]))
  }

  /** The blocks that are not free hold the processes; the order of the ready queue is that of its links. */
  ghost function Seen(k: Kernel): View
    reads k, k.pcbs, k.asl, k.semaphoreDevices, k.cfg.pool
  {
    View(k.devBase, k.memory, k.semaphoreDevices[..], k.asl.queues, k.st.pl.ready, k.currentProcess,
      k.processCount, k.softBlockedCount, k.startTod,
      map p | p in k.cfg.pool && p !in k.pcbs.free :: Slot(p.state, p.time, p.support, p.parent))
  }

  lemma SeenIs(k: Kernel)
    requires k.Rep() && Uniform(k.st)
    ensures Seen(k) == ViewOf(k.st)
  {
    hide Kernel.Rep;
    k.Known();
    k.PlacesAre();
    k.FieldsAre();
    forall p | p in k.st.pl.live ensures p.parent == k.st.fo.parent[p] {
      k.ParentIs(p);
    }
  }

  lemma InvUniform(s: State)
    requires Inv(s)
    ensures Uniform(s)
  {
    hide Located, Queued, CurrentOk, Rooted, Kinship, Words;
  }

  lemma DomainsUniform(s: State)
    requires Domains(s)
    ensures Uniform(s)
  {
  }

  // ---------------------------------------------------------------- how an exception ends

  /** The scheduler takes over with the ready queue q: its head runs, or the verdict is given. */
  ghost predicate Hands(q: seq<Pcb>, v: View, o: Outcome, t: Times) {
    if q != [] then
      && v.current == q[0] && v.ready == q[1..] && v.start == t.resume
      && q[0] in v.slots && o == Run(q[0], v.slots[q[0]].state)
    else
      && v.current == null && v.ready == []
      && o == (if v.procs == 0 then Halt else if v.soft > 0 then Wait else Panic)
  }

  /** The process c runs on, with the state in its block. */
  ghost predicate RunsOn(c: Pcb?, v: View, o: Outcome, t: Times) {
    && c != null && v.current == c && v.start == t.resume
    && c in v.slots && o == Run(c, v.slots[c].state)
  }

  /** An ending leaves all of m as it is but for the dispatch. */
  ghost predicate EndsFrom(m: View, v: View, o: Outcome, t: Times) {
    && v.base == m.base && v.memory == m.memory && v.devices == m.devices && v.queues == m.queues
    && v.procs == m.procs && v.soft == m.soft && v.slots == m.slots
    && (if m.current == null then Hands(m.ready, v, o, t) else v.ready == m.ready && RunsOn(m.current, v, o, t))
  }

  lemma ConcludeView(m: State, t: Times)
    requires Uniform(m) && Finishable(m)
    ensures var r := Conclude(m, t); Uniform(r.state) && EndsFrom(ViewOf(m), ViewOf(r.state), r.outcome, t)
  {
  }

  lemma FinishView(s: State, e: Event)
    requires Shape(s) && Rooted(s.fo) && Enabled(s, e) && !Stray(s, e) && !PassesUp(s, e) && Uniform(Work(s, e))
    ensures var r := Step(s, e); Uniform(r.state) && EndsFrom(ViewOf(Work(s, e)), ViewOf(r.state), r.outcome, e.t)
  {
    hide Rooted, Work, Step, Conclude, Finishable, EndsFrom;
    StepEnds(s, e);
    ConcludeView(Work(s, e), e.t);
  }
}
