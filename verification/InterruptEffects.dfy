/**
  What each interrupt does to the variables of the nucleus, read off the bits of the Cause register and the
  words of the device registers.
  */
module InterruptEffects {
  import opened Types
  import opened ActiveSemaphores
  import opened NucleusState
  import opened KernelViews
  import opened ServiceEffects
  import opened DeviceRouting

  // ---------------------------------------------------------------- what is promised

  /** The running process is charged from the last start to time, and its state is saved. */
  ghost function Stopped(v: View, c: Pcb, saved: CpuState, time: int): Slot
    requires c in v.slots
  {
    v.slots[c].(state := saved, time := v.slots[c].time + (time - v.start))
  }

  /** The end of a time slice: the running process goes to the end of the ready queue. */
  ghost predicate SliceEffect(v0: View, v1: View, o: Outcome, saved: CpuState, t: Times) {
    var c := v0.current;
    if c == null then o == Panic && v1 == v0
    else
      && c in v0.slots && v1.slots == v0.slots[c := Stopped(v0, c, saved, t.mid)]
      && v1.base == v0.base && v1.memory == v0.memory && v1.devices == v0.devices && v1.queues == v0.queues
      && v1.procs == v0.procs && v1.soft == v0.soft
      && Hands(v0.ready + [c], v1, o, t)
  }

  /** The process that was interrupted goes on; without one, the scheduler looks for one. m is v0 with the interrupt served. */
  ghost predicate Continues(m: View, v1: View, o: Outcome, saved: CpuState, t: Times) {
    var c := m.current;
    && v1.base == m.base && v1.memory == m.memory && v1.devices == m.devices && v1.queues == m.queues
    && v1.procs == m.procs && v1.soft == m.soft
    && (if c == null then v1.slots == m.slots && Hands(m.ready, v1, o, t)
        else
          && c in m.slots && v1.slots == m.slots[c := Stopped(m, c, saved, t.arrive)]
          && v1.ready == m.ready && RunsOn(c, v1, o, t))
  }

  /** The pseudo-clock: all who wait for it become ready, in order. */
  ghost predicate TickEffect(v0: View, v1: View, o: Outcome, saved: CpuState, t: Times) {
    var q := QueueAt(v0, v0.base + 192);
    && |v0.devices| == 49
    && Continues(v0.(devices := v0.devices[48 := 0], ready := v0.ready + q, queues := v0.queues - {v0.base + 192}, soft := v0.soft - |q|),
                 v1, o, saved, t)
  }

  /** p, first in the queue at a, leaves it for the ready queue, with the status in v0 and charged for the interrupt. */
  ghost function Given(v: View, a: Addr, p: Pcb, status: int, t: Times): View
    requires p in v.slots && a in v.queues && v.queues[a] != []
  {
    var rest, cs := v.queues[a][1..], v.slots[p].state;
    v.(queues := if rest == [] then v.queues - {a} else v.queues[a := rest],
       ready := v.ready + [p], soft := v.soft - 1,
       slots := v.slots[p := v.slots[p].(state := cs.(reg := cs.reg[1 := status]), time := v.slots[p].time + (t.mid - t.arrive))])
  }

  /** A device: semaphoreDevices[i] goes up, and its first waiter gets the status. */
  ghost predicate DeviceEffect(v0: View, v1: View, o: Outcome, i: int, status: int, saved: CpuState, t: Times) {
    && 0 <= i < 48 && |v0.devices| == 49
    && var a, m := v0.base + 4 * i, v0.(devices := v0.devices[i := v0.devices[i] + 1]);
    if QueueAt(v0, a) == [] then Continues(m, v1, o, saved, t)
    else v0.queues[a][0] in v0.slots && Continues(Given(m, a, v0.queues[a][0], status, t), v1, o, saved, t)
  }

  /**
    The interrupt of the first device that is pending. A terminal's is its receiver's if the low byte of its
    transmitter's status is 1. The semaphore is the one on which SYS5 waits, the status that of the sub-device.
    */
  ghost predicate DevicesEffect(v0: View, v1: View, o: Outcome, saved: CpuState, area: DeviceArea, t: Times)
    requires area.Valid()
  {
    exists line: nat, dev: nat | FirstPending(saved.cause, area, line, dev) ::
      var place := (line - 3) * 8 + dev;
      if line == 7 && area.transmitted[place] & 0xFF != 1 then
        DeviceEffect(v0, v1, o, SemIndex(line, dev, 0), area.transmitted[place] as int, saved, t)
      else DeviceEffect(v0, v1, o, SemIndex(line, dev, 1), area.received[place] as int, saved, t)
  }

  /** interruptTrapHandler: line 1 is the time slice, line 2 the pseudo-clock, the others are devices. */
  ghost predicate InterruptEffect(v0: View, v1: View, o: Outcome, saved: CpuState, area: DeviceArea, t: Times)
    requires area.Valid()
  {
    if LinePending(saved.cause, 1) then SliceEffect(v0, v1, o, saved, t)
    else if LinePending(saved.cause, 2) then TickEffect(v0, v1, o, saved, t)
    else DevicesEffect(v0, v1, o, saved, area, t)
  }

  // ---------------------------------------------------------------- that it is so

  lemma SliceWork(s: State, saved: CpuState, t: Times)
    requires Shape(s) && Rooted(s.fo) && Enabled(s, Event(Slice, saved, t)) && s.pl.current != null
    ensures Uniform(s) && Uniform(Work(s, Event(Slice, saved, t)))
    ensures var v0, m, c := ViewOf(s), ViewOf(Work(s, Event(Slice, saved, t))), s.pl.current;
      && c in v0.slots && m.slots == v0.slots[c := Stopped(v0, c, saved, t.mid)]
      && m == v0.(slots := m.slots, ready := v0.ready + [c], current := null)
  {
    hide Rooted;
  }

  lemma SliceView(s: State, saved: CpuState, t: Times)
    requires Shape(s) && Rooted(s.fo) && Enabled(s, Event(Slice, saved, t))
    ensures var r := Step(s, Event(Slice, saved, t));
      Uniform(s) && Uniform(r.state) && SliceEffect(ViewOf(s), ViewOf(r.state), r.outcome, saved, t)
  {
    hide Rooted, Hands, RunsOn, Conclude, Finishable;
    if s.pl.current != null {
      SliceHandsOver(s, saved, t);
    }
  }

  lemma SliceHandsOver(s: State, saved: CpuState, t: Times)
    requires Shape(s) && Rooted(s.fo) && Enabled(s, Event(Slice, saved, t)) && s.pl.current != null
    ensures var r := Step(s, Event(Slice, saved, t));
      Uniform(s) && Uniform(r.state) && SliceEffect(ViewOf(s), ViewOf(r.state), r.outcome, saved, t)
  {
    hide Rooted, Hands, RunsOn, Work, Step, Uniform, Stopped;
    SliceWork(s, saved, t);
    FinishView(s, Event(Slice, saved, t));
  }

  lemma InterruptedView(m: State, saved: CpuState, t: Times)
    requires Domains(m) && (m.pl.current != null ==> m.pl.current in m.pl.live)
    ensures Uniform(m) && Uniform(Interrupted(m, saved, t))
    ensures var v, v1, c := ViewOf(m), ViewOf(Interrupted(m, saved, t)), m.pl.current;
      if c == null then v1 == v else c in v.slots && v1 == v.(slots := v.slots[c := Stopped(v, c, saved, t.arrive)])
  {
  }

  /** m is the state in which the interrupt has been served. */
  lemma ContinuesView(s: State, e: Event, m: State)
    requires Shape(s) && Rooted(s.fo) && Enabled(s, e) && (e.act.Tick? || e.act.Device?)
    requires Domains(m) && (m.pl.current != null ==> m.pl.current in m.pl.live) && Work(s, e) == Interrupted(m, e.saved, e.t)
    ensures var r := Step(s, e);
      Uniform(m) && Uniform(r.state) && Continues(ViewOf(m), ViewOf(r.state), r.outcome, e.saved, e.t)
  {
    hide Rooted, Hands, RunsOn, Work, Step, Domains, Interrupted, Stopped, Shape, Enabled, Uniform;
    InterruptedView(m, e.saved, e.t);
    FinishView(s, e);
  }

  lemma TickedView(s: State)
    requires Shape(s)
    ensures var m := Ticked(s);
      && Uniform(s) && Uniform(m) && Domains(m) && m.pl.current == s.pl.current && m.pl.live == s.pl.live
    ensures var v0, m := ViewOf(s), ViewOf(Ticked(s)); var q := QueueAt(v0, v0.base + 192);
      && |v0.devices| == 49
      && m == v0.(devices := v0.devices[48 := 0], ready := v0.ready + q, queues := v0.queues - {v0.base + 192}, soft := v0.soft - |q|)
  {
  }

  lemma TickView(s: State, saved: CpuState, t: Times)
    requires Shape(s) && Rooted(s.fo) && Enabled(s, Event(Tick, saved, t))
    ensures var r := Step(s, Event(Tick, saved, t));
      Uniform(s) && Uniform(r.state) && TickEffect(ViewOf(s), ViewOf(r.state), r.outcome, saved, t)
  {
    hide Rooted, Step, Ticked, Interrupted, Continues, Uniform, Domains;
    TickedView(s);
    ContinuesView(s, Event(Tick, saved, t), Ticked(s));
  }

  lemma DeliveredKeeps(s: State, i: nat, status: int, t: Times)
    requires Shape(s) && i < 48
    ensures var m := Deliver(s, i, status, t);
      && Uniform(s) && Uniform(m) && Domains(m) && m.pl.current == s.pl.current && m.pl.live == s.pl.live
  {
  }

  lemma NobodyGiven(s: State, i: nat, status: int, t: Times)
    requires Shape(s) && i < 48 && QueueOf(s.pl.blocked, s.cfg.devBase + 4 * i) == []
    requires Uniform(s) && Uniform(Deliver(s, i, status, t))
    ensures var v0 := ViewOf(s); ViewOf(Deliver(s, i, status, t)) == v0.(devices := v0.devices[i := v0.devices[i] + 1])
  {
  }

  lemma FirstDelivered(s: State, i: nat, status: int, t: Times)
    requires Shape(s) && i < 48 && QueueOf(s.pl.blocked, s.cfg.devBase + 4 * i) != []
    ensures var m, q := Deliver(s, i, status, t), QueueOf(s.pl.blocked, s.cfg.devBase + 4 * i); var p := q[0];
      && p in s.pl.live && m.cfg == s.cfg && m.fo == s.fo && m.cpu.support == s.cpu.support && m.cpu.start == s.cpu.start
      && m.cpu.regs == s.cpu.regs[p := s.cpu.regs[p].WithV0(status)]
      && m.cpu.time == s.cpu.time[p := s.cpu.time[p] + (t.mid - t.arrive)]
      && m.ct == s.ct.(dev := s.ct.dev[i := s.ct.dev[i] + 1], soft := s.ct.soft - 1)
      && m.pl.ready == s.pl.ready + [p] && m.pl.current == s.pl.current && m.pl.live == s.pl.live
      && m.pl.blocked == WithQueue(s.pl.blocked, s.cfg.devBase + 4 * i, q[1..])
  {
    hide WithQueue;
  }

  lemma FirstGiven(s: State, i: nat, status: int, t: Times)
    requires Shape(s) && i < 48 && QueueOf(s.pl.blocked, s.cfg.devBase + 4 * i) != []
    requires Uniform(s) && Uniform(Deliver(s, i, status, t))
    ensures var v0, v, a := ViewOf(s), ViewOf(Deliver(s, i, status, t)), s.cfg.devBase + 4 * i;
      && v0.queues[a][0] in v0.slots
      && v == Given(v0.(devices := v0.devices[i := v0.devices[i] + 1]), a, v0.queues[a][0], status, t)
  {
    hide Deliver, Domains, Shape;
    FirstDelivered(s, i, status, t);
    var v0, v, a := ViewOf(s), ViewOf(Deliver(s, i, status, t)), s.cfg.devBase + 4 * i;
    var p := v0.queues[a][0];
    assert v.slots == Given(v0, a, p, status, t).slots;
  }

  lemma DeliveredView(s: State, i: nat, status: int, t: Times)
    requires Shape(s) && i < 48
    ensures var m := Deliver(s, i, status, t);
      && Uniform(s) && Uniform(m) && Domains(m) && m.pl.current == s.pl.current && m.pl.live == s.pl.live
    ensures var v0, v := ViewOf(s), ViewOf(Deliver(s, i, status, t));
      && |v0.devices| == 49
      && var a, m := v0.base + 4 * i, v0.(devices := v0.devices[i := v0.devices[i] + 1]);
      if QueueAt(v0, a) == [] then v == m
      else v0.queues[a][0] in v0.slots && v == Given(m, a, v0.queues[a][0], status, t)
  {
    hide Deliver, Domains, Uniform, Given;
    DeliveredKeeps(s, i, status, t);
    if QueueOf(s.pl.blocked, s.cfg.devBase + 4 * i) == [] {
      NobodyGiven(s, i, status, t);
    } else {
      FirstGiven(s, i, status, t);
    }
  }

  lemma DeviceView(s: State, i: nat, status: int, saved: CpuState, t: Times)
    requires Shape(s) && Rooted(s.fo) && Enabled(s, Event(Device(i, status), saved, t))
    ensures var r := Step(s, Event(Device(i, status), saved, t));
      Uniform(s) && Uniform(r.state) && DeviceEffect(ViewOf(s), ViewOf(r.state), r.outcome, i, status, saved, t)
  {
    hide Rooted, Step, Deliver, Interrupted, Continues, Uniform, Domains, Given;
    DeliveredView(s, i, status, t);
    ContinuesView(s, Event(Device(i, status), saved, t), Deliver(s, i, status, t));
  }
}
