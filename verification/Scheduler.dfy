/** Dispatching: which process runs next, and what it means that none does. */
module NucleusScheduler {
  import opened Types
  import opened NucleusState
  import opened NucleusKernel

  /** switchContext(p); LDST does not return. */
  method SwitchContext(k: Kernel, p: Pcb, t: Times) returns (o: Outcome)
    requires k.Rep() && p in k.st.cpu.regs
    modifies k`st, k`currentProcess, k`startTod
    ensures k.Rep() && o == Run(p, old(k.st).cpu.regs[p])
    ensures k.st == old(k.st).(
      pl := old(k.st).pl.(current := p), cpu := old(k.st).cpu.(start := t.resume, clock := t.resume))
  {
    hide Kernel.Links, Kernel.TreeOk, Kernel.CountsOk;
    o := Run(p, p.state);
    k.SetCurrent(p);
    k.StampStart(t.resume);
    k.NoteClock(t.resume);
  }

  /** switchContext(currentProcess) */
  method ResumeCurrent(k: Kernel, t: Times) returns (o: Outcome)
    requires k.Rep() && k.st.pl.current != null && k.st.pl.current in k.st.cpu.regs
    modifies k`st, k`currentProcess, k`startTod
    ensures k.Rep() && Result(k.st, o) == Resume(old(k.st), t)
  {
    hide Kernel.Links, Kernel.TreeOk, Kernel.CountsOk, Kernel.CpuOk;
    o := SwitchContext(k, k.currentProcess, t);
  }

  method Scheduler(k: Kernel, t: Times) returns (o: Outcome)
    requires k.Rep() && (k.st.pl.ready != [] ==> k.st.pl.ready[0] in k.st.cpu.regs)
    modifies k`st, k`currentProcess, k`startTod, k`readyQueue, k.cfg.pool`next, k.cfg.pool`prev
    ensures k.Rep() && Result(k.st, o) == Schedule(old(k.st), t)
  {
    hide Kernel.Links, Kernel.TreeOk, Kernel.CpuOk;
    var empty := k.ReadyEmpty();
    if !empty {
      var next := k.ReadyRemove();
      k.SetCurrent(next);
      o := SwitchContext(k, k.currentProcess, t);
    } else {
      if k.processCount == 0 {
        o := Halt;
      } else if k.softBlockedCount > 0 {
        o := Wait;
      } else {
        o := Panic;
      }
      k.NoteClock(t.resume);
    }
  }
}
