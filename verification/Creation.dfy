/** With what a new process starts. */
module ProcessCreation {
  import opened Types
  import opened NucleusState
  import opened NucleusInvariants
  import opened NucleusRuns
  import opened Endings
  import opened ResumeFidelity

  lemma BornWork(s: State, e: Event, p: Pcb)
    requires Shape(s) && Rooted(s.fo) && Enabled(s, e) && e.act.Create? && e.act.block == p
    ensures var m, cur := Work(s, e), s.pl.current;
      && cur != null && p != cur && p in m.cpu.regs && p in m.cpu.time && p in m.cpu.support && p in m.fo.parent
      && p in m.fo.kids && cur in m.fo.kids && cur in s.fo.kids && p in m.pl.waitsOn
      && m.cpu.regs[p] == e.act.init && m.cpu.time[p] == 0 && m.cpu.support[p] == e.act.given
      && m.fo.parent[p] == cur && m.fo.kids[p] == [] && m.fo.kids[cur] == [p] + s.fo.kids[cur]
      && m.pl.current == cur && m.pl.waitsOn[p] == None && m.pl.live == s.pl.live + {p} && m.pl.ready == s.pl.ready + [p]
  {
    hide Rooted;
  }

  /**
    A new process has the state given, no time, the support structure given, the caller as parent and no
    children. It is the caller's first child, last in the ready queue, and waits for nothing.
    */
  lemma CreationExact(s: State, e: Event, p: Pcb)
    requires Shape(s) && Rooted(s.fo) && Enabled(s, e) && e.act.Create? && e.act.block == p
    ensures var s1, cur := Step(s, e).state, s.pl.current;
      && cur != null && p !in s.pl.live && p in s1.cpu.regs && p in s1.cpu.time && p in s1.cpu.support && p in s1.fo.parent
      && p in s1.fo.kids && cur in s1.fo.kids && cur in s.fo.kids && p in s1.pl.waitsOn
      && s1.cpu.regs[p] == e.act.init && s1.cpu.time[p] == 0 && s1.cpu.support[p] == e.act.given
      && s1.fo.parent[p] == cur && s1.fo.kids[p] == [] && s1.fo.kids[cur] == [p] + s.fo.kids[cur]
      && s1.pl.current == cur && p != cur && s1.pl.waitsOn[p] == None
      && s1.pl.live == s.pl.live + {p} && s1.pl.ready == s.pl.ready + [p]
  {
    hide Rooted, Work, Step;
    BornWork(s, e, p);
    StepEnds(s, e);
    FinishKeeps(s, e);
  }

  /** A parked process that waits for nothing gets no status. */
  lemma {:induction false} NothingDelivered(b: State, es: seq<Event>, p: Pcb)
    requires Inv(b) && Possible(b, es) && Parked(b, es, p) && p in b.pl.waitsOn && b.pl.waitsOn[p] == None
    ensures Delivered(b, es, p) == None && p in Exec(b, es).pl.waitsOn && Exec(b, es).pl.waitsOn[p] == None
  {
    hide Located, Queued, CurrentOk, Rooted, Kinship, Words, Step, Delivery, Enabled;
    if es != [] {
      var s := Exec(b, Front(es));
      NothingDelivered(b, Front(es), p);
      InvShape(s);
      InvDomain(Exec(b, es));
      if Delivery(s, Last(es), p) != None {
        DeliveryWakes(s, Last(es), p);
      }
      StaysAwake(s, Last(es), p);
    }
  }

  /**
    The process p is created by e0 and parked until the last exception of es dispatches it for the first time.
    The state loaded is the one that the caller pointed to.
    */
  lemma StartsAsCreated(b: State, e0: Event, es: seq<Event>, p: Pcb, loaded: CpuState)
    requires Inv(b) && Shape(b) && Enabled(b, e0) && e0.act.Create? && e0.act.block == p
    requires Possible(After(b, e0), es) && es != []
    requires Parked(After(b, e0), Front(es), p) && LastResult(After(b, e0), es).outcome == Run(p, loaded)
    ensures loaded == e0.act.init
  {
    hide Located, Queued, CurrentOk, Kinship, Words, Step, Delivery, Parked, Patched, Enabled;
    var s0 := After(b, e0);
    var s, e := Exec(s0, Front(es)), Last(es);
    InvShape(b);
    InvShape(s);
    CreationExact(b, e0, p);
    NothingDelivered(s0, Front(es), p);
    ParkedOverRuns(s0, Front(es), p);
    ParkedNow(s0, Front(es), p);
    assert forall cs: CpuState :: Patched(cs, None) == cs by { PatchedNone(); }
    if Delivery(s, e, p) != None {
      DeliveryWakes(s, e, p);
    }
    RunLoads(s, e);
    ParkedStep(s, e, p);
  }
}
