/** Each exception does its work and then ends in one of four ways. */
module Endings {
  import opened NucleusState

  /** What every exception is: its work, and then its ending. */
  lemma StepEnds(s: State, e: Event)
    requires Shape(s) && Rooted(s.fo) && Enabled(s, e)
    ensures Finishable(Work(s, e)) && Step(s, e) == Finish(s, Work(s, e), e)
  {
    WorkFinishable(s, e);
  }

  /** An ending changes nothing but the places of the process dispatched, the start of its time, and the clock. */
  lemma FinishKeeps(s: State, e: Event)
    requires Shape(s) && Rooted(s.fo) && Enabled(s, e)
    ensures var m, r := Work(s, e), Step(s, e).state;
      && r.cfg == m.cfg && r.fo == m.fo && r.ct == m.ct && r.pl.live == m.pl.live
      && r.pl.waitsOn == m.pl.waitsOn && r.pl.blocked == m.pl.blocked
      && r.cpu.regs == m.cpu.regs && r.cpu.time == m.cpu.time && r.cpu.support == m.cpu.support
      && r.cpu.ledger == m.cpu.ledger && r.cpu.clock == e.t.resume
  {
    hide Work, Rooted, Shape, Enabled;
    StepEnds(s, e);
  }
}
