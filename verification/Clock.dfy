/** The pseudo-clock: what one tick does to everybody. */
module PseudoClock {
  import opened Types
  import opened ActiveSemaphores
  import opened NucleusState
  import opened Endings

  lemma TickWork(s: State, e: Event)
    requires Shape(s) && Rooted(s.fo) && Enabled(s, e) && e.act.Tick?
    ensures var m, a := Work(s, e), DevAddr(s.cfg.devBase, CLOCK_INDEX);
      && m.pl == WakeAll(s.pl, a) && m.fo == s.fo && !Stray(s, e) && !PassesUp(s, e)
      && m.ct == s.ct.(soft := s.ct.soft - |QueueOf(s.pl.blocked, a)|, dev := s.ct.dev[CLOCK_INDEX := 0])
  {
    hide WakeAll;
  }

  /**
    All waiters of the clock join the ready queue in the order in which they had blocked, the
    counter drops by their number, and no other queue or semaphore changes. If nobody was
    running, the head of the ready queue runs afterwards.
    */
  lemma TickExact(s: State, e: Event)
    requires Inv(s) && Shape(s) && Enabled(s, e) && e.act.Tick?
    ensures var s1, a := Step(s, e).state, DevAddr(s.cfg.devBase, CLOCK_INDEX);
      var q := QueueOf(s.pl.blocked, a);
      && s.pl.ready + q == (if s.pl.current == null && s1.pl.current != null then [s1.pl.current] else []) + s1.pl.ready
      && (s.pl.current != null ==> s1.pl.current == s.pl.current)
      && (forall p | p in q :: p in s1.pl.waitsOn && s1.pl.waitsOn[p] == None)
      && a !in s1.pl.blocked && (forall b: Addr | b != a :: QueueOf(s1.pl.blocked, b) == QueueOf(s.pl.blocked, b))
      && s1.ct.soft == s.ct.soft - |q| && s1.ct.procs == s.ct.procs && s1.ct.user == s.ct.user
      && s1.ct.dev == s.ct.dev[CLOCK_INDEX := 0]
      && s1.pl.live == s.pl.live && s1.fo == s.fo
  {
    hide Located, Queued, CurrentOk, Kinship, Rooted, Words, Work, Domains, Step;
    StepEnds(s, e);
    TickWork(s, e);
    var a := DevAddr(s.cfg.devBase, CLOCK_INDEX);
    WaitersKnown(s.pl, a);
  }

  lemma WaitersKnown(pl: Places, a: Addr)
    requires Located(pl)
    ensures forall p | p in QueueOf(pl.blocked, a) :: p in pl.waitsOn
  {
  }
}
