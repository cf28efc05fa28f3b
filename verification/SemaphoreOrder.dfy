/** Semaphore queues are first come, first served: a waiting process needs a bounded number of V operations. */
module WaitingInOrder {
  import opened Collections
  import opened Types
  import opened ActiveSemaphores
  import opened NucleusState
  import opened NucleusInvariants
  import opened NucleusRuns
  import opened UserSemaphores
  import opened Endings
  import opened BoundedWaiting

  /** A V operation on the semaphore at a, by SYS4 or by an interrupt of its device. */
  ghost predicate Signals(s: State, e: Event, a: Addr) {
    e.act == Verhogen(a) || (e.act.Device? && DevAddr(s.cfg.devBase, e.act.index) == a)
  }

  /** The V operation takes the first process out of the queue of a. */
  ghost predicate Shifts(s: State, e: Event, a: Addr) {
    a in s.pl.blocked && if e.act.Verhogen? then WakesOn(s, e, a) else Signals(s, e, a)
  }

  ghost predicate Ticks(s: State, e: Event, a: Addr) {
    e.act.Tick? && a == DevAddr(s.cfg.devBase, CLOCK_INDEX)
  }

  /** What may become of the queue of a. */
  ghost predicate QueueMoves(s: State, e: Event, a: Addr, q: seq<Pcb>, r: seq<Pcb>)
    requires Shape(s) && Rooted(s.fo) && Enabled(s, e)
  {
    if Kills(s, e) then r == Minus(q, Subtree(s.fo, s.pl.current))
    else if Ticks(s, e, a) then r == []
    else if Shifts(s, e, a) then q != [] && r == q[1..]
    else r == q || (s.pl.current != null && r == q + [s.pl.current])
  }

  lemma PrunedQueue(m: map<Addr, seq<Pcb>>, dead: set<Pcb>, a: Addr)
    ensures QueueOf(PruneQueues(m, dead), a) == Minus(QueueOf(m, a), dead)
  {
    hide Minus;
    MinusUntouched<Pcb>([], dead);
  }

  lemma KillsQueueWork(s: State, e: Event, a: Addr)
    requires Shape(s) && Rooted(s.fo) && Enabled(s, e) && Kills(s, e)
    ensures QueueMoves(s, e, a, QueueOf(s.pl.blocked, a), QueueOf(Work(s, e).pl.blocked, a))
  {
    hide Subtree, Minus, PruneQueues, QueueOf, Waiters, SoftBlocked, PruneKids;
    PrunedQueue(s.pl.blocked, Subtree(s.fo, s.pl.current), a);
  }

  lemma TickQueueWork(s: State, e: Event, a: Addr)
    requires Shape(s) && Rooted(s.fo) && Enabled(s, e) && e.act.Tick?
    ensures QueueMoves(s, e, a, QueueOf(s.pl.blocked, a), QueueOf(Work(s, e).pl.blocked, a))
  {
    hide Rooted, Domains;
    assert Work(s, e).pl.blocked == s.pl.blocked - {DevAddr(s.cfg.devBase, CLOCK_INDEX)};
  }

  lemma DeviceQueueWork(s: State, e: Event, a: Addr)
    requires Shape(s) && Rooted(s.fo) && Enabled(s, e) && e.act.Device?
    ensures QueueMoves(s, e, a, QueueOf(s.pl.blocked, a), QueueOf(Work(s, e).pl.blocked, a))
  {
    hide Rooted;
    assert Work(s, e).pl == Wake(s.pl, DevAddr(s.cfg.devBase, e.act.index));
  }

  lemma InterruptQueueWork(s: State, e: Event, a: Addr)
    requires Shape(s) && Rooted(s.fo) && Enabled(s, e) && (e.act.Slice? || e.act.Tick? || e.act.Device?)
    ensures QueueMoves(s, e, a, QueueOf(s.pl.blocked, a), QueueOf(Work(s, e).pl.blocked, a))
  {
    hide Rooted, Domains, Interrupted, Deliver, Ticked;
    if e.act.Tick? {
      TickQueueWork(s, e, a);
    } else if e.act.Device? {
      DeviceQueueWork(s, e, a);
    }
  }

  lemma BlockedQueue(s: State, x: Addr, t: Times, a: Addr)
    requires Shape(s) && s.pl.current != null
    ensures var q, r := QueueOf(s.pl.blocked, a), QueueOf(BlockCurrent(s, x, t).pl.blocked, a);
      r == if x == a then q + [s.pl.current] else q
    ensures ChargeCurrent(s, t).pl == s.pl
  {
    hide Domains;
  }

  lemma PasserenQueueWork(s: State, e: Event, a: Addr)
    requires Shape(s) && Rooted(s.fo) && Enabled(s, e) && e.act.Passeren?
    ensures QueueMoves(s, e, a, QueueOf(s.pl.blocked, a), QueueOf(Work(s, e).pl.blocked, a))
  {
    hide Rooted, BlockCurrent, ChargeCurrent, QueueOf;
    var s0 := Save(s, s.pl.current, e.saved);
    BlockedQueue(SetUser(s0, e.act.a, s.ct.user[e.act.a] - 1), e.act.a, e.t, a);
  }

  lemma DeviceWaitQueue(s: State, i: nat, t: Times, a: Addr)
    requires Shape(s) && s.pl.current != null && i < CLOCK_INDEX
    ensures var q, r := QueueOf(s.pl.blocked, a), QueueOf(DoWaitIO(s, i, t).pl.blocked, a);
      r == q || r == q + [s.pl.current]
  {
    hide BlockCurrent, ChargeCurrent, QueueOf;
    BlockedQueue(SetDev(AddSoft(s, 1), i, s.ct.dev[i] - 1), DevAddr(s.cfg.devBase, i), t, a);
  }

  lemma ClockWaitQueue(s: State, t: Times, a: Addr)
    requires Shape(s) && s.pl.current != null
    ensures var q, r := QueueOf(s.pl.blocked, a), QueueOf(DoWaitClock(s, t).pl.blocked, a);
      r == q || r == q + [s.pl.current]
  {
    hide BlockCurrent, ChargeCurrent, QueueOf;
    var s1 := SetDev(s, CLOCK_INDEX, s.ct.dev[CLOCK_INDEX] - 1);
    BlockedQueue(AddSoft(s1, 1), DevAddr(s.cfg.devBase, CLOCK_INDEX), t, a);
    BlockedQueue(s1, DevAddr(s.cfg.devBase, CLOCK_INDEX), t, a);
  }

  lemma WaitIOQueueWork(s: State, e: Event, a: Addr)
    requires Shape(s) && Rooted(s.fo) && Enabled(s, e) && e.act.WaitIO?
    ensures QueueMoves(s, e, a, QueueOf(s.pl.blocked, a), QueueOf(Work(s, e).pl.blocked, a))
  {
    hide Rooted, QueueOf, DoWaitIO;
    DeviceWaitQueue(Save(s, s.pl.current, e.saved), SemIndex(e.act.line, e.act.dev, e.act.read), e.t, a);
  }

  lemma WaitClockQueueWork(s: State, e: Event, a: Addr)
    requires Shape(s) && Rooted(s.fo) && Enabled(s, e) && e.act.WaitClock?
    ensures QueueMoves(s, e, a, QueueOf(s.pl.blocked, a), QueueOf(Work(s, e).pl.blocked, a))
  {
    hide Rooted, QueueOf, DoWaitClock;
    ClockWaitQueue(Save(s, s.pl.current, e.saved), e.t, a);
  }

  lemma OtherQueueWork(s: State, e: Event, a: Addr)
    requires Shape(s) && Rooted(s.fo) && Enabled(s, e) && !Kills(s, e)
    requires !(e.act.Slice? || e.act.Tick? || e.act.Device? || e.act.Passeren? || e.act.WaitIO? || e.act.WaitClock?)
    ensures QueueMoves(s, e, a, QueueOf(s.pl.blocked, a), QueueOf(Work(s, e).pl.blocked, a))
  {
    hide Subtree, Minus;
  }

  lemma QueueWork(s: State, e: Event, a: Addr)
    requires Shape(s) && Rooted(s.fo) && Enabled(s, e)
    ensures QueueMoves(s, e, a, QueueOf(s.pl.blocked, a), QueueOf(Work(s, e).pl.blocked, a))
  {
    hide Subtree, Minus, Work, QueueOf, QueueMoves, Rooted, Domains;
    if Kills(s, e) {
      KillsQueueWork(s, e, a);
    } else if e.act.Slice? || e.act.Tick? || e.act.Device? {
      InterruptQueueWork(s, e, a);
    } else if e.act.Passeren? {
      PasserenQueueWork(s, e, a);
    } else if e.act.WaitIO? {
      WaitIOQueueWork(s, e, a);
    } else if e.act.WaitClock? {
      WaitClockQueueWork(s, e, a);
    } else {
      OtherQueueWork(s, e, a);
    }
  }

  lemma QueueStep(s: State, e: Event, a: Addr)
    requires Shape(s) && Rooted(s.fo) && Enabled(s, e)
    ensures QueueMoves(s, e, a, QueueOf(s.pl.blocked, a), QueueOf(Step(s, e).state.pl.blocked, a))
  {
    hide Subtree, Minus, Work, Step, Domains, Rooted, QueueMoves, QueueOf;
    StepEnds(s, e);
    QueueWork(s, e, a);
  }

  // ---------------------------------------------------------------- positions

  lemma QueuePosition(s: State, e: Event, a: Addr, q: seq<Pcb>, r: seq<Pcb>, p: Pcb, k: int)
    requires Shape(s) && Rooted(s.fo) && Enabled(s, e) && QueueMoves(s, e, a, q, r) && Distinct(q)
    requires StandsBefore(q, p, k) && p in r
    ensures StandsBefore(r, p, k - if Shifts(s, e, a) && !Kills(s, e) then 1 else 0)
  {
    hide Subtree, Minus, Rooted, Domains, Shifts, Ticks;
    var j :| 0 <= j <= k && j < |q| && q[j] == p;
    if Kills(s, e) {
      MinusMovesUp(q, Subtree(s.fo, s.pl.current), j);
    } else if Shifts(s, e, a) && !Ticks(s, e, a) {
      var i :| 0 <= i < |r| && r[i] == p;
      assert q[i + 1] == p;
      assert r[j - 1] == p;
    } else {
      assert r[j] == p;
    }
  }

  /** The exception takes p out of the queue of a: it is the first and is woken, or the clock ticks, or it is terminated. */
  ghost predicate Frees(s: State, e: Event, a: Addr, p: Pcb)
    requires Shape(s) && Rooted(s.fo) && Enabled(s, e)
  {
    || (Shifts(s, e, a) && s.pl.blocked[a][0] == p)
    || Ticks(s, e, a)
    || (Kills(s, e) && p in Subtree(s.fo, s.pl.current))
  }

  lemma LeavesQueueOnlyFreed(s: State, e: Event, a: Addr, p: Pcb)
    requires Shape(s) && Rooted(s.fo) && Enabled(s, e)
    requires p in QueueOf(s.pl.blocked, a) && p !in QueueOf(Step(s, e).state.pl.blocked, a)
    ensures Frees(s, e, a, p)
  {
    hide Subtree, Minus, Rooted, Domains, Step, Ticks;
    QueueStep(s, e, a);
    var q, r := QueueOf(s.pl.blocked, a), QueueOf(Step(s, e).state.pl.blocked, a);
    if Shifts(s, e, a) && !Kills(s, e) && !Ticks(s, e, a) {
      assert q == [q[0]] + r;
    }
  }

  /** A V operation on a semaphore somebody waits for takes its first waiter, provided its value is not too high for its queue. */
  lemma SignalShifts(s: State, e: Event, a: Addr)
    requires Inv(s) && Shape(s) && Enabled(s, e) && a in s.pl.blocked && Signals(s, e, a)
    requires a in s.ct.user ==> Shortfall(s, a) >= 0
    ensures Shifts(s, e, a)
  {
    hide Located, Queued, CurrentOk, Rooted, Kinship, Words, Domains, Waiters;
    SomebodyWaits(s.pl, a);
  }

  // ---------------------------------------------------------------- runs

  ghost predicate StaysQueued(b: State, es: seq<Event>, a: Addr, p: Pcb)
    requires Inv(b) && Possible(b, es)
  {
    p in QueueOf(Exec(b, es).pl.blocked, a) && (es == [] || StaysQueued(b, Front(es), a, p))
  }

  /** V operations on a during the run. */
  ghost function SignalsOf(b: State, es: seq<Event>, a: Addr): nat
    requires Inv(b) && Possible(b, es)
  {
    if es == [] then 0
    else SignalsOf(b, Front(es), a) + if Signals(Exec(b, Front(es)), Last(es), a) then 1 else 0
  }

  /** Some exception of the run takes p out of the queue of a. */
  ghost predicate FreedDuring(b: State, es: seq<Event>, a: Addr, p: Pcb)
    requires Inv(b) && Possible(b, es)
  {
    es != [] && (
      var s := Exec(b, Front(es));
      InvShape(s);
      FreedDuring(b, Front(es), a, p) || Frees(s, Last(es), a, p))
  }

  lemma SignalIsNoKill(s: State, e: Event, a: Addr)
    requires Shape(s) && Enabled(s, e) && Signals(s, e, a)
    ensures !Kills(s, e)
  {
  }

  lemma PositionAfter(s: State, e: Event, a: Addr, p: Pcb, k: int)
    requires Inv(s) && Shape(s) && Enabled(s, e) && (a in s.ct.user ==> Shortfall(s, a) >= 0)
    requires StandsBefore(QueueOf(s.pl.blocked, a), p, k) && p in QueueOf(Step(s, e).state.pl.blocked, a)
    ensures StandsBefore(QueueOf(Step(s, e).state.pl.blocked, a), p, k - if Signals(s, e, a) then 1 else 0)
  {
    hide Located, CurrentOk, Rooted, Kinship, Words, Domains, Step, Kills, Shifts, Signals, QueueMoves, Shortfall;
    QueueStep(s, e, a);
    QueuePosition(s, e, a, QueueOf(s.pl.blocked, a), QueueOf(Step(s, e).state.pl.blocked, a), p, k);
    if Signals(s, e, a) {
      SignalShifts(s, e, a);
      SignalIsNoKill(s, e, a);
    } else if Shifts(s, e, a) {
      ShiftIsSignal(s, e, a);
    }
  }

  lemma ShiftIsSignal(s: State, e: Event, a: Addr)
    requires Shifts(s, e, a)
    ensures Signals(s, e, a)
  {
  }

  /** Each V operation brings a waiting process one place nearer to the head of its queue. */
  lemma {:induction false} QueueApproaches(b: State, es: seq<Event>, a: Addr, p: Pcb, k: nat)
    requires Inv(b) && Shape(b) && Possible(b, es) && StaysQueued(b, es, a, p)
    requires a in b.ct.user ==> Shortfall(b, a) >= 0
    requires a in b.pl.blocked && k < |b.pl.blocked[a]| && b.pl.blocked[a][k] == p
    ensures StandsBefore(QueueOf(Exec(b, es).pl.blocked, a), p, k - SignalsOf(b, es, a))
  {
    hide Inv, Shape, Step, Enabled, StandsBefore, Signals, Shortfall;
    if es == [] {
      StandsAt(b.pl.blocked[a], k);
    } else {
      var s := Exec(b, Front(es));
      QueueApproaches(b, Front(es), a, p, k);
      InvShape(s);
      WordsStay(b, Front(es), a);
      PositionAfter(s, Last(es), a, p, k - SignalsOf(b, Front(es), a));
    }
  }

  lemma WordsStay(b: State, es: seq<Event>, a: Addr)
    requires Inv(b) && Shape(b) && Possible(b, es) && (a in b.ct.user ==> Shortfall(b, a) >= 0)
    ensures var s := Exec(b, es); s.pl.waitsOn.Keys == s.pl.live && (a in s.ct.user ==> Shortfall(s, a) >= 0)
  {
    hide Inv, Shape, Possible, Exec, Shortfall;
    InvDomain(Exec(b, es));
    WordsOverRuns(b, es);
    if a in b.ct.user {
      ShortfallOverRuns(b, es, a);
    }
  }

  lemma NoMoreSignals(b: State, es: seq<Event>, a: Addr, p: Pcb, k: nat)
    requires Inv(b) && Shape(b) && Possible(b, es) && StaysQueued(b, es, a, p)
    requires a in b.ct.user ==> Shortfall(b, a) >= 0
    requires a in b.pl.blocked && k < |b.pl.blocked[a]| && b.pl.blocked[a][k] == p
    ensures SignalsOf(b, es, a) <= k
  {
    hide Inv, Shape, Possible, StaysQueued, SignalsOf, Exec;
    QueueApproaches(b, es, a, p, k);
  }

  lemma {:induction false} LeftMeansFreed(b: State, es: seq<Event>, a: Addr, p: Pcb)
    requires Inv(b) && Possible(b, es) && p in QueueOf(b.pl.blocked, a) && !StaysQueued(b, es, a, p)
    ensures FreedDuring(b, es, a, p)
  {
    hide Inv, Shape, Step, Enabled, Frees, QueueOf;
    if es != [] {
      var s := Exec(b, Front(es));
      InvShape(s);
      if StaysQueued(b, Front(es), a, p) {
        StillQueued(b, Front(es), a, p);
        LeavesQueueOnlyFreed(s, Last(es), a, p);
      } else {
        LeftMeansFreed(b, Front(es), a, p);
      }
    }
  }

  lemma StillQueued(b: State, es: seq<Event>, a: Addr, p: Pcb)
    requires Inv(b) && Possible(b, es) && StaysQueued(b, es, a, p)
    ensures p in QueueOf(Exec(b, es).pl.blocked, a)
  {
    hide Inv, Possible, Exec, QueueOf;
  }

  /**
    The process at index k of the queue of a semaphore has been woken or terminated when k + 1 V operations
    have been performed on the semaphore. For a user semaphore, its value must not be too high for its queue
    at first; in every run from the first dispatch it never is.
    */
  lemma WokenOrTerminated(b: State, es: seq<Event>, a: Addr, p: Pcb, k: nat)
    requires Inv(b) && Shape(b) && Possible(b, es) && SignalsOf(b, es, a) > k
    requires a in b.ct.user ==> Shortfall(b, a) >= 0
    requires a in b.pl.blocked && k < |b.pl.blocked[a]| && b.pl.blocked[a][k] == p
    ensures FreedDuring(b, es, a, p)
  {
    hide Inv, Shape, Possible, StaysQueued, SignalsOf, FreedDuring, Shortfall;
    if StaysQueued(b, es, a, p) {
      NoMoreSignals(b, es, a, p, k);
    } else {
      LeftMeansFreed(b, es, a, p);
    }
  }
}
