/** Runs of the nucleus: sequences of exceptions from a state that satisfies the invariant. */
module NucleusRuns {
  import opened Collections
  import opened Types
  import opened ActiveSemaphores
  import opened NucleusState
  import opened NucleusInvariants

  ghost function Front<T>(q: seq<T>): seq<T>
    requires q != []
  {
    q[..|q| - 1]
  }

  ghost function Last<T>(q: seq<T>): T
    requires q != []
  {
    q[|q| - 1]
  }

  /** Each exception of es may happen when its turn comes. */
  ghost predicate Possible(b: State, es: seq<Event>)
    requires Inv(b)
    decreases |es|, 0
  {
    es == [] || (Possible(b, Front(es)) && Enabled(Exec(b, Front(es)), Last(es)))
  }

  /** The state after the exceptions es. Whatever they are, it satisfies the invariant. */
  ghost function Exec(b: State, es: seq<Event>): (s: State)
    requires Inv(b) && Possible(b, es)
    ensures Inv(s)
    decreases |es|, 1
  {
    if es == [] then b
    else
      var s := Exec(b, Front(es));
      StepInv(s, Last(es));
      Step(s, Last(es)).state
  }

  ghost function After(s: State, e: Event): (s1: State)
    requires Inv(s) && Enabled(s, e)
    ensures Inv(s1)
  {
    StepInv(s, e);
    Step(s, e).state
  }

  /** The last exception of a run, and how it ends. */
  ghost function LastResult(b: State, es: seq<Event>): Result
    requires Inv(b) && Possible(b, es) && es != []
  {
    StepInv(Exec(b, Front(es)), Last(es));
    Step(Exec(b, Front(es)), Last(es))
  }

  // ---------------------------------------------------------------- who waits where

  lemma WaitersBlock(pl: Places, x: Addr, a: Addr)
    requires Located(pl) && CurrentOk(pl) && pl.current != null
    ensures Waiters(Block(pl, x), a) == if x == a then Waiters(pl, a) + {pl.current} else Waiters(pl, a)
    ensures pl.current !in Waiters(pl, a)
  {
    hide ReadySound, ReadyComplete, BlockedSound, BlockedComplete;
  }

  lemma WaitersWake(pl: Places, x: Addr, a: Addr)
    requires Located(pl) && Queued(pl)
    ensures Wake(pl, x).waitsOn.Keys == pl.live && Wake(pl, x).live == pl.live
    ensures Waiters(Wake(pl, x), a) ==
      if x == a && a in pl.blocked then Waiters(pl, a) - {pl.blocked[a][0]} else Waiters(pl, a)
    ensures a in pl.blocked ==> pl.blocked[a][0] in Waiters(pl, a)
  {
    hide ReadySound, ReadyComplete, BlockedComplete;
    if a in pl.blocked {
      assert pl.blocked[a][0] in pl.blocked[a];
    }
    if x in pl.blocked {
      assert pl.blocked[x][0] in pl.blocked[x];
    }
  }

  lemma WaitersWakeAll(pl: Places, x: Addr, a: Addr)
    requires Located(pl)
    ensures WakeAll(pl, x).waitsOn.Keys == pl.live
    ensures Waiters(WakeAll(pl, x), a) == if x == a then {} else Waiters(pl, a)
  {
    hide ReadySound, ReadyComplete;
  }

  lemma WaitersKill(pl: Places, dead: set<Pcb>, a: Addr)
    requires Located(pl)
    ensures KillPlaces(pl, dead).waitsOn.Keys == pl.live - dead
    ensures Waiters(KillPlaces(pl, dead), a) == Waiters(pl, a) - dead
  {
    hide ReadySound, ReadyComplete, BlockedSound, BlockedComplete;
  }

  /** A semaphore has a queue in the active list if and only if somebody waits for it. */
  lemma SomebodyWaits(pl: Places, a: Addr)
    requires Located(pl) && Queued(pl)
    ensures a in pl.blocked <==> Waiters(pl, a) != {}
    ensures Elements(QueueOf(pl.blocked, a)) == Waiters(pl, a)
    ensures |QueueOf(pl.blocked, a)| == |Waiters(pl, a)|
  {
    hide ReadySound, ReadyComplete;
    var q := QueueOf(pl.blocked, a);
    assert Elements(q) == Waiters(pl, a);
    DistinctSize(q);
    if a in pl.blocked {
      assert q[0] in Waiters(pl, a);
    }
  }
}
