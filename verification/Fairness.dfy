/** The ready queue is first come, first served: a ready process waits for a bounded number of dispatches. */
module BoundedWaiting {
  import opened Collections
  import opened Types
  import opened ActiveSemaphores
  import opened NucleusState
  import opened NucleusInvariants
  import opened NucleusRuns
  import opened UserSemaphores
  import opened Endings

  /** The processes that an exception makes ready, in the order in which they join the queue. */
  ghost function Arrivals(s: State, e: Event): seq<Pcb>
    requires Shape(s) && Enabled(s, e)
  {
    match e.act
    case Create(_, _, block) => if block != null then [block] else []
    case Verhogen(a) => if WakesOn(s, e, a) then [s.pl.blocked[a][0]] else []
    case Slice => if s.pl.current != null then [s.pl.current] else []
    case Tick => QueueOf(s.pl.blocked, DevAddr(s.cfg.devBase, CLOCK_INDEX))
    case Device(i, _) =>
      var a := DevAddr(s.cfg.devBase, i);
      if a in s.pl.blocked then [s.pl.blocked[a][0]] else []
    case _ => []
  }

  /** The ready queue as the scheduler finds it. */
  ghost function ReadyThen(s: State, e: Event): seq<Pcb>
    requires Shape(s) && Rooted(s.fo) && Enabled(s, e)
  {
    if Kills(s, e) then Minus(s.pl.ready, Subtree(s.fo, s.pl.current)) else s.pl.ready + Arrivals(s, e)
  }

  lemma WorkReady(s: State, e: Event)
    requires Shape(s) && Rooted(s.fo) && Enabled(s, e)
    ensures Work(s, e).pl.ready == ReadyThen(s, e)
  {
    hide Subtree, Minus;
    assert s.pl.ready + [] == s.pl.ready;
  }

  /** The exception ends with a dispatch by the scheduler. */
  ghost predicate Dispatches(s: State, e: Event)
    requires Shape(s) && Rooted(s.fo) && Enabled(s, e)
  {
    Work(s, e).pl.current == null && !Stray(s, e) && ReadyThen(s, e) != []
  }

  /** A dispatch takes the head of the queue and nothing else is taken; arrivals join at the tail. */
  lemma ReadyStep(s: State, e: Event)
    requires Shape(s) && Rooted(s.fo) && Enabled(s, e)
    ensures var q, r := ReadyThen(s, e), Step(s, e);
      if Dispatches(s, e) then
        r.outcome.Run? && r.outcome.p == q[0] == r.state.pl.current && r.state.pl.ready == q[1..]
      else r.state.pl.ready == q
  {
    hide Subtree, Minus, Work, Step, ReadyThen, Domains, Rooted;
    WorkReady(s, e);
    StepEnds(s, e);
    if PassesUp(s, e) {
      PassUpRuns(s, e);
    }
  }

  lemma PassUpRuns(s: State, e: Event)
    requires Shape(s) && Rooted(s.fo) && Enabled(s, e) && PassesUp(s, e)
    ensures Work(s, e).pl.current != null
  {
  }

  // ---------------------------------------------------------------- positions

  ghost predicate StandsBefore(q: seq<Pcb>, p: Pcb, k: int) {
    exists j :: 0 <= j <= k && j < |q| && q[j] == p
  }

  lemma {:induction false} MinusMovesUp(q: seq<Pcb>, gone: set<Pcb>, k: nat)
    requires k < |q| && q[k] !in gone
    ensures StandsBefore(Minus(q, gone), q[k], k)
  {
    var l, r := q[..k], q[k..];
    assert q == l + r && r[0] == q[k];
    MinusConcat(l, r, gone);
    MinusShorter(l, gone);
    assert Minus(r, gone)[0] == q[k];
    assert Minus(q, gone)[|Minus(l, gone)|] == q[k];
  }

  lemma {:induction false} MinusShorter(q: seq<Pcb>, gone: set<Pcb>)
    ensures |Minus(q, gone)| <= |q|
  {
    if q != [] {
      MinusShorter(q[1..], gone);
    }
  }

  lemma PositionStep(s: State, e: Event, p: Pcb, k: int)
    requires Inv(s) && Shape(s) && Enabled(s, e) && StandsBefore(s.pl.ready, p, k)
    requires p in Step(s, e).state.pl.ready
    ensures StandsBefore(Step(s, e).state.pl.ready, p, k - if Dispatches(s, e) then 1 else 0)
  {
    hide Located, CurrentOk, Kinship, Words, Domains, Work, Step, Subtree, Minus, Rooted, Arrivals;
    ReadyStep(s, e);
    var j :| 0 <= j <= k && j < |s.pl.ready| && s.pl.ready[j] == p;
    var q := ReadyThen(s, e);
    assert p in q by {
      assert Dispatches(s, e) ==> forall x | x in q[1..] :: x in q;
    }
    if Kills(s, e) {
      MinusMovesUp(s.pl.ready, Subtree(s.fo, s.pl.current), j);
    } else {
      assert q[j] == p;
    }
    var i :| 0 <= i <= j && i < |q| && q[i] == p;
    if Dispatches(s, e) {
      HeadLeaves(s, e);
      assert i != 0;
      assert q[1..][i - 1] == p;
    }
  }

  /** The process that is dispatched is no longer in the ready queue. */
  lemma HeadLeaves(s: State, e: Event)
    requires Inv(s) && Shape(s) && Enabled(s, e) && Dispatches(s, e)
    ensures ReadyThen(s, e)[0] !in Step(s, e).state.pl.ready
  {
    hide Work, Step, Subtree, Minus, Arrivals, Words, Kinship, Rooted, Domains, Queued, Enabled;
    ReadyStep(s, e);
    StepInv(s, e);
  }

  // ---------------------------------------------------------------- runs

  /** p is in the ready queue all along the run. */
  ghost predicate KeepsWaiting(b: State, es: seq<Event>, p: Pcb)
    requires Inv(b) && Possible(b, es)
  {
    p in Exec(b, es).pl.ready && (es == [] || KeepsWaiting(b, Front(es), p))
  }

  ghost function DispatchesOf(b: State, es: seq<Event>): nat
    requires Inv(b) && Possible(b, es)
  {
    if es == [] then 0
    else
      var s := Exec(b, Front(es));
      InvShape(s);
      DispatchesOf(b, Front(es)) + if Dispatches(s, Last(es)) then 1 else 0
  }

  /** Each dispatch brings a waiting process one place nearer to the head, and nothing sets it back. */
  lemma {:induction false} Approaches(b: State, es: seq<Event>, p: Pcb, k: nat)
    requires Inv(b) && Possible(b, es) && KeepsWaiting(b, es, p) && k < |b.pl.ready| && b.pl.ready[k] == p
    ensures StandsBefore(Exec(b, es).pl.ready, p, k - DispatchesOf(b, es))
  {
    hide Inv, Shape, Step, StandsBefore, Enabled, Dispatches;
    if es == [] {
      assert StandsBefore(b.pl.ready, p, k) by { StandsAt(b.pl.ready, k); }
    } else {
      var s := Exec(b, Front(es));
      Approaches(b, Front(es), p, k);
      InvShape(s);
      PositionStep(s, Last(es), p, k - DispatchesOf(b, Front(es)));
    }
  }

  lemma StandsAt(q: seq<Pcb>, k: nat)
    requires k < |q|
    ensures StandsBefore(q, q[k], k)
  {
  }

  /** A process at index k of the ready queue cannot see more than k dispatches and still be waiting there. */
  lemma ServedWithin(b: State, es: seq<Event>, p: Pcb, k: nat)
    requires Inv(b) && Possible(b, es) && KeepsWaiting(b, es, p) && k < |b.pl.ready| && b.pl.ready[k] == p
    ensures DispatchesOf(b, es) <= k
  {
    hide Inv, Possible, KeepsWaiting, DispatchesOf;
    Approaches(b, es, p, k);
  }

  /** The exception dispatches p, or terminates it. */
  ghost predicate Takes(s: State, e: Event, p: Pcb)
    requires Shape(s) && Rooted(s.fo) && Enabled(s, e)
  {
    || (Dispatches(s, e) && Step(s, e).outcome.Run? && Step(s, e).outcome.p == p)
    || (Kills(s, e) && p in Subtree(s.fo, s.pl.current))
  }

  /** A process leaves the ready queue only to run or because it is terminated. */
  lemma LeavesReadyOnlyToRun(s: State, e: Event, p: Pcb)
    requires Inv(s) && Shape(s) && Enabled(s, e) && p in s.pl.ready && p !in Step(s, e).state.pl.ready
    ensures Takes(s, e, p)
  {
    hide Located, CurrentOk, Kinship, Words, Domains, Work, Step, Subtree, Minus, Rooted, Arrivals;
    ReadyStep(s, e);
    var q := ReadyThen(s, e);
    if !(Kills(s, e) && p in Subtree(s.fo, s.pl.current)) {
      assert p in q && q == [q[0]] + q[1..];
    }
  }

  /** Some exception of the run dispatches p, or terminates it. */
  ghost predicate TakenDuring(b: State, es: seq<Event>, p: Pcb)
    requires Inv(b) && Possible(b, es)
  {
    es != [] && (
      var s := Exec(b, Front(es));
      InvShape(s);
      TakenDuring(b, Front(es), p) || Takes(s, Last(es), p))
  }

  lemma {:induction false} LeftMeansTaken(b: State, es: seq<Event>, p: Pcb)
    requires Inv(b) && Possible(b, es) && p in b.pl.ready && !KeepsWaiting(b, es, p)
    ensures TakenDuring(b, es, p)
  {
    hide Inv, Shape, Step, Enabled, Takes;
    if es != [] {
      var s := Exec(b, Front(es));
      InvShape(s);
      if KeepsWaiting(b, Front(es), p) {
        KeptIsReady(b, Front(es), p);
        LeavesReadyOnlyToRun(s, Last(es), p);
      } else {
        LeftMeansTaken(b, Front(es), p);
      }
    }
  }

  lemma KeptIsReady(b: State, es: seq<Event>, p: Pcb)
    requires Inv(b) && Possible(b, es) && KeepsWaiting(b, es, p)
    ensures p in Exec(b, es).pl.ready
  {
    hide Inv, Possible, Exec;
  }

  /** Bounded waiting: by the dispatch number k + 1 at the latest, the process at index k has been dispatched or terminated. */
  lemma DispatchedOrTerminated(b: State, es: seq<Event>, p: Pcb, k: nat)
    requires Inv(b) && Possible(b, es) && k < |b.pl.ready| && b.pl.ready[k] == p && DispatchesOf(b, es) > k
    ensures TakenDuring(b, es, p)
  {
    hide Inv, Possible, KeepsWaiting, DispatchesOf, TakenDuring;
    if KeepsWaiting(b, es, p) {
      ServedWithin(b, es, p, k);
    } else {
      LeftMeansTaken(b, es, p);
    }
  }
}
