/**
  The processor around the nucleus: one exception after the other, until the nucleus halts or panics.
  The loop is the hardware's; it carries the theorems about runs to the pointer structures.
  */
module Machine {
  import opened Types
  import opened NucleusState
  import opened NucleusRuns
  import opened NucleusKernel
  import opened UserSemaphores
  import opened SchedulerVerdicts
  import opened Endings
  import opened ExceptionHandlers
  import opened InterruptHandlers

  /** A SYSCALL names a semaphore or a device that exists. Other exceptions may find anything in the registers. */
  ghost predicate Lawful(words: set<Addr>, env: Environment) {
    var act := Request(env.saved, env.pointed, null);
    && env.area.Valid()
    && (CauseCode(env.saved.cause) == 8 && (act.Passeren? || act.Verhogen?) ==> act.a in words)
    && (CauseCode(env.saved.cause) == 8 && act.WaitIO? ==> LegalDevice(act.line, act.dev))
  }

  /** The clock does not run backwards, within an exception or from one to the next. */
  ghost predicate Chronological(clock: int, envs: seq<Environment>) {
    && (forall i | 0 <= i < |envs| :: Monotone(clock, envs[i].t))
    && (forall i, j | 0 <= i < j < |envs| :: envs[i].t.resume <= envs[j].t.arrive)
  }

  /** Only an interrupt can occur while nobody runs. */
  predicate CanOccur(env: Environment, idle: bool) {
    CauseCode(env.saved.cause) == 0 || !idle
  }

  lemma StepClock(s: State, e: Event)
    requires Shape(s) && Rooted(s.fo) && Enabled(s, e)
    ensures Step(s, e).state.cpu.clock == e.t.resume
  {
    hide Rooted, Work, Step;
    StepEnds(s, e);
  }

  lemma LawfulHappens(s: State, env: Environment, block: Pcb?)
    requires Lawful(s.ct.user.Keys, env) && CanOccur(env, s.pl.current == null) && Monotone(s.cpu.clock, env.t)
    ensures env.area.Valid()
    ensures var e := Exception(env, block); e != None ==> MayHappen(s, e.value.act, env.t)
  {
    hide AsAddress, AsSupport, Signal, ExcCode, CauseCode;
    ExcCodeIsBits(env.saved.cause);
    SignalLegal(env.saved.cause, env.area);
  }

  lemma LaterStill(clock: int, envs: seq<Environment>, i: nat)
    requires i < |envs| && Chronological(clock, envs[i..])
    ensures Monotone(clock, envs[i].t)
    ensures Chronological(envs[i].t.resume, envs[i + 1..]) && Chronological(clock, envs[i + 1..])
  {
    hide Monotone;
    var rest, later := envs[i..], envs[i + 1..];
    assert rest[0] == envs[i] && later == rest[1..];
    forall j | 0 <= j < |later| ensures Monotone(envs[i].t.resume, later[j].t) && Monotone(clock, later[j].t) {
      assert later[j] == rest[j + 1];
      LaterReading(clock, rest[0].t.resume, later[j].t);
    }
    assert forall j, l | 0 <= j < l < |later| :: later[j] == rest[j + 1] && later[l] == rest[l + 1];
  }

  lemma LaterReading(clock: int, last: int, t: Times)
    requires Monotone(clock, t) && last <= t.arrive
    ensures Monotone(last, t)
  {
  }

  lemma ExceptionTimes(env: Environment, block: Pcb?)
    requires env.area.Valid()
    ensures Exception(env, block) != None ==> Exception(env, block).value.t == env.t
  {
  }

  /** The nucleus has halted or panicked. */
  ghost predicate Stopped(b: State, es: seq<Event>)
    requires Inv(b) && Possible(b, es)
  {
    es != [] && LastResult(b, es).outcome in {Halt, Panic}
  }

  /** env is handled after es: the nucleus goes on, the exception can occur, and exceptionHandler has a case for it. */
  ghost predicate Occurs(b: State, es: seq<Event>, env: Environment)
    requires Inv(b) && Possible(b, es)
  {
    !Stopped(b, es) && CanOccur(env, Exec(b, es).pl.current == null) && CauseCode(env.saved.cause) <= 12
  }

  /** e is what exceptionHandler makes of env. The head of the free list matters to a creation only. */
  ghost predicate Makes(env: Environment, e: Event) {
    env.area.Valid() && Exception(env, if e.act.Create? then e.act.block else null) == Some(e)
  }

  /** es is what the environments envs make happen, one after the other: an event for each that occurs, none for the others. */
  ghost predicate Happens(b: State, envs: seq<Environment>, es: seq<Event>)
    requires Inv(b) && Possible(b, es)
    decreases |envs|
  {
    if envs == [] then es == []
    else
      || (!Occurs(b, es, Last(envs)) && Happens(b, Front(envs), es))
      || (es != [] && Possible(b, Front(es)) && Occurs(b, Front(es), Last(envs)) && Makes(Last(envs), Last(es))
          && Happens(b, Front(envs), Front(es)))
  }

  lemma HappensNothing(b: State, envs: seq<Environment>, es: seq<Event>, env: Environment)
    requires Inv(b) && Possible(b, es) && Happens(b, envs, es) && !Occurs(b, es, env)
    ensures Happens(b, envs + [env], es)
  {
    hide Inv, Possible, Occurs, Makes;
    assert Front(envs + [env]) == envs && Last(envs + [env]) == env;
  }

  lemma HappensNext(b: State, envs: seq<Environment>, es: seq<Event>, env: Environment, e: Event)
    requires Inv(b) && Possible(b, es) && Happens(b, envs, es) && Occurs(b, es, env) && Makes(env, e)
    requires Possible(b, es + [e])
    ensures Happens(b, envs + [env], es + [e])
  {
    hide Inv, Possible, Occurs, Makes;
    assert Front(envs + [env]) == envs && Last(envs + [env]) == env;
    assert Front(es + [e]) == es && Last(es + [e]) == e;
  }

  /** Once the nucleus has halted or panicked, nothing more happens. */
  lemma {:induction false} HappensNoMore(b: State, envs: seq<Environment>, i: nat, es: seq<Event>)
    requires Inv(b) && Possible(b, es) && i <= |envs| && Happens(b, envs[..i], es) && Stopped(b, es)
    ensures Happens(b, envs, es)
    decreases |envs| - i
  {
    hide Inv, Possible, Stopped, Makes;
    if i == |envs| {
      assert envs[..i] == envs;
    } else {
      HappensNothing(b, envs[..i], es, envs[i]);
      assert envs[..i + 1] == envs[..i] + [envs[i]];
      HappensNoMore(b, envs, i + 1, es);
    }
  }

  lemma ExceptionExists(env: Environment, block: Pcb?)
    requires env.area.Valid()
    ensures Exception(env, block) == None <==> CauseCode(env.saved.cause) > 12
    ensures Exception(env, block) != None ==> Makes(env, Exception(env, block).value)
  {
    hide ExcCode, CauseCode, Signal, AsAddress, AsSupport;
    SignalLegal(env.saved.cause, env.area);
    ExcCodeIsBits(env.saved.cause);
  }

  /** What the kernel stands for at the end is what the exceptions es make of what it stood for at the start. */
  method Run(k: Kernel, envs: seq<Environment>) returns (last: Option<Outcome>, ghost es: seq<Event>)
    requires k.Rep() && Inv(k.st) && Chronological(k.st.cpu.clock, envs)
    requires forall env | env in envs :: Lawful(k.st.ct.user.Keys, env)
    modifies k, k.pcbs, k.asl, k.asl.table, k.cfg.pool, k.semaphoreDevices
    ensures k.Rep() && Inv(k.st) && |es| <= |envs|
    ensures Possible(old(k.st), es) && k.st == Exec(old(k.st), es)
    ensures Happens(old(k.st), envs, es)
    ensures es == [] ==> last == None
    ensures es != [] ==> last == Some(LastResult(old(k.st), es).outcome)
  {
    hide Happens, Occurs, Makes, CauseCode, CanOccur, Handled;
    hide Kernel.Rep, Inv, Possible, Exec, Lawful, Monotone, Exception, MayHappen, Enabled, Step, Shape, Rooted, LastResult, Chronological;
    ghost var b := k.st;
    last, es := None, [];
    EmptyRun(b);
    assert envs[..0] == [] && Happens(b, [], []) by { NothingYet(b); }
    var i := 0;
    while i < |envs| && last != Some(Halt) && last != Some(Panic)
      invariant 0 <= i <= |envs| && |es| <= i && k.Rep() && Inv(k.st)
      invariant Possible(b, es) && k.st == Exec(b, es) && k.st.ct.user.Keys == b.ct.user.Keys
      invariant es == [] ==> last == None
      invariant es != [] ==> last == Some(LastResult(b, es).outcome)
      invariant Chronological(k.st.cpu.clock, envs[i..])
      invariant Happens(b, envs[..i], es)
    {
      var env := envs[i];
      assert envs[..i + 1] == envs[..i] + [env];
      k.Known();
      OccursIs(b, es, env, last);
      LaterStill(k.st.cpu.clock, envs, i);
      if CanOccur(env, k.currentProcess == null) {
        LawfulHappens(k.st, env, k.pcbs.head);
        ExceptionExists(env, k.pcbs.head);
        ghost var s, e := k.st, Exception(env, k.pcbs.head);
        ExceptionTimes(env, k.pcbs.head);
        var o := ExceptionHandler(k, env);
        if o != None {
          StepKeepsWords(s, e.value);
          StepClock(s, e.value);
          RunExtends(b, es, e.value);
          HappensNext(b, envs[..i], es, env, e.value);
          last, es := o, es + [e.value];
        } else {
          HappensNothing(b, envs[..i], es, env);
        }
      } else {
        HappensNothing(b, envs[..i], es, env);
      }
      i := i + 1;
    }
    AllHappened(b, envs, i, es, last);
  }

  /** Either no environment is left, or the nucleus has halted or panicked. */
  lemma AllHappened(b: State, envs: seq<Environment>, i: nat, es: seq<Event>, last: Option<Outcome>)
    requires Inv(b) && Possible(b, es) && i <= |envs| && Happens(b, envs[..i], es)
    requires es == [] ==> last == None
    requires es != [] ==> last == Some(LastResult(b, es).outcome)
    requires i == |envs| || last == Some(Halt) || last == Some(Panic)
    ensures Happens(b, envs, es)
  {
    hide Inv, Possible, Happens, LastResult;
    if i == |envs| {
      assert envs[..i] == envs;
    } else {
      HappensNoMore(b, envs, i, es);
    }
  }

  lemma OccursIs(b: State, es: seq<Event>, env: Environment, last: Option<Outcome>)
    requires Inv(b) && Possible(b, es) && last != Some(Halt) && last != Some(Panic)
    requires es == [] ==> last == None
    requires es != [] ==> last == Some(LastResult(b, es).outcome)
    ensures Occurs(b, es, env) <==> CanOccur(env, Exec(b, es).pl.current == null) && CauseCode(env.saved.cause) <= 12
  {
    hide Inv, Possible, LastResult, Exec, CauseCode, CanOccur;
  }

  lemma NothingYet(b: State)
    requires Inv(b) && Possible(b, [])
    ensures Happens(b, [], [])
  {
    hide Inv, Possible;
  }

  lemma EmptyRun(b: State)
    requires Inv(b)
    ensures Possible(b, []) && Exec(b, []) == b
  {
  }
}
