/**
 `TaskPool` under any number of threads.  `acquire` is three separate steps (count the waiter, take
 the semaphore or give up, recount) and `release` two, so other threads may run between them.
 */
module TaskPool {

  type Thread = nat

  /** Where a thread is in `TaskRunner.run`. */
  datatype Phase =
    | Outside    // before acquire, or after run has returned or raised
    | Waiting    // counted in _queued, asking the semaphore
    | Granted    // holds a semaphore unit that _active does not show yet
    | Denied     // the semaphore timed out; still counted in _queued
    | Running    // acquire returned True: the body runs
    | Unwinding  // the body is over, the finally block not yet begun
    | Releasing  // _active is lowered, the semaphore unit not yet returned

  /** The pool's own fields; `units` is the value of the semaphore. */
  datatype Fields = Fields(units: nat, active: int, queued: int, processed: int)

  datatype System = System(fields: Fields, at: map<Thread, Phase>)

  datatype Step =
    | Enter(t: Thread)    // with _lock: _queued += 1
    | Grant(t: Thread)    // semaphore.acquire succeeds
    | GiveUp(t: Thread)   // semaphore.acquire times out
    | Recount(t: Thread)  // with _lock: _queued -= 1, and _active += 1 if acquired
    | Return(t: Thread)   // the body returns
    | Throw(t: Thread)    // the body raises
    | Finish(t: Thread)   // with _lock: _active -= 1, _total_processed += 1
    | Post(t: Thread)     // semaphore.release

  predicate Enabled(s: System, step: Step)
  {
    step.t in s.at &&
    match step
    case Enter(t) => s.at[t] == Outside
    case Grant(t) => s.at[t] == Waiting && s.fields.units > 0
    case GiveUp(t) => s.at[t] == Waiting
    case Recount(t) => s.at[t] == Granted || s.at[t] == Denied
    case Return(t) => s.at[t] == Running
    case Throw(t) => s.at[t] == Running
    case Finish(t) => s.at[t] == Unwinding
    case Post(t) => s.at[t] == Releasing
  }

  function Entered(f: Fields): Fields { f.(queued := f.queued + 1) }
  function Taken(f: Fields): Fields requires f.units > 0 { f.(units := f.units - 1) }
  function Recounted(f: Fields, acquired: bool): Fields
  {
    f.(queued := f.queued - 1, active := if acquired then f.active + 1 else f.active)
  }
  function Finished(f: Fields): Fields { f.(active := f.active - 1, processed := f.processed + 1) }
  function Posted(f: Fields): Fields { f.(units := f.units + 1) }

  function Next(s: System, step: Step): System
    requires Enabled(s, step)
  {
    match step
    case Enter(t) => System(Entered(s.fields), s.at[t := Waiting])
    case Grant(t) => System(Taken(s.fields), s.at[t := Granted])
    case GiveUp(t) => System(s.fields, s.at[t := Denied])
    case Recount(t) =>
      System(Recounted(s.fields, s.at[t] == Granted), s.at[t := if s.at[t] == Granted then Running else Outside])
    case Return(t) => System(s.fields, s.at[t := Unwinding])
    case Throw(t) => System(s.fields, s.at[t := Unwinding])
    case Finish(t) => System(Finished(s.fields), s.at[t := Releasing])
    case Post(t) => System(Posted(s.fields), s.at[t := Outside])
  }

  // ---- Counting threads ------------------------------------------------------------

  ghost function In(at: map<Thread, Phase>, p: Phase): set<Thread>
  {
    set t | t in at && at[t] == p
  }

  ghost function Count(at: map<Thread, Phase>, p: Phase): nat
  {
    |In(at, p)|
  }

  lemma CountGrows(small: set<Thread>, big: set<Thread>, t: Thread)
    requires big == small + {t} && t !in small
    ensures |big| == |small| + 1
  {
  }

  lemma Moved(at: map<Thread, Phase>, t: Thread, to: Phase, p: Phase)
    requires t in at && at[t] != to
    ensures Count(at[t := to], p) == Count(at, p) + (if p == to then 1 else 0) - (if p == at[t] then 1 else 0)
  {
    hide Count;
    if p == to {
      MovedIn(at, t, to);
    } else if p == at[t] {
      MovedOut(at, t, to);
    } else {
      MovedElsewhere(at, t, to, p);
    }
  }

  lemma MovedIn(at: map<Thread, Phase>, t: Thread, to: Phase)
    requires t in at && at[t] != to
    ensures Count(at[t := to], to) == Count(at, to) + 1
  {
    CountGrows(In(at, to), In(at[t := to], to), t);
  }

  lemma MovedOut(at: map<Thread, Phase>, t: Thread, to: Phase)
    requires t in at && at[t] != to
    ensures Count(at, at[t]) == Count(at[t := to], at[t]) + 1
  {
    CountGrows(In(at[t := to], at[t]), In(at, at[t]), t);
  }

  lemma MovedElsewhere(at: map<Thread, Phase>, t: Thread, to: Phase, p: Phase)
    requires t in at && p != to && p != at[t]
    ensures Count(at[t := to], p) == Count(at, p)
  {
    assert In(at[t := to], p) == In(at, p);
  }

  /** Every semaphore unit is accounted for, and the two counters say where the threads are. */
  ghost predicate Balanced(s: System, maxInstances: nat)
  {
    && s.fields.units + Count(s.at, Granted) + Count(s.at, Running) + Count(s.at, Unwinding) + Count(s.at, Releasing) == maxInstances
    && s.fields.active == Count(s.at, Running) + Count(s.at, Unwinding)
    && s.fields.queued == Count(s.at, Waiting) + Count(s.at, Granted) + Count(s.at, Denied)
  }

  lemma StepBalances(s: System, step: Step, maxInstances: nat)
    requires Enabled(s, step) && Balanced(s, maxInstances)
    ensures Balanced(Next(s, step), maxInstances)
  {
    hide Count;
    var to := Next(s, step).at[step.t];
    Moved(s.at, step.t, to, Waiting);
    Moved(s.at, step.t, to, Granted);
    Moved(s.at, step.t, to, Denied);
    Moved(s.at, step.t, to, Running);
    Moved(s.at, step.t, to, Unwinding);
    Moved(s.at, step.t, to, Releasing);
  }

  // ---- Runs --------------------------------------------------------------------------

  function Init(maxInstances: nat, threads: set<Thread>): System
  {
    System(Fields(maxInstances, 0, 0, 0), map t | t in threads :: Outside)
  }

  predicate Legal(s: System, steps: seq<Step>)
    decreases |steps|
  {
    steps == [] || (Enabled(s, steps[0]) && Legal(Next(s, steps[0]), steps[1..]))
  }

  function Run(s: System, steps: seq<Step>): System
    requires Legal(s, steps)
    decreases |steps|
  {
    if steps == [] then s else Run(Next(s, steps[0]), steps[1..])
  }

  lemma {:induction false} RunBalances(s: System, steps: seq<Step>, maxInstances: nat)
    requires Legal(s, steps) && Balanced(s, maxInstances)
    ensures Balanced(Run(s, steps), maxInstances)
    decreases |steps|
  {
    hide Balanced;
    if steps != [] {
      StepBalances(s, steps[0], maxInstances);
      RunBalances(Next(s, steps[0]), steps[1..], maxInstances);
    }
  }

  lemma InitBalances(maxInstances: nat, threads: set<Thread>)
    ensures Balanced(Init(maxInstances, threads), maxInstances)
  {
    var at := Init(maxInstances, threads).at;
    forall p | p != Outside ensures Count(at, p) == 0 {
      assert In(at, p) == {};
    }
  }

  /**
   In every interleaving of any set of threads: bodies running never exceed the limit, neither
   counter goes negative, and once every thread is outside, however it left, all slots are back.
   */
  lemma PoolIsSafe(maxInstances: nat, threads: set<Thread>, steps: seq<Step>)
    requires Legal(Init(maxInstances, threads), steps)
    ensures var s := Run(Init(maxInstances, threads), steps);
            && Balanced(s, maxInstances)
            && Count(s.at, Running) <= maxInstances
            && 0 <= s.fields.active <= maxInstances && 0 <= s.fields.queued
            && ((forall t :: t in s.at ==> s.at[t] == Outside) ==>
                  s.fields.units == maxInstances && s.fields.active == 0 && s.fields.queued == 0)
  {
    hide Run, Legal, Init;
    InitBalances(maxInstances, threads);
    RunBalances(Init(maxInstances, threads), steps, maxInstances);
    var s := Run(Init(maxInstances, threads), steps);
    if forall t :: t in s.at ==> s.at[t] == Outside {
      forall p | p != Outside ensures Count(s.at, p) == 0 {
        assert In(s.at, p) == {};
      }
    }
  }

  ghost predicate CanMoveOn(s: System, u: Thread)
  {
    Enabled(s, Return(u)) || Enabled(s, Finish(u)) || Enabled(s, Post(u)) || Enabled(s, Recount(u))
  }

  lemma SomebodyHoldsAUnit(s: System, maxInstances: nat) returns (u: Thread)
    requires Balanced(s, maxInstances) && maxInstances >= 1 && s.fields.units == 0
    ensures CanMoveOn(s, u)
  {
    if Count(s.at, Granted) > 0 {
      u :| u in In(s.at, Granted);
    } else if Count(s.at, Running) > 0 {
      u :| u in In(s.at, Running);
    } else if Count(s.at, Unwinding) > 0 {
      u :| u in In(s.at, Unwinding);
    } else {
      assert Count(s.at, Releasing) > 0;
      u :| u in In(s.at, Releasing);
    }
  }

  /** A waiter is never stuck: the semaphore has a unit for it, or a thread that holds one can move on. */
  lemma NoSlotIsLost(maxInstances: nat, threads: set<Thread>, steps: seq<Step>, t: Thread)
    requires maxInstances >= 1 && Legal(Init(maxInstances, threads), steps)
    ensures var s := Run(Init(maxInstances, threads), steps);
            t in s.at && s.at[t] == Waiting ==> Enabled(s, Grant(t)) || exists u :: CanMoveOn(s, u)
  {
    hide Run, Legal, Init, Balanced;
    PoolIsSafe(maxInstances, threads, steps);
    var s := Run(Init(maxInstances, threads), steps);
    if s.fields.units == 0 {
      var u := SomebodyHoldsAUnit(s, maxInstances);
    }
  }

  // ---- How many bodies have been processed --------------------------------------------

  ghost function Finishes(steps: seq<Step>): nat
  {
    if steps == [] then 0 else (if steps[0].Finish? then 1 else 0) + Finishes(steps[1..])
  }

  lemma {:induction false} ProcessedCountsBodies(s: System, steps: seq<Step>)
    requires Legal(s, steps)
    ensures Run(s, steps).fields.processed == s.fields.processed + Finishes(steps)
    decreases |steps|
  {
    if steps != [] {
      ProcessedCountsBodies(Next(s, steps[0]), steps[1..]);
    }
  }

  // ---- The object -------------------------------------------------------------------

  class Pool {
    const maxInstances: nat
    var units: nat
    var active: int
    var queued: int
    var processed: int

    ghost function View(): Fields
      reads this
    {
      Fields(units, active, queued, processed)
    }

    constructor (maxInstances: nat)
      requires maxInstances >= 1
      ensures this.maxInstances == maxInstances && View() == Init(maxInstances, {}).fields
    {
      this.maxInstances, units, active, queued, processed := maxInstances, maxInstances, 0, 0, 0;
    }

    /** `TaskPool(n)`: fewer than one instance raises. */
    static method Create(n: int) returns (pool: Pool?)
      ensures pool == null <==> n < 1
      ensures pool != null ==> fresh(pool) && pool.maxInstances == n && pool.View() == Init(n, {}).fields
    {
      if n < 1 {
        return null;
      }
      pool := new Pool(n);
    }

    method BeginAcquire()
      modifies this`queued
      ensures View() == Entered(old(View()))
    {
      queued := queued + 1;
    }

    /** One try at the semaphore; `false` is the timeout. */
    method TakeUnit() returns (acquired: bool)
      modifies this`units
      ensures acquired <==> old(units) > 0
      ensures View() == if old(units) > 0 then Taken(old(View())) else old(View())
    {
      acquired := units > 0;
      if acquired {
        units := units - 1;
      }
    }

    method EndAcquire(acquired: bool)
      modifies this`queued, this`active
      ensures View() == Recounted(old(View()), acquired)
    {
      queued := queued - 1;
      if acquired {
        active := active + 1;
      }
    }

    method BeginRelease()
      modifies this`active, this`processed
      ensures View() == Finished(old(View()))
    {
      active := active - 1;
      processed := processed + 1;
    }

    method ReturnUnit()
      modifies this`units
      ensures View() == Posted(old(View()))
    {
      units := units + 1;
    }
  }

  // ---- One run ----------------------------------------------------------------------

  /** What the body does, and how `run` ends. */
  datatype Body<V> = Gives(value: V) | Throws(exc: string)
  datatype Exit<V> = Returned(value: V) | Raised(exc: string) | SlotTimeout

  method Acquire(pool: Pool) returns (acquired: bool)
    modifies pool
    ensures acquired <==> old(pool.units) > 0
    ensures pool.View() == if acquired then Recounted(Entered(Taken(old(pool.View()))), true) else old(pool.View())
  {
    pool.BeginAcquire();
    acquired := pool.TakeUnit();
    pool.EndAcquire(acquired);
  }

  method Release(pool: Pool)
    modifies pool
    ensures pool.View() == Posted(Finished(old(pool.View())))
  {
    pool.BeginRelease();
    pool.ReturnUnit();
  }

  /**
   `TaskRunner.run`, undisturbed by other threads, with a pool or without.  It ends as the body does, by
   return or by exception, or with a timeout if no slot is free; on every exit the slots are as before,
   and `during` is the pool as the body found it: one slot fewer, one active more.
   */
  method RunBody<V>(pool: Pool?, body: Body<V>) returns (exit: Exit<V>, ghost during: Fields)
    modifies pool
    ensures exit == SlotTimeout <==> pool != null && old(pool.units) == 0
    ensures exit != SlotTimeout && body.Gives? ==> exit == Returned(body.value)
    ensures exit != SlotTimeout && body.Throws? ==> exit == Raised(body.exc)
    ensures pool != null && exit != SlotTimeout ==>
              && during.units == old(pool.units) - 1 && during.active == old(pool.active) + 1 && during.queued == old(pool.queued)
              && pool.View() == old(pool.View()).(processed := old(pool.processed) + 1)
    ensures pool != null && exit == SlotTimeout ==> pool.View() == old(pool.View())
  {
    during := Fields(0, 0, 0, 0);
    if pool != null {
      var acquired := Acquire(pool);
      if !acquired {
        return SlotTimeout, during;
      }
      during := pool.View();
    }
    match body {
      case Gives(value) => exit := Returned(value);
      case Throws(exc) => exit := Raised(exc);
    }
    if pool != null {
      Release(pool);
    }
  }
}
