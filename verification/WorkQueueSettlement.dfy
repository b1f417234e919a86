/** A delivery id is issued once, settled at most once, and is inert from then on. */
module WorkQueueSettlement {
  import opened Sums
  import opened WorkQueueModel
  import opened WorkQueueInvariants
  import opened WorkQueueLedger
  import opened WorkQueueConservation

  ghost function IsDelivery<P>(d: Id): Entry<P> -> nat
  {
    (e: Entry<P>) => One(e.deliveryId == d)
  }

  /** How often the log says `d` was handed out. */
  ghost function TimesIssued<P>(s: State<P>, d: Id): nat
  {
    Sum(s.log, Given(IsDelivery(d)))
  }

  /** How often the log says `d` was acknowledged, requeued, dead-lettered or dropped by `close`. */
  ghost function TimesSettled<P>(s: State<P>, d: Id): nat
  {
    Sum(s.log, Settled(IsDelivery(d)))
  }

  /** Ids at or above the counter have never been issued; ids below it at most once. */
  ghost predicate IssuedOk<P>(s: State<P>, d: Id)
  {
    TimesIssued(s, d) <= One(d < s.nextId)
  }

  lemma {:induction false} IncreasingIdsAreDistinct<P>(es: seq<Entry<P>>, d: Id)
    requires forall i, j :: 0 <= i < j < |es| ==> es[i].deliveryId < es[j].deliveryId
    ensures Sum(es, IsDelivery(d)) <= 1
    ensures (forall i :: 0 <= i < |es| ==> es[i].deliveryId != d) <==> Sum(es, IsDelivery(d)) == 0
  {
    if es != [] {
      var init, last := es[..|es| - 1], es[|es| - 1];
      IncreasingIdsAreDistinct(init, d);
      assert es == init + [last];
    }
  }

  lemma IssuedSnoc<P>(s: State<P>, s': State<P>, ev: Event<P>, d: Id)
    requires IssuedOk(s, d) && s'.log == s.log + [ev] && s.nextId <= s'.nextId
    requires GivenBy(IsDelivery(d), ev) <= One(s.nextId <= d < s'.nextId)
    ensures IssuedOk(s', d)
  {
    SumSnoc(s.log, ev, Given(IsDelivery(d)));
  }

  lemma {:induction false} DispatchLoopIssued<P>(cfg: Config, s: State<P>, t: Topic, keys: seq<Key>, d: Id)
    requires IssuedOk(s, d) && keys != [] && Served(s.groups, keys)
    ensures IssuedOk(DispatchLoop(cfg, s, t, keys), d)
    decreases |Pend(s, t)|
  {
    if Pend(s, t) != [] {
      NewEntriesFacts(cfg, s.nextId, Pend(s, t)[0], t, keys, |keys| > 1);
      IncreasingIdsAreDistinct(HeadEntries(cfg, s, t, keys), d);
      IssuedSnoc(s, AfterHead(cfg, s, t, keys), HeadEvent(cfg, s, t, keys), d);
      HeadIsTaken(cfg, s, t, keys);
      DispatchLoopIssued(cfg, AfterHead(cfg, s, t, keys), t, keys, d);
    }
  }

  lemma {:induction false} ExpireAllIssued<P>(cfg: Config, s: State<P>, es: seq<Entry<P>>, d: Id)
    requires IssuedOk(s, d)
    ensures IssuedOk(ExpireAll(cfg, s, es), d)
    decreases |es|
  {
    if es != [] {
      var s' := Expire(cfg, s, es[0]);
      IssuedSnoc(s, s', s'.log[|s.log|], d);
      ExpireAllIssued(cfg, s', es[1..], d);
    }
  }

  lemma DispatchIssued<P>(cfg: Config, s: State<P>, t: Topic, d: Id)
    requires IssuedOk(s, d) && NoneEmpty(s.groups)
    ensures IssuedOk(Dispatch(cfg, s, t), d)
  {
    GroupsAreServed(s.groups, t);
    if KeysOn(s.groups, t) != [] {
      DispatchLoopIssued(cfg, s, t, KeysOn(s.groups, t), d);
    }
  }

  lemma DequeueIssued<P>(cfg: Config, s: State<P>, t: Topic, d: Id)
    requires IssuedOk(s, d)
    ensures IssuedOk(Dequeue(cfg, s, t), d)
  {
    if !s.closed && Pend(s, t) != [] {
      var m := Pend(s, t)[0];
      var e := NewEntry(cfg, s.nextId, m, t, t + "._pull");
      SumOne(e, IsDelivery(d));
      IssuedSnoc(s, Dequeue(cfg, s, t), Dispatched(t, m, [e], []), d);
    }
  }

  /** A block whose events are no deliveries issues no id. */
  lemma {:induction false} QuietIssued<P>(s: State<P>, s': State<P>, d: Id)
    requires IssuedOk(s, d) && s.nextId <= s'.nextId && s.log <= s'.log
    requires forall i :: |s.log| <= i < |s'.log| ==> !s'.log[i].Dispatched?
    ensures IssuedOk(s', d)
  {
    var more := s'.log[|s.log|..];
    assert s'.log == s.log + more;
    SumConcat(s.log, more, Given(IsDelivery(d)));
    SumConstant(more, Given(IsDelivery(d)), 0);
  }

  lemma NackIssued<P>(cfg: Config, s: State<P>, n: Id, r: bool, d: Id)
    requires IssuedOk(s, d)
    ensures IssuedOk(Nack(cfg, s, n, r), d)
  {
    hide IssuedOk;
    QuietIssued(s, Nack(cfg, s, n, r), d);
  }

  lemma SweepIssued<P>(cfg: Config, s: State<P>, now: real, d: Id)
    requires IssuedOk(s, d)
    ensures IssuedOk(Sweep(cfg, s, now), d)
  {
    var s0 := s.(inFlight := NotOverdue(s.inFlight, now));
    assert IssuedOk(s0, d);
    ExpireAllIssued(cfg, s0, Overdue(s.inFlight, now), d);
  }

  lemma ApplyIssued<P>(cfg: Config, s: State<P>, a: Action<P>, d: Id)
    requires IssuedOk(s, d) && NoneEmpty(s.groups)
    ensures IssuedOk(Apply(cfg, s, a), d)
  {
    hide IssuedOk, Dispatch, Dequeue, Nack, Sweep, Full, AddMember, DropFromGroups, EntryIndex;
    match a
    case DoDispatch(t) => DispatchIssued(cfg, s, t, d);
    case DoDequeue(t) => DequeueIssued(cfg, s, t, d);
    case DoNack(n, r) => NackIssued(cfg, s, n, r, d);
    case DoSweep(now) => SweepIssued(cfg, s, now, d);
    case _ => QuietIssued(s, Apply(cfg, s, a), d);
  }

  lemma {:induction false} RunIssued<P>(cfg: Config, acts: seq<Action<P>>, d: Id)
    ensures IssuedOk(Run(cfg, acts).q, d)
  {
    hide Apply, Shape;
    if acts != [] {
      RunIssued(cfg, acts[..|acts| - 1], d);
      RunShape(cfg, acts[..|acts| - 1]);
      ShapeHasGroups(cfg, Run(cfg, acts[..|acts| - 1]).q);
      ApplyIssued(cfg, Run(cfg, acts[..|acts| - 1]).q, acts[|acts| - 1], d);
    }
  }

  /** At every point of every run: in flight or settled, never both and never settled twice. */
  lemma SettledAtMostOnce<P>(cfg: Config, acts: seq<Action<P>>, d: Id)
    ensures var s := Run(cfg, acts).q;
            && One(InFlight(s, d)) + TimesSettled(s, d) == TimesIssued(s, d)
            && TimesIssued(s, d) <= 1
  {
    hide Run;
    var s := Run(cfg, acts).q;
    RunShape(cfg, acts);
    RunFlight(cfg, acts, IsDelivery(d));
    RunIssued(cfg, acts, d);
    IncreasingIdsAreDistinct(s.inFlight, d);
  }

  // ---- Stale ids -------------------------------------------------------------

  lemma {:induction false} DispatchLoopLogs<P>(cfg: Config, s: State<P>, t: Topic, keys: seq<Key>)
    ensures s.log <= DispatchLoop(cfg, s, t, keys).log
    decreases |Pend(s, t)|
  {
    if Pend(s, t) != [] {
      var m := Pend(s, t)[0];
      var s0 := s.(pending := s.pending[t := Pend(s, t)[1..]]);
      var (s1, calls) := DeliverTo(cfg, s0, m, t, keys, |keys| > 1);
      if calls != [] {
        DispatchLoopLogs(cfg, LogDispatch(s, s1, t, m, calls), t, keys);
      }
    }
  }

  lemma {:induction false} ExpireAllLogs<P>(cfg: Config, s: State<P>, es: seq<Entry<P>>)
    ensures s.log <= ExpireAll(cfg, s, es).log
    decreases |es|
  {
    if es != [] {
      ExpireAllLogs(cfg, Expire(cfg, s, es[0]), es[1..]);
    }
  }

  lemma ApplyLogs<P>(cfg: Config, s: State<P>, a: Action<P>)
    ensures s.log <= Apply(cfg, s, a).log
  {
    hide ExpireAll, DispatchLoop, KeysOn, Full;
    match a
    case DoDispatch(t) => DispatchLoopLogs(cfg, s, t, KeysOn(s.groups, t));
    case DoSweep(now) => ExpireAllLogs(cfg, s.(inFlight := NotOverdue(s.inFlight, now)), Overdue(s.inFlight, now));
    case _ =>
  }

  lemma {:induction false} RunLogs<P>(cfg: Config, acts: seq<Action<P>>, more: seq<Action<P>>)
    ensures Run(cfg, acts).q.log <= Run(cfg, acts + more).q.log
  {
    hide Run, Apply;
    if more == [] {
      assert acts + more == acts;
    } else {
      var init, last := more[..|more| - 1], more[|more| - 1];
      RunLogs(cfg, acts, init);
      RunSnoc(cfg, acts + init, last);
      assert acts + more == (acts + init) + [last];
      ApplyLogs(cfg, Run(cfg, acts + init).q, last);
    }
  }

  /**
   Once an id is settled, no later ack or nack of it does anything, however the run goes on: a
   stale id cannot touch the redelivery of the same message.
   */
  lemma StaleIdsAreInert<P>(cfg: Config, acts: seq<Action<P>>, more: seq<Action<P>>, d: Id, requeue: bool)
    requires TimesSettled(Run(cfg, acts).q, d) > 0
    ensures var s := Run(cfg, acts + more).q;
            !InFlight(s, d) && Ack(s, d) == s && Nack(cfg, s, d, requeue) == s
  {
    hide Run, Settled;
    var s, s' := Run(cfg, acts).q, Run(cfg, acts + more).q;
    RunLogs(cfg, acts, more);
    assert s'.log == s.log + s'.log[|s.log|..];
    SumConcat(s.log, s'.log[|s.log|..], Settled(IsDelivery(d)));
    SettledAtMostOnce(cfg, acts + more, d);
  }
}
