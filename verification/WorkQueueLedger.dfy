/**
 Double-entry bookkeeping for the work queue.  For any weight on messages, what lies pending on a
 topic plus what the log says was taken equals what the log says was put there; for any weight on
 deliveries, what is in flight plus what was settled equals what was handed out.  Conservation,
 the amplification bound and single settlement are all read off these two balances.
 */
module WorkQueueLedger {
  import opened Options
  import opened Sums
  import opened WorkQueueModel
  import opened WorkQueueInvariants

  /** What an event adds to the pending queue of `t`. */
  ghost function PutBy<P>(t: Topic, f: Message<P> -> nat, ev: Event<P>): nat
  {
    match ev
    case Accepted(u, m) => if u == t then f(m) else 0
    case Requeued(e, m) => if e.topic == t then f(m) else 0
    case DeadLettered(e, m) => if DeadLetterTopic(e.topic) == t then f(m) else 0
    case _ => 0
  }

  ghost function Put<P>(t: Topic, f: Message<P> -> nat): Event<P> -> nat
  {
    ev => PutBy(t, f, ev)
  }

  /** What an event takes from the pending queue of `t`. */
  ghost function TakenBy<P>(t: Topic, f: Message<P> -> nat, ev: Event<P>): nat
  {
    match ev
    case Dispatched(u, m, _, _) => if u == t then f(m) else 0
    case Dropped(pending, _) => Sum(PendingIn(pending, t), f)
    case _ => 0
  }

  ghost function Taken<P>(t: Topic, f: Message<P> -> nat): Event<P> -> nat
  {
    ev => TakenBy(t, f, ev)
  }

  /** What an event adds to the in-flight table. */
  ghost function GivenBy<P>(g: Entry<P> -> nat, ev: Event<P>): nat
  {
    match ev
    case Dispatched(_, _, es, _) => Sum(es, g)
    case _ => 0
  }

  ghost function Given<P>(g: Entry<P> -> nat): Event<P> -> nat
  {
    ev => GivenBy(g, ev)
  }

  /** What an event takes from the in-flight table. */
  ghost function SettledBy<P>(g: Entry<P> -> nat, ev: Event<P>): nat
  {
    match ev
    case Acked(e) => g(e)
    case Requeued(e, _) => g(e)
    case DeadLettered(e, _) => g(e)
    case Dropped(_, es) => Sum(es, g)
    case _ => 0
  }

  ghost function Settled<P>(g: Entry<P> -> nat): Event<P> -> nat
  {
    ev => SettledBy(g, ev)
  }

  ghost predicate PendBalance<P>(s: State<P>, t: Topic, f: Message<P> -> nat)
  {
    Sum(Pend(s, t), f) + Sum(s.log, Taken(t, f)) == Sum(s.log, Put(t, f))
  }

  ghost predicate FlightBalance<P>(s: State<P>, g: Entry<P> -> nat)
  {
    Sum(s.inFlight, g) + Sum(s.log, Settled(g)) == Sum(s.log, Given(g))
  }

  // ---- Pending side ---------------------------------------------------------

  /** One logged event keeps the pending balance if it says what it did to the queue. */
  lemma PendBooked<P>(s: State<P>, s': State<P>, ev: Event<P>, t: Topic, f: Message<P> -> nat)
    requires PendBalance(s, t, f) && s'.log == s.log + [ev]
    requires Sum(Pend(s', t), f) + Taken(t, f)(ev) == Sum(Pend(s, t), f) + Put(t, f)(ev)
    ensures PendBalance(s', t, f)
  {
    SumSnoc(s.log, ev, Taken(t, f));
    SumSnoc(s.log, ev, Put(t, f));
  }

  lemma EnqueuePend<P>(cfg: Config, s: State<P>, u: Topic, p: P, vt: Option<real>, t: Topic, f: Message<P> -> nat)
    requires PendBalance(s, t, f)
    ensures PendBalance(Enqueue(cfg, s, u, p, vt), t, f)
  {
    if !Full(cfg, s, u) {
      var m := NewMessage(cfg, s.nextId, u, p, vt);
      SumSnoc(Pend(s, u), m, f);
      PendBooked(s, Enqueue(cfg, s, u, p, vt), Accepted(u, m), t, f);
    }
  }

  lemma DequeuePend<P>(cfg: Config, s: State<P>, u: Topic, t: Topic, f: Message<P> -> nat)
    requires PendBalance(s, t, f)
    ensures PendBalance(Dequeue(cfg, s, u), t, f)
  {
    if !s.closed && Pend(s, u) != [] {
      var s' := Dequeue(cfg, s, u);
      HeadLeaves(Pend(s, u), f);
      PendBooked(s, s', s'.log[|s.log|], t, f);
    }
  }

  lemma HeadLeaves<P>(ms: seq<Message<P>>, f: Message<P> -> nat)
    requires ms != []
    ensures Sum(ms, f) == f(ms[0]) + Sum(ms[1..], f)
  {
    assert ms == [ms[0]] + ms[1..];
    SumCons(ms[0], ms[1..], f);
  }

  lemma RequeuePend<P>(s: State<P>, e: Entry<P>, t: Topic, f: Message<P> -> nat)
    requires PendBalance(s, t, f)
    ensures PendBalance(Requeue(s, e), t, f)
  {
    var m := e.message.(retry := e.retry + 1);
    SumCons(m, Pend(s, e.topic), f);
    PendBooked(s, Requeue(s, e), Requeued(e, m), t, f);
  }

  lemma DeadLetterPend<P>(s: State<P>, e: Entry<P>, why: Reason, t: Topic, f: Message<P> -> nat)
    requires PendBalance(s, t, f)
    ensures PendBalance(DeadLetter(s, e, why), t, f)
  {
    var m := DeadLetterCopy(e, s.nextId, why);
    SumSnoc(Pend(s, DeadLetterTopic(e.topic)), m, f);
    PendBooked(s, DeadLetter(s, e, why), DeadLettered(e, m), t, f);
  }

  lemma {:induction false} ExpireAllPend<P>(cfg: Config, s: State<P>, es: seq<Entry<P>>, t: Topic, f: Message<P> -> nat)
    requires PendBalance(s, t, f)
    ensures PendBalance(ExpireAll(cfg, s, es), t, f)
    decreases |es|
  {
    if es != [] {
      if CanRetry(cfg, es[0]) {
        RequeuePend(s, es[0], t, f);
      } else {
        DeadLetterPend(s, es[0], VisibilityTimeoutExceeded, t, f);
      }
      ExpireAllPend(cfg, Expire(cfg, s, es[0]), es[1..], t, f);
    }
  }

  lemma {:induction false} DispatchLoopPend<P>(cfg: Config, s: State<P>, u: Topic, keys: seq<Key>, t: Topic, f: Message<P> -> nat)
    requires PendBalance(s, t, f) && keys != [] && Served(s.groups, keys)
    ensures PendBalance(DispatchLoop(cfg, s, u, keys), t, f)
    decreases |Pend(s, u)|
  {
    if Pend(s, u) != [] {
      var s' := AfterHead(cfg, s, u, keys);
      HeadLeaves(Pend(s, u), f);
      PendBooked(s, s', HeadEvent(cfg, s, u, keys), t, f);
      HeadIsTaken(cfg, s, u, keys);
      DispatchLoopPend(cfg, s', u, keys, t, f);
    }
  }

  lemma DispatchPend<P>(cfg: Config, s: State<P>, u: Topic, t: Topic, f: Message<P> -> nat)
    requires PendBalance(s, t, f) && NoneEmpty(s.groups)
    ensures PendBalance(Dispatch(cfg, s, u), t, f)
  {
    GroupsAreServed(s.groups, u);
    if KeysOn(s.groups, u) != [] {
      DispatchLoopPend(cfg, s, u, KeysOn(s.groups, u), t, f);
    }
  }

  lemma ConsumePend<P>(s: State<P>, u: Topic, name: Option<string>, t: Topic, f: Message<P> -> nat)
    requires PendBalance(s, t, f)
    ensures PendBalance(Consume(s, u, name), t, f)
  {
    PendBooked(s, Consume(s, u, name), Registered(Key(u, GroupName(u, name)), s.nextId), t, f);
  }

  lemma RemovePend<P>(s: State<P>, c: Id, t: Topic, f: Message<P> -> nat)
    requires PendBalance(s, t, f)
    ensures PendBalance(RemoveConsumer(s, c), t, f)
  {
    if c in s.registry {
      PendBooked(s, RemoveConsumer(s, c), Removed(c), t, f);
    }
  }

  lemma AckPend<P>(s: State<P>, d: Id, t: Topic, f: Message<P> -> nat)
    requires PendBalance(s, t, f)
    ensures PendBalance(Ack(s, d), t, f)
  {
    hide Sum, PendBalance, EntryIndex;
    var i := EntryIndex(s.inFlight, d);
    if i < |s.inFlight| {
      PendBooked(s, Ack(s, d), Acked(s.inFlight[i]), t, f);
    }
  }

  lemma ClearPend<P>(s: State<P>, t: Topic, f: Message<P> -> nat)
    requires PendBalance(s, t, f)
    ensures PendBalance(Clear(s), t, f)
  {
    PendBooked(s, Clear(s), Dropped(s.pending, s.inFlight), t, f);
  }

  lemma ApplyPend<P>(cfg: Config, s: State<P>, a: Action<P>, t: Topic, f: Message<P> -> nat)
    requires PendBalance(s, t, f) && Shape(cfg, s)
    ensures PendBalance(Apply(cfg, s, a), t, f)
  {
    hide Enqueue, Consume, RemoveConsumer, Dequeue, Ack, Nack, Dispatch, Clear, Put, Taken;
    match a
    case DoEnqueue(u, p, vt) => EnqueuePend(cfg, s, u, p, vt, t, f);
    case DoConsume(u, g) => ConsumePend(s, u, g, t, f);
    case DoRemove(c) => RemovePend(s, c, t, f);
    case DoDequeue(u) => DequeuePend(cfg, s, u, t, f);
    case DoAck(d) => AckPend(s, d, t, f);
    case DoNack(d, r) => NackPend(cfg, s, d, r, t, f);
    case DoSweep(now) =>
      ExpireAllPend(cfg, s.(inFlight := NotOverdue(s.inFlight, now)), Overdue(s.inFlight, now), t, f);
    case DoDispatch(u) =>
      DispatchPend(cfg, s, u, t, f);
    case DoMarkClosed =>
    case DoClear => ClearPend(s, t, f);
  }

  lemma NackPend<P>(cfg: Config, s: State<P>, d: Id, r: bool, t: Topic, f: Message<P> -> nat)
    requires PendBalance(s, t, f)
    ensures PendBalance(Nack(cfg, s, d, r), t, f)
  {
    hide Sum, EntryIndex;
    var i := EntryIndex(s.inFlight, d);
    if i < |s.inFlight| {
      var e, s' := s.inFlight[i], s.(inFlight := Without(s.inFlight, i));
      RequeuePend(s', e, t, f);
      DeadLetterPend(s', e, if CanRetry(cfg, e) then NackNoRequeue else MaxRetriesExceeded, t, f);
    }
  }

  lemma {:induction false} RunPend<P>(cfg: Config, acts: seq<Action<P>>, t: Topic, f: Message<P> -> nat)
    ensures PendBalance(Run(cfg, acts).q, t, f)
  {
    hide Apply, Shape;
    if acts != [] {
      var s := Run(cfg, acts[..|acts| - 1]).q;
      RunPend(cfg, acts[..|acts| - 1], t, f);
      RunShape(cfg, acts[..|acts| - 1]);
      ApplyPend(cfg, s, acts[|acts| - 1], t, f);
    }
  }

  // ---- In-flight side --------------------------------------------------------

  lemma FlightBooked<P>(s: State<P>, s': State<P>, ev: Event<P>, g: Entry<P> -> nat)
    requires FlightBalance(s, g) && s'.log == s.log + [ev]
    requires Sum(s'.inFlight, g) + Settled(g)(ev) == Sum(s.inFlight, g) + Given(g)(ev)
    ensures FlightBalance(s', g)
  {
    SumSnoc(s.log, ev, Settled(g));
    SumSnoc(s.log, ev, Given(g));
  }

  lemma DequeueFlight<P>(cfg: Config, s: State<P>, u: Topic, g: Entry<P> -> nat)
    requires FlightBalance(s, g)
    ensures FlightBalance(Dequeue(cfg, s, u), g)
  {
    if !s.closed && Pend(s, u) != [] {
      var s' := Dequeue(cfg, s, u);
      var e := s'.inFlight[|s.inFlight|];
      SumSnoc(s.inFlight, e, g);
      SumOne(e, g);
      FlightBooked(s, s', s'.log[|s.log|], g);
    }
  }

  lemma AckFlight<P>(s: State<P>, d: Id, g: Entry<P> -> nat)
    requires FlightBalance(s, g)
    ensures FlightBalance(Ack(s, d), g)
  {
    hide Sum, FlightBalance, EntryIndex;
    var i := EntryIndex(s.inFlight, d);
    if i < |s.inFlight| {
      SumWithout(s.inFlight, i, g);
      FlightBooked(s, Ack(s, d), Acked(s.inFlight[i]), g);
    }
  }

  lemma NackFlight<P>(cfg: Config, s: State<P>, d: Id, r: bool, g: Entry<P> -> nat)
    requires FlightBalance(s, g)
    ensures FlightBalance(Nack(cfg, s, d, r), g)
  {
    hide Sum, FlightBalance, EntryIndex;
    var i := EntryIndex(s.inFlight, d);
    if i < |s.inFlight| {
      var e, s0 := s.inFlight[i], s.(inFlight := Without(s.inFlight, i));
      SumWithout(s.inFlight, i, g);
      if r && CanRetry(cfg, e) {
        FlightBooked(s, Requeue(s0, e), Requeued(e, e.message.(retry := e.retry + 1)), g);
      } else {
        var why := if CanRetry(cfg, e) then NackNoRequeue else MaxRetriesExceeded;
        FlightBooked(s, DeadLetter(s0, e, why), DeadLettered(e, DeadLetterCopy(e, s.nextId, why)), g);
      }
    }
  }

  lemma ExpireFlight<P>(cfg: Config, s: State<P>, e: Entry<P>, g: Entry<P> -> nat)
    ensures Expire(cfg, s, e).inFlight == s.inFlight
    ensures Sum(Expire(cfg, s, e).log, Settled(g)) == Sum(s.log, Settled(g)) + g(e)
    ensures Sum(Expire(cfg, s, e).log, Given(g)) == Sum(s.log, Given(g))
  {
    var ev := if CanRetry(cfg, e) then Requeued(e, e.message.(retry := e.retry + 1))
              else DeadLettered(e, DeadLetterCopy(e, s.nextId, VisibilityTimeoutExceeded));
    assert Expire(cfg, s, e).log == s.log + [ev];
    SumSnoc(s.log, ev, Settled(g));
    SumSnoc(s.log, ev, Given(g));
  }

  /** Burying or retrying a list of entries settles exactly that list. */
  lemma {:induction false} ExpireAllFlight<P>(cfg: Config, s: State<P>, es: seq<Entry<P>>, g: Entry<P> -> nat)
    ensures ExpireAll(cfg, s, es).inFlight == s.inFlight
    ensures Sum(ExpireAll(cfg, s, es).log, Settled(g)) == Sum(s.log, Settled(g)) + Sum(es, g)
    ensures Sum(ExpireAll(cfg, s, es).log, Given(g)) == Sum(s.log, Given(g))
    decreases |es|
  {
    hide Expire, Settled, Given;
    if es != [] {
      ExpireFlight(cfg, s, es[0], g);
      ExpireAllFlight(cfg, Expire(cfg, s, es[0]), es[1..], g);
      assert es == [es[0]] + es[1..];
      SumCons(es[0], es[1..], g);
    }
  }

  lemma SweepFlight<P>(cfg: Config, s: State<P>, now: real, g: Entry<P> -> nat)
    requires FlightBalance(s, g)
    ensures FlightBalance(Sweep(cfg, s, now), g)
  {
    var kept, gone := NotOverdue(s.inFlight, now), Overdue(s.inFlight, now);
    SumSplit(s.inFlight, (e: Entry<P>) => Expired(e, now), (e: Entry<P>) => !Expired(e, now), g);
    ExpireAllFlight(cfg, s.(inFlight := kept), gone, g);
  }

  lemma {:induction false} DispatchLoopFlight<P>(cfg: Config, s: State<P>, u: Topic, keys: seq<Key>, g: Entry<P> -> nat)
    requires FlightBalance(s, g) && keys != [] && Served(s.groups, keys)
    ensures FlightBalance(DispatchLoop(cfg, s, u, keys), g)
    decreases |Pend(s, u)|
  {
    if Pend(s, u) != [] {
      var s' := AfterHead(cfg, s, u, keys);
      SumConcat(s.inFlight, HeadEntries(cfg, s, u, keys), g);
      FlightBooked(s, s', HeadEvent(cfg, s, u, keys), g);
      HeadIsTaken(cfg, s, u, keys);
      DispatchLoopFlight(cfg, s', u, keys, g);
    }
  }

  lemma DispatchFlight<P>(cfg: Config, s: State<P>, u: Topic, g: Entry<P> -> nat)
    requires FlightBalance(s, g) && NoneEmpty(s.groups)
    ensures FlightBalance(Dispatch(cfg, s, u), g)
  {
    GroupsAreServed(s.groups, u);
    if KeysOn(s.groups, u) != [] {
      DispatchLoopFlight(cfg, s, u, KeysOn(s.groups, u), g);
    }
  }

  lemma EnqueueFlight<P>(cfg: Config, s: State<P>, u: Topic, p: P, vt: Option<real>, g: Entry<P> -> nat)
    requires FlightBalance(s, g)
    ensures FlightBalance(Enqueue(cfg, s, u, p, vt), g)
  {
    if !Full(cfg, s, u) {
      FlightBooked(s, Enqueue(cfg, s, u, p, vt), Accepted(u, NewMessage(cfg, s.nextId, u, p, vt)), g);
    }
  }

  lemma ConsumeFlight<P>(s: State<P>, u: Topic, name: Option<string>, g: Entry<P> -> nat)
    requires FlightBalance(s, g)
    ensures FlightBalance(Consume(s, u, name), g)
  {
    FlightBooked(s, Consume(s, u, name), Registered(Key(u, GroupName(u, name)), s.nextId), g);
  }

  lemma RemoveFlight<P>(s: State<P>, c: Id, g: Entry<P> -> nat)
    requires FlightBalance(s, g)
    ensures FlightBalance(RemoveConsumer(s, c), g)
  {
    if c in s.registry {
      FlightBooked(s, RemoveConsumer(s, c), Removed(c), g);
    }
  }

  lemma ClearFlight<P>(s: State<P>, g: Entry<P> -> nat)
    requires FlightBalance(s, g)
    ensures FlightBalance(Clear(s), g)
  {
    FlightBooked(s, Clear(s), Dropped(s.pending, s.inFlight), g);
  }

  lemma ApplyFlight<P>(cfg: Config, s: State<P>, a: Action<P>, g: Entry<P> -> nat)
    requires FlightBalance(s, g) && Shape(cfg, s)
    ensures FlightBalance(Apply(cfg, s, a), g)
  {
    hide Enqueue, Consume, RemoveConsumer, Dequeue, Ack, Nack, Sweep, Dispatch, Clear, Given, Settled;
    match a
    case DoEnqueue(u, p, vt) => EnqueueFlight(cfg, s, u, p, vt, g);
    case DoConsume(u, name) => ConsumeFlight(s, u, name, g);
    case DoRemove(c) => RemoveFlight(s, c, g);
    case DoDequeue(u) => DequeueFlight(cfg, s, u, g);
    case DoAck(d) => AckFlight(s, d, g);
    case DoNack(d, r) => NackFlight(cfg, s, d, r, g);
    case DoSweep(now) => SweepFlight(cfg, s, now, g);
    case DoDispatch(u) =>
      DispatchFlight(cfg, s, u, g);
    case DoMarkClosed =>
    case DoClear => ClearFlight(s, g);
  }

  lemma {:induction false} RunFlight<P>(cfg: Config, acts: seq<Action<P>>, g: Entry<P> -> nat)
    ensures FlightBalance(Run(cfg, acts).q, g)
  {
    hide Apply, Shape;
    if acts != [] {
      var s := Run(cfg, acts[..|acts| - 1]).q;
      RunFlight(cfg, acts[..|acts| - 1], g);
      RunShape(cfg, acts[..|acts| - 1]);
      ApplyFlight(cfg, s, acts[|acts| - 1], g);
    }
  }
}
