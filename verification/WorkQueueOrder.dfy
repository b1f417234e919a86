/** First in, first out: in which order messages leave a queue. */
module WorkQueueOrder {
  import opened Options
  import opened WorkQueueModel
  import opened WorkQueueInvariants
  import opened WorkQueueConservation

  /** What an event lets into the queue of `t` by its back door: accepted there, or buried into it. */
  ghost function InBy<P>(ev: Event<P>, t: Topic): seq<Message<P>>
  {
    match ev
    case Accepted(u, m) => if u == t then [m] else []
    case DeadLettered(e, m) => if DeadLetterTopic(e.topic) == t then [m] else []
    case _ => []
  }

  ghost function OutBy<P>(ev: Event<P>, t: Topic): seq<Message<P>>
  {
    match ev
    case Dispatched(u, m, _, _) => if u == t then [m] else []
    case _ => []
  }

  ghost function Ins<P>(log: seq<Event<P>>, t: Topic): seq<Message<P>>
  {
    if log == [] then [] else Ins(log[..|log| - 1], t) + InBy(log[|log| - 1], t)
  }

  ghost function Outs<P>(log: seq<Event<P>>, t: Topic): seq<Message<P>>
  {
    if log == [] then [] else Outs(log[..|log| - 1], t) + OutBy(log[|log| - 1], t)
  }

  /** Nothing came back to `t` and nothing was cleared. */
  ghost predicate Steady<P>(log: seq<Event<P>>, t: Topic)
  {
    forall i :: 0 <= i < |log| ==> !TurnsBack(log[i], t)
  }

  predicate TurnsBack<P>(ev: Event<P>, t: Topic)
  {
    ev.Dropped? || (ev.Requeued? && ev.entry.topic == t)
  }

  /** Since the log had length `n` and the queue was `q0`: what was there and what came in left in that order, or is still there. */
  ghost predicate InOrder<P>(n: nat, q0: seq<Message<P>>, s: State<P>, t: Topic)
  {
    && n <= |s.log|
    && (Steady(s.log[n..], t) ==> q0 + Ins(s.log[n..], t) == Outs(s.log[n..], t) + Pend(s, t))
  }

  lemma InsSnoc<P>(log: seq<Event<P>>, ev: Event<P>, t: Topic)
    ensures Ins(log + [ev], t) == Ins(log, t) + InBy(ev, t) && Outs(log + [ev], t) == Outs(log, t) + OutBy(ev, t)
  {
    assert (log + [ev])[..|log|] == log;
  }

  lemma SteadySnoc<P>(log: seq<Event<P>>, ev: Event<P>, t: Topic)
    requires Steady(log + [ev], t)
    ensures Steady(log, t) && !TurnsBack(ev, t)
  {
    assert (log + [ev])[|log|] == ev;
    forall i | 0 <= i < |log| ensures !TurnsBack(log[i], t) {
      assert (log + [ev])[i] == log[i];
    }
  }

  lemma Chained<P>(a: seq<Message<P>>, b: seq<Message<P>>, c: seq<Message<P>>, d: seq<Message<P>>,
                   x: seq<Message<P>>, y: seq<Message<P>>, e: seq<Message<P>>)
    requires a + b == c + d && d + x == y + e
    ensures a + (b + x) == (c + y) + e
  {
    assert a + (b + x) == (a + b) + x;
    assert (c + d) + x == c + (d + x);
    assert c + (y + e) == (c + y) + e;
  }

  /** One event keeps the order if the queue changed as the event says. */
  lemma OrderBooked<P>(n: nat, q0: seq<Message<P>>, s: State<P>, s': State<P>, ev: Event<P>, t: Topic)
    requires InOrder(n, q0, s, t) && s'.log == s.log + [ev]
    requires !TurnsBack(ev, t) ==> Pend(s, t) + InBy(ev, t) == OutBy(ev, t) + Pend(s', t)
    ensures InOrder(n, q0, s', t)
  {
    hide Pend, TurnsBack, InBy, OutBy;
    var log := s.log[n..];
    assert s'.log[n..] == log + [ev];
    InsSnoc(log, ev, t);
    if Steady(log + [ev], t) {
      SteadySnoc(log, ev, t);
      hide Steady, Ins, Outs;
      Chained(q0, Ins(log, t), Outs(log, t), Pend(s, t), InBy(ev, t), OutBy(ev, t), Pend(s', t));
    }
  }

  lemma EnqueueInOrder<P>(cfg: Config, n: nat, q0: seq<Message<P>>, s: State<P>, u: Topic, p: P, vt: Option<real>, t: Topic)
    requires InOrder(n, q0, s, t)
    ensures InOrder(n, q0, Enqueue(cfg, s, u, p, vt), t)
  {
    if !Full(cfg, s, u) {
      OrderBooked(n, q0, s, Enqueue(cfg, s, u, p, vt), Accepted(u, NewMessage(cfg, s.nextId, u, p, vt)), t);
    }
  }

  lemma DequeueInOrder<P>(cfg: Config, n: nat, q0: seq<Message<P>>, s: State<P>, u: Topic, t: Topic)
    requires InOrder(n, q0, s, t)
    ensures InOrder(n, q0, Dequeue(cfg, s, u), t)
  {
    if !s.closed && Pend(s, u) != [] {
      var s' := Dequeue(cfg, s, u);
      hide InOrder;
      OrderBooked(n, q0, s, s', s'.log[|s.log|], t);
    }
  }

  lemma RequeueInOrder<P>(n: nat, q0: seq<Message<P>>, s: State<P>, e: Entry<P>, t: Topic)
    requires InOrder(n, q0, s, t)
    ensures InOrder(n, q0, Requeue(s, e), t)
  {
    OrderBooked(n, q0, s, Requeue(s, e), Requeued(e, e.message.(retry := e.retry + 1)), t);
  }

  lemma DeadLetterInOrder<P>(n: nat, q0: seq<Message<P>>, s: State<P>, e: Entry<P>, why: Reason, t: Topic)
    requires InOrder(n, q0, s, t)
    ensures InOrder(n, q0, DeadLetter(s, e, why), t)
  {
    hide InOrder;
    OrderBooked(n, q0, s, DeadLetter(s, e, why), DeadLettered(e, DeadLetterCopy(e, s.nextId, why)), t);
  }

  lemma SameQueues<P>(n: nat, q0: seq<Message<P>>, s: State<P>, s': State<P>, t: Topic)
    requires InOrder(n, q0, s, t) && s'.log == s.log && s'.pending == s.pending
    ensures InOrder(n, q0, s', t)
  {
  }

  lemma NackInOrder<P>(cfg: Config, n: nat, q0: seq<Message<P>>, s: State<P>, d: Id, r: bool, t: Topic)
    requires InOrder(n, q0, s, t)
    ensures InOrder(n, q0, Nack(cfg, s, d, r), t)
  {
    hide InOrder, EntryIndex, Requeue, DeadLetter;
    var i := EntryIndex(s.inFlight, d);
    if i < |s.inFlight| {
      var e, s' := s.inFlight[i], s.(inFlight := Without(s.inFlight, i));
      SameQueues(n, q0, s, s', t);
      RequeueInOrder(n, q0, s', e, t);
      DeadLetterInOrder(n, q0, s', e, if CanRetry(cfg, e) then NackNoRequeue else MaxRetriesExceeded, t);
    }
  }

  lemma {:induction false} ExpireAllInOrder<P>(cfg: Config, n: nat, q0: seq<Message<P>>, s: State<P>, es: seq<Entry<P>>, t: Topic)
    requires InOrder(n, q0, s, t)
    ensures InOrder(n, q0, ExpireAll(cfg, s, es), t)
    decreases |es|
  {
    hide InOrder, Requeue, DeadLetter;
    if es != [] {
      RequeueInOrder(n, q0, s, es[0], t);
      DeadLetterInOrder(n, q0, s, es[0], VisibilityTimeoutExceeded, t);
      ExpireAllInOrder(cfg, n, q0, Expire(cfg, s, es[0]), es[1..], t);
    }
  }

  lemma SweepInOrder<P>(cfg: Config, n: nat, q0: seq<Message<P>>, s: State<P>, now: real, t: Topic)
    requires InOrder(n, q0, s, t)
    ensures InOrder(n, q0, Sweep(cfg, s, now), t)
  {
    hide InOrder, ExpireAll;
    var s' := s.(inFlight := NotOverdue(s.inFlight, now));
    SameQueues(n, q0, s, s', t);
    ExpireAllInOrder(cfg, n, q0, s', Overdue(s.inFlight, now), t);
  }

  lemma HeadInOrder<P>(cfg: Config, n: nat, q0: seq<Message<P>>, s: State<P>, u: Topic, keys: seq<Key>, t: Topic)
    requires InOrder(n, q0, s, t) && Pend(s, u) != [] && Served(s.groups, keys)
    ensures InOrder(n, q0, AfterHead(cfg, s, u, keys), t)
  {
    hide InOrder, Served, HeadEntries, TurnsOf, TurnedOver, IdsDrawn;
    OrderBooked(n, q0, s, AfterHead(cfg, s, u, keys), HeadEvent(cfg, s, u, keys), t);
  }

  lemma {:induction false} DispatchLoopInOrder<P>(cfg: Config, n: nat, q0: seq<Message<P>>, s: State<P>, u: Topic, keys: seq<Key>, t: Topic)
    requires InOrder(n, q0, s, t) && keys != [] && Served(s.groups, keys)
    ensures InOrder(n, q0, DispatchLoop(cfg, s, u, keys), t)
    decreases |Pend(s, u)|
  {
    hide InOrder;
    if Pend(s, u) != [] {
      HeadInOrder(cfg, n, q0, s, u, keys, t);
      HeadIsTaken(cfg, s, u, keys);
      DispatchLoopInOrder(cfg, n, q0, AfterHead(cfg, s, u, keys), u, keys, t);
    }
  }

  lemma DispatchInOrder<P>(cfg: Config, n: nat, q0: seq<Message<P>>, s: State<P>, u: Topic, t: Topic)
    requires InOrder(n, q0, s, t) && NoneEmpty(s.groups)
    ensures InOrder(n, q0, Dispatch(cfg, s, u), t)
  {
    hide InOrder, DispatchLoop;
    GroupsAreServed(s.groups, u);
    if KeysOn(s.groups, u) != [] {
      DispatchLoopInOrder(cfg, n, q0, s, u, KeysOn(s.groups, u), t);
    }
  }

  /** Registering, removing, acknowledging and clearing. */
  lemma OtherInOrder<P>(cfg: Config, n: nat, q0: seq<Message<P>>, s: State<P>, a: Action<P>, t: Topic)
    requires InOrder(n, q0, s, t) && (a.DoConsume? || a.DoRemove? || a.DoAck? || a.DoClear?)
    ensures InOrder(n, q0, Apply(cfg, s, a), t)
  {
    hide InOrder, EntryIndex, AddMember, DropFromGroups, MembersIn;
    var s' := Apply(cfg, s, a);
    if s' != s {
      OrderBooked(n, q0, s, s', s'.log[|s.log|], t);
    }
  }

  lemma ApplyInOrder<P>(cfg: Config, n: nat, q0: seq<Message<P>>, s: State<P>, a: Action<P>, t: Topic)
    requires InOrder(n, q0, s, t) && NoneEmpty(s.groups)
    ensures InOrder(n, q0, Apply(cfg, s, a), t)
  {
    hide InOrder, Enqueue, Dequeue, Nack, Sweep, Dispatch, Consume, RemoveConsumer, Ack, Clear, NoneEmpty;
    match a
    case DoEnqueue(u, p, vt) => EnqueueInOrder(cfg, n, q0, s, u, p, vt, t);
    case DoDequeue(u) => DequeueInOrder(cfg, n, q0, s, u, t);
    case DoNack(d, r) => NackInOrder(cfg, n, q0, s, d, r, t);
    case DoSweep(now) => SweepInOrder(cfg, n, q0, s, now, t);
    case DoDispatch(u) => DispatchInOrder(cfg, n, q0, s, u, t);
    case DoMarkClosed => SameQueues(n, q0, s, MarkClosed(s), t);
    case _ => OtherInOrder(cfg, n, q0, s, a, t);
  }

  /**
   First in, first out, between any two points of any run: unless a message came back to `t` or `close`
   cleared it, what was queued at the first point, followed by what was accepted on `t` or buried into
   it since, is what was handed out from `t` since, in that order, followed by what is queued now.
   */
  lemma FirstInFirstOut<P>(cfg: Config, acts: seq<Action<P>>, more: seq<Action<P>>, t: Topic)
    ensures var s, s' := Run(cfg, acts).q, Run(cfg, acts + more).q;
            && |s.log| <= |s'.log|
            && var new' := s'.log[|s.log|..];
               Steady(new', t) ==> Pend(s, t) + Ins(new', t) == Outs(new', t) + Pend(s', t)
  {
    StaysInOrder(cfg, acts, more, t);
    hide Run, Steady, Ins, Outs, Pend;
  }

  lemma {:induction false} StaysInOrder<P>(cfg: Config, acts: seq<Action<P>>, more: seq<Action<P>>, t: Topic)
    ensures InOrder(|Run(cfg, acts).q.log|, Pend(Run(cfg, acts).q, t), Run(cfg, acts + more).q, t)
  {
    hide Run, Apply, Shape, NoneEmpty, Pend;
    var s := Run(cfg, acts).q;
    if more == [] {
      assert acts + more == acts && s.log[|s.log|..] == [];
    } else {
      var init, last := more[..|more| - 1], more[|more| - 1];
      StaysInOrder(cfg, acts, init, t);
      RunShape(cfg, acts + init);
      ShapeHasGroups(cfg, Run(cfg, acts + init).q);
      hide InOrder;
      ApplyInOrder(cfg, |s.log|, Pend(s, t), Run(cfg, acts + init).q, last, t);
      assert acts + more == (acts + init) + [last];
      RunSnoc(cfg, acts + init, last);
    }
  }
}
