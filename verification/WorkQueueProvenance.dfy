/** What a message carries with it, and how it came by it: its timeout, its first topic, why it was buried. */
module WorkQueueProvenance {
  import opened Options
  import opened Sums
  import opened WorkQueueModel
  import opened WorkQueueInvariants
  import opened WorkQueueConservation
  import opened WorkQueueSettlement

  // ---- Properties of all messages ------------------------------------------------------

  /** Every message in the queue, pending or in flight, is `ok`. */
  ghost predicate AllAre<P>(s: State<P>, ok: Message<P> -> bool)
  {
    && QueuesAre(s.pending, ok)
    && (forall i :: 0 <= i < |s.inFlight| ==> ok(s.inFlight[i].message))
  }

  ghost predicate QueuesAre<P>(pending: map<Topic, seq<Message<P>>>, ok: Message<P> -> bool)
  {
    forall t :: t in pending ==> QueueIs(pending[t], ok)
  }

  ghost predicate QueueIs<P>(queue: seq<Message<P>>, ok: Message<P> -> bool)
  {
    forall i :: 0 <= i < |queue| ==> ok(queue[i])
  }

  /** A new id or another retry count makes no difference to `ok`. */
  ghost predicate Stable<P(!new)>(ok: Message<P> -> bool)
  {
    forall m: Message<P>, id: Id, retry: nat :: ok(m) ==> ok(m.(id := id, retry := retry))
  }

  /** The events from position `n` on let in only messages that are `ok`. */
  ghost predicate LetsIn<P>(log: seq<Event<P>>, n: nat, ok: Message<P> -> bool)
  {
    forall i :: n <= i < |log| ==>
      (log[i].Accepted? ==> ok(log[i].message)) && (log[i].DeadLettered? && ok(log[i].entry.message) ==> ok(log[i].message))
  }

  lemma QueueSnoc<P>(pending: map<Topic, seq<Message<P>>>, u: Topic, m: Message<P>, ok: Message<P> -> bool)
    requires QueuesAre(pending, ok) && ok(m)
    ensures QueuesAre(pending[u := PendingIn(pending, u) + [m]], ok)
  {
  }

  lemma QueueCons<P>(pending: map<Topic, seq<Message<P>>>, u: Topic, m: Message<P>, ok: Message<P> -> bool)
    requires QueuesAre(pending, ok) && ok(m)
    ensures QueuesAre(pending[u := [m] + PendingIn(pending, u)], ok)
  {
  }

  lemma QueueTail<P>(pending: map<Topic, seq<Message<P>>>, u: Topic, ok: Message<P> -> bool)
    requires QueuesAre(pending, ok) && PendingIn(pending, u) != []
    ensures ok(PendingIn(pending, u)[0])
    ensures QueuesAre(pending[u := PendingIn(pending, u)[1..]], ok)
  {
    assert QueueIs(pending[u], ok);
  }

  lemma EnqueueAll<P(!new)>(cfg: Config, s: State<P>, u: Topic, p: P, vt: Option<real>, ok: Message<P> -> bool)
    requires AllAre(s, ok) && LetsIn(Enqueue(cfg, s, u, p, vt).log, |s.log|, ok)
    ensures AllAre(Enqueue(cfg, s, u, p, vt), ok)
  {
    hide QueuesAre;
    if !Full(cfg, s, u) {
      var m := NewMessage(cfg, s.nextId, u, p, vt);
      assert Enqueue(cfg, s, u, p, vt).log[|s.log|] == Accepted(u, m);
      QueueSnoc(s.pending, u, m, ok);
    }
  }

  lemma DequeueAll<P(!new)>(cfg: Config, s: State<P>, u: Topic, ok: Message<P> -> bool)
    requires AllAre(s, ok)
    ensures AllAre(Dequeue(cfg, s, u), ok)
  {
    hide QueuesAre;
    if !s.closed && Pend(s, u) != [] {
      QueueTail(s.pending, u, ok);
    }
  }

  lemma RequeueAll<P(!new)>(s: State<P>, e: Entry<P>, ok: Message<P> -> bool)
    requires AllAre(s, ok) && ok(e.message) && Stable(ok)
    ensures AllAre(Requeue(s, e), ok)
  {
    hide QueuesAre;
    var m := e.message.(retry := e.retry + 1);
    assert m == e.message.(id := m.id, retry := m.retry);
    QueueCons(s.pending, e.topic, m, ok);
  }

  lemma DeadLetterAll<P(!new)>(s: State<P>, e: Entry<P>, why: Reason, ok: Message<P> -> bool)
    requires AllAre(s, ok) && ok(e.message) && LetsIn(DeadLetter(s, e, why).log, |s.log|, ok)
    ensures AllAre(DeadLetter(s, e, why), ok)
  {
    hide QueuesAre;
    var m := DeadLetterCopy(e, s.nextId, why);
    assert DeadLetter(s, e, why).log[|s.log|] == DeadLettered(e, m);
    QueueSnoc(s.pending, DeadLetterTopic(e.topic), m, ok);
  }

  lemma WithoutAll<P>(s: State<P>, i: nat, ok: Message<P> -> bool)
    requires AllAre(s, ok) && i < |s.inFlight|
    ensures AllAre(s.(inFlight := Without(s.inFlight, i)), ok)
  {
    hide QueuesAre;
  }

  lemma NackAll<P(!new)>(cfg: Config, s: State<P>, d: Id, r: bool, ok: Message<P> -> bool)
    requires AllAre(s, ok) && Stable(ok) && LetsIn(Nack(cfg, s, d, r).log, |s.log|, ok)
    ensures AllAre(Nack(cfg, s, d, r), ok)
  {
    hide EntryIndex, Requeue, DeadLetter, Stable;
    var i := EntryIndex(s.inFlight, d);
    if i < |s.inFlight| {
      var e, s' := s.inFlight[i], s.(inFlight := Without(s.inFlight, i));
      assert ok(e.message);
      WithoutAll(s, i, ok);
      hide AllAre, LetsIn;
      if r && CanRetry(cfg, e) {
        RequeueAll(s', e, ok);
      } else {
        DeadLetterAll(s', e, if CanRetry(cfg, e) then NackNoRequeue else MaxRetriesExceeded, ok);
      }
    }
  }

  lemma LetsInSplits<P>(log: seq<Event<P>>, log': seq<Event<P>>, n: nat, ok: Message<P> -> bool)
    requires n <= |log| && log <= log' && LetsIn(log', n, ok)
    ensures LetsIn(log, n, ok) && LetsIn(log', |log|, ok)
  {
    forall i | n <= i < |log| ensures log[i] == log'[i] {
    }
  }

  lemma {:induction false} ExpireAllAll<P(!new)>(cfg: Config, s: State<P>, es: seq<Entry<P>>, ok: Message<P> -> bool)
    requires AllAre(s, ok) && Stable(ok) && LetsIn(ExpireAll(cfg, s, es).log, |s.log|, ok)
    requires forall i :: 0 <= i < |es| ==> ok(es[i].message)
    ensures AllAre(ExpireAll(cfg, s, es), ok)
    decreases |es|
  {
    if es != [] {
      var s1 := Expire(cfg, s, es[0]);
      ExpireAllLogs(cfg, s1, es[1..]);
      assert |s.log| <= |s1.log|;
      hide AllAre, Requeue, DeadLetter, Stable;
      LetsInSplits(s1.log, ExpireAll(cfg, s1, es[1..]).log, |s.log|, ok);
      hide LetsIn;
      if CanRetry(cfg, es[0]) {
        RequeueAll(s, es[0], ok);
      } else {
        DeadLetterAll(s, es[0], VisibilityTimeoutExceeded, ok);
      }
      ExpireAllAll(cfg, s1, es[1..], ok);
    }
  }

  lemma SweepAll<P(!new)>(cfg: Config, s: State<P>, now: real, ok: Message<P> -> bool)
    requires AllAre(s, ok) && Stable(ok) && LetsIn(Sweep(cfg, s, now).log, |s.log|, ok)
    ensures AllAre(Sweep(cfg, s, now), ok)
  {
    hide QueuesAre, Stable, LetsIn, ExpireAll;
    var s' := s.(inFlight := NotOverdue(s.inFlight, now));
    assert AllAre(s', ok) by {
      forall i | 0 <= i < |s'.inFlight| ensures ok(s'.inFlight[i].message) {
        assert s'.inFlight[i] in s.inFlight;
      }
    }
    forall i | 0 <= i < |Overdue(s.inFlight, now)| ensures ok(Overdue(s.inFlight, now)[i].message) {
      assert Overdue(s.inFlight, now)[i] in s.inFlight;
    }
    ExpireAllAll(cfg, s', Overdue(s.inFlight, now), ok);
  }

  lemma HeadAll<P(!new)>(cfg: Config, s: State<P>, u: Topic, keys: seq<Key>, ok: Message<P> -> bool)
    requires AllAre(s, ok) && Stable(ok) && Pend(s, u) != [] && Served(s.groups, keys)
    ensures AllAre(AfterHead(cfg, s, u, keys), ok)
  {
    hide QueuesAre, Served, TurnsOf, TurnedOver;
    var m, es := Pend(s, u)[0], HeadEntries(cfg, s, u, keys);
    QueueTail(s.pending, u, ok);
    NewEntriesFacts(cfg, s.nextId, m, u, keys, |keys| > 1);
    hide HeadEntries;
    forall i | 0 <= i < |es| ensures ok(es[i].message) {
      assert EntryOf(cfg, u, m, es[i]);
      assert es[i].message == m.(id := es[i].message.id, retry := m.retry);
    }
  }

  lemma {:induction false} DispatchLoopAll<P(!new)>(cfg: Config, s: State<P>, u: Topic, keys: seq<Key>, ok: Message<P> -> bool)
    requires AllAre(s, ok) && Stable(ok) && keys != [] && Served(s.groups, keys)
    ensures AllAre(DispatchLoop(cfg, s, u, keys), ok)
    decreases |Pend(s, u)|
  {
    hide AllAre, Stable;
    if Pend(s, u) != [] {
      HeadAll(cfg, s, u, keys, ok);
      HeadIsTaken(cfg, s, u, keys);
      DispatchLoopAll(cfg, AfterHead(cfg, s, u, keys), u, keys, ok);
    }
  }

  lemma DispatchAll<P(!new)>(cfg: Config, s: State<P>, u: Topic, ok: Message<P> -> bool)
    requires AllAre(s, ok) && Stable(ok) && NoneEmpty(s.groups)
    ensures AllAre(Dispatch(cfg, s, u), ok)
  {
    hide AllAre, Stable, DispatchLoop;
    GroupsAreServed(s.groups, u);
    if KeysOn(s.groups, u) != [] {
      DispatchLoopAll(cfg, s, u, KeysOn(s.groups, u), ok);
    }
  }

  lemma AckAll<P>(s: State<P>, d: Id, ok: Message<P> -> bool)
    requires AllAre(s, ok)
    ensures AllAre(Ack(s, d), ok)
  {
    hide QueuesAre, EntryIndex;
    var i := EntryIndex(s.inFlight, d);
    if i < |s.inFlight| {
      WithoutAll(s, i, ok);
    }
  }

  lemma ClearAll<P>(s: State<P>, ok: Message<P> -> bool)
    ensures AllAre(Clear(s), ok)
  {
  }

  lemma SameMessages<P>(s: State<P>, s': State<P>, ok: Message<P> -> bool)
    requires AllAre(s, ok) && s'.pending == s.pending && s'.inFlight == s.inFlight
    ensures AllAre(s', ok)
  {
    hide QueuesAre;
  }

  lemma ApplyAll<P(!new)>(cfg: Config, s: State<P>, a: Action<P>, ok: Message<P> -> bool)
    requires AllAre(s, ok) && Stable(ok) && NoneEmpty(s.groups) && LetsIn(Apply(cfg, s, a).log, |s.log|, ok)
    ensures AllAre(Apply(cfg, s, a), ok)
  {
    hide AllAre, Stable, LetsIn, NoneEmpty, Enqueue, Dequeue, Ack, Nack, Sweep, Dispatch, Clear, AddMember, DropFromGroups, MembersIn;
    match a
    case DoEnqueue(u, p, vt) => EnqueueAll(cfg, s, u, p, vt, ok);
    case DoConsume(_, _) => SameMessages(s, Apply(cfg, s, a), ok);
    case DoRemove(_) => SameMessages(s, Apply(cfg, s, a), ok);
    case DoDequeue(u) => DequeueAll(cfg, s, u, ok);
    case DoAck(d) => AckAll(s, d, ok);
    case DoNack(d, r) => NackAll(cfg, s, d, r, ok);
    case DoSweep(now) => SweepAll(cfg, s, now, ok);
    case DoDispatch(u) => DispatchAll(cfg, s, u, ok);
    case DoMarkClosed => SameMessages(s, Apply(cfg, s, a), ok);
    case DoClear => ClearAll(s, ok);
  }

  /** If a run lets in only messages that are `ok`, all messages in it are, at its end and so at every point. */
  lemma {:induction false} RunAll<P(!new)>(cfg: Config, acts: seq<Action<P>>, ok: Message<P> -> bool)
    requires Stable(ok) && LetsIn(Run(cfg, acts).q.log, 0, ok)
    ensures AllAre(Run(cfg, acts).q, ok)
  {
    hide Apply, Shape, NoneEmpty, Stable, LetsIn;
    if acts != [] {
      var init, last := acts[..|acts| - 1], acts[|acts| - 1];
      var s := Run(cfg, init).q;
      ApplyLogs(cfg, s, last);
      LetsInSplits(s.log, Apply(cfg, s, last).log, 0, ok);
      hide AllAre;
      RunAll(cfg, init, ok);
      RunShape(cfg, init);
      ShapeHasGroups(cfg, s);
      ApplyAll(cfg, s, last, ok);
    }
  }

  // ---- The log is true --------------------------------------------------------------------

  function Resolved(cfg: Config, timeout: Option<real>): real
  {
    match timeout case Some(v) => v case None => cfg.defaultTimeout
  }

  /** Why a delivery may be buried with the reason it was buried with, when action `a` did it. */
  ghost predicate ReasonFits<P>(cfg: Config, a: Action<P>, e: Entry<P>, why: Reason)
  {
    match why
    case NackNoRequeue => a == DoNack(e.deliveryId, false) && e.retry + 1 < cfg.maxRetries
    case MaxRetriesExceeded => a.DoNack? && a.delivery == e.deliveryId && e.retry + 1 >= cfg.maxRetries
    case VisibilityTimeoutExceeded => a.DoSweep? && a.now - e.deliveredAt >= e.timeout && e.retry + 1 >= cfg.maxRetries
  }

  /** Event `ev` is what action `a` does in state `s`, to what is there. */
  ghost predicate Explains<P>(cfg: Config, s: State<P>, a: Action<P>, ev: Event<P>)
  {
    match ev
    case Accepted(t, m) => a.DoEnqueue? && a.topic == t && a.payload == m.payload && m.timeout == Resolved(cfg, a.timeout)
    case Dispatched(t, m, es, calls) => (a == DoDispatch(t) || (a == DoDequeue(t) && |es| == 1 && calls == []))
    case Acked(e) => e in s.inFlight && a == DoAck(e.deliveryId)
    case Requeued(e, _) =>
      && e in s.inFlight && e.retry + 1 < cfg.maxRetries
      && (a == DoNack(e.deliveryId, true) || (a.DoSweep? && a.now - e.deliveredAt >= e.timeout))
    case DeadLettered(e, m) => e in s.inFlight && m.deadLetterReason.Some? && ReasonFits(cfg, a, e, m.deadLetterReason.value)
    case Registered(k, c) =>
      a.DoConsume? && k.topic == a.topic && k.name == if a.group.None? || a.group.value == "" then a.topic + ".default" else a.group.value
    case Removed(c) => a == DoRemove(c) && c in s.registry
    case Dropped(_, _) => a.DoClear?
  }

  lemma NackExplained<P>(cfg: Config, s: State<P>, d: Id, r: bool, i: nat)
    requires |s.log| <= i < |Nack(cfg, s, d, r).log|
    ensures Explains(cfg, s, DoNack(d, r), Nack(cfg, s, d, r).log[i])
  {
    hide EntryIndex;
  }

  lemma {:induction false} ExpireAllExplained<P>(cfg: Config, s: State<P>, es: seq<Entry<P>>, now: real, s0: State<P>, i: nat)
    requires |s.log| <= i < |ExpireAll(cfg, s, es).log|
    requires forall j :: 0 <= j < |es| ==> es[j] in s0.inFlight && Expired(es[j], now)
    ensures Explains(cfg, s0, DoSweep(now), ExpireAll(cfg, s, es).log[i])
    decreases |es|
  {
    if es != [] {
      var s1 := Expire(cfg, s, es[0]);
      ExpireAllLogs(cfg, s1, es[1..]);
      if i < |s1.log| {
        assert ExpireAll(cfg, s1, es[1..]).log[i] == s1.log[i];
        assert Explains(cfg, s0, DoSweep(now), s1.log[i]);
      } else {
        ExpireAllExplained(cfg, s1, es[1..], now, s0, i);
      }
    }
  }

  lemma SweepExplained<P>(cfg: Config, s: State<P>, now: real, i: nat)
    requires |s.log| <= i < |Sweep(cfg, s, now).log|
    ensures Explains(cfg, s, DoSweep(now), Sweep(cfg, s, now).log[i])
  {
    hide ExpireAll, Explains;
    var s' := s.(inFlight := NotOverdue(s.inFlight, now));
    ExpireAllExplained(cfg, s', Overdue(s.inFlight, now), now, s, i);
  }

  lemma DispatchExplained<P>(cfg: Config, s: State<P>, t: Topic, i: nat)
    requires NoneEmpty(s.groups) && |s.log| <= i < |Dispatch(cfg, s, t).log|
    ensures Explains(cfg, s, DoDispatch(t), Dispatch(cfg, s, t).log[i])
  {
    hide DispatchLoop, GoesToAll;
    var keys := KeysOn(s.groups, t);
    GroupsAreServed(s.groups, t);
    if keys != [] {
      LoopGoesToAll(cfg, s, t, keys);
      var s' := Dispatch(cfg, s, t);
      assert s'.log[|s.log|..][i - |s.log|] == s'.log[i];
      OnlyDispatched(s'.log[i], t, Pend(s, t)[i - |s.log|], keys);
    }
  }

  lemma OnlyDispatched<P>(ev: Event<P>, t: Topic, m: Message<P>, keys: seq<Key>)
    requires GoesToAll(ev, t, m, keys)
    ensures ev.Dispatched? && ev.topic == t
  {
  }

  lemma QueueExplained<P>(cfg: Config, s: State<P>, a: Action<P>, i: nat)
    requires (a.DoEnqueue? || a.DoDequeue?) && |s.log| <= i < |Apply(cfg, s, a).log|
    ensures Explains(cfg, s, a, Apply(cfg, s, a).log[i])
  {
  }

  lemma OtherExplained<P>(cfg: Config, s: State<P>, a: Action<P>, i: nat)
    requires (a.DoConsume? || a.DoRemove? || a.DoAck? || a.DoMarkClosed? || a.DoClear?) && |s.log| <= i < |Apply(cfg, s, a).log|
    ensures Explains(cfg, s, a, Apply(cfg, s, a).log[i])
  {
    hide EntryIndex, AddMember, DropFromGroups, MembersIn, Without;
  }

  lemma ApplyExplained<P>(cfg: Config, s: State<P>, a: Action<P>, i: nat)
    requires NoneEmpty(s.groups) && |s.log| <= i < |Apply(cfg, s, a).log|
    ensures Explains(cfg, s, a, Apply(cfg, s, a).log[i])
  {
    hide Explains, Enqueue, Dequeue, Nack, Sweep, Dispatch, Consume, RemoveConsumer, Ack, Clear, NoneEmpty;
    match a
    case DoNack(d, r) => NackExplained(cfg, s, d, r, i);
    case DoSweep(now) => SweepExplained(cfg, s, now, i);
    case DoDispatch(t) => DispatchExplained(cfg, s, t, i);
    case DoEnqueue(_, _, _) => QueueExplained(cfg, s, a, i);
    case DoDequeue(_) => QueueExplained(cfg, s, a, i);
    case _ => OtherExplained(cfg, s, a, i);
  }

  /** Every event in the log of a run is what some action of the run did: the k-th, in the state it found. */
  lemma {:induction false} LogIsTrue<P>(cfg: Config, acts: seq<Action<P>>, i: nat) returns (k: nat)
    requires i < |Run(cfg, acts).q.log|
    ensures k < |acts| && Explains(cfg, Run(cfg, acts[..k]).q, acts[k], Run(cfg, acts).q.log[i])
  {
    hide Apply, Shape, NoneEmpty, Explains;
    if acts == [] {
      assert false;
    } else {
      var init, last := acts[..|acts| - 1], acts[|acts| - 1];
      var s := Run(cfg, init).q;
      ApplyLogs(cfg, s, last);
      if i < |s.log| {
        k := LogIsTrue(cfg, init, i);
        assert init[..k] == acts[..k];
      } else {
        RunShape(cfg, init);
        ShapeHasGroups(cfg, s);
        ApplyExplained(cfg, s, last, i);
        k := |acts| - 1;
      }
    }
  }

  // ---- Why a message is buried ----------------------------------------------------------------

  ghost predicate Holds<P>(s: State<P>, m: Message<P>)
  {
    (exists t :: t in s.pending && m in s.pending[t]) || (exists i :: 0 <= i < |s.inFlight| && s.inFlight[i].message == m)
  }

  ghost function Unlike<P>(p: P, why: Reason): Message<P> -> bool
  {
    (m: Message<P>) => !(m.payload == p && m.deadLetterReason == Some(why))
  }

  lemma AllAreUnlike<P>(s: State<P>, m: Message<P>, why: Reason)
    requires AllAre(s, Unlike(m.payload, why)) && m.deadLetterReason == Some(why)
    ensures !Holds(s, m)
  {
    var ok := Unlike(m.payload, why);
    forall t | t in s.pending ensures m !in s.pending[t] {
      assert QueueIs(s.pending[t], ok);
    }
  }

  lemma {:induction false} SomeBurial<P(!new)>(cfg: Config, acts: seq<Action<P>>, m: Message<P>, why: Reason) returns (i: nat)
    requires Holds(Run(cfg, acts).q, m) && m.deadLetterReason == Some(why)
    ensures var log := Run(cfg, acts).q.log;
            i < |log| && log[i].DeadLettered? && log[i].message.payload == m.payload && log[i].message.deadLetterReason == Some(why)
  {
    hide Run;
    var s, ok := Run(cfg, acts).q, Unlike(m.payload, why);
    if forall j :: 0 <= j < |s.log| && s.log[j].DeadLettered? ==> ok(s.log[j].message) {
      RunShape(cfg, acts);
      forall j | 0 <= j < |s.log| && s.log[j].Accepted? ensures ok(s.log[j].message) {
        assert EventOk(cfg, s.log[j]);
      }
      RunAll(cfg, acts, ok);
      AllAreUnlike(s, m, why);
      assert false;
    } else {
      i :| 0 <= i < |s.log| && s.log[i].DeadLettered? && !ok(s.log[i].message);
    }
  }

  /**
   In every run, a message that is pending or in flight with a dead-letter reason was buried, with that
   reason and that payload, by an action that fits: `nack_no_requeue` only by a nack that asked for no
   requeue of a delivery with retries left, `max_retries_exceeded` only by a nack of one without, and
   `visibility_timeout_exceeded` only by a sweep of an overdue one without.
   */
  lemma BuriedForAReason<P(!new)>(cfg: Config, acts: seq<Action<P>>, m: Message<P>) returns (k: nat, e: Entry<P>)
    requires Holds(Run(cfg, acts).q, m) && m.deadLetterReason.Some?
    ensures k < |acts| && e in Run(cfg, acts[..k]).q.inFlight && e.message.payload == m.payload
    ensures ReasonFits(cfg, acts[k], e, m.deadLetterReason.value)
  {
    hide Run, Holds, ReasonFits;
    var i := SomeBurial(cfg, acts, m, m.deadLetterReason.value);
    k := LogIsTrue(cfg, acts, i);
    e := Run(cfg, acts).q.log[i].entry;
    RunShape(cfg, acts);
    assert EventOk(cfg, Run(cfg, acts).q.log[i]);
  }

  /** A run whose nacks all ask for a requeue holds nothing that was buried for not asking. */
  lemma NobodyRefusedRequeue<P(!new)>(cfg: Config, acts: seq<Action<P>>, m: Message<P>)
    requires forall i :: 0 <= i < |acts| && acts[i].DoNack? ==> acts[i].requeue
    requires Holds(Run(cfg, acts).q, m)
    ensures m.deadLetterReason != Some(NackNoRequeue)
  {
    hide Run, Holds;
    if m.deadLetterReason == Some(NackNoRequeue) {
      var k, e := BuriedForAReason(cfg, acts, m);
      assert false;
    }
  }

  // ---- What a message keeps --------------------------------------------------------------------

  /** Whenever payload `p` is enqueued in the run, it is on topic `t` and for timeout `v`. */
  ghost predicate EnqueuedAs<P>(cfg: Config, acts: seq<Action<P>>, p: P, t: Topic, v: real)
  {
    forall i :: 0 <= i < |acts| && acts[i].DoEnqueue? && acts[i].payload == p ==>
      acts[i].topic == t && v == match acts[i].timeout case Some(given) => given case None => cfg.defaultTimeout
  }

  ghost function Keeps<P>(p: P, t: Topic, v: real): Message<P> -> bool
  {
    (m: Message<P>) => m.payload == p ==> m.originalTopic == t && m.timeout == v
  }

  lemma OnlySuchLetIn<P>(cfg: Config, acts: seq<Action<P>>, p: P, t: Topic, v: real)
    requires EnqueuedAs(cfg, acts, p, t, v)
    ensures LetsIn(Run(cfg, acts).q.log, 0, Keeps(p, t, v))
  {
    hide Run;
    var log, ok := Run(cfg, acts).q.log, Keeps(p, t, v);
    RunShape(cfg, acts);
    forall i | 0 <= i < |log|
      ensures (log[i].Accepted? ==> ok(log[i].message)) && (log[i].DeadLettered? && ok(log[i].entry.message) ==> ok(log[i].message))
    {
      assert EventOk(cfg, log[i]);
      if log[i].Accepted? {
        var k := LogIsTrue(cfg, acts, i);
      }
    }
  }

  /**
   In every run, however often it is retried, fanned out or buried, a message keeps the topic it was
   enqueued on and the visibility timeout it was given, or else the default; so each of its deliveries
   is overdue exactly from its hand-out plus that timeout on.
   */
  lemma CarriedUnchanged<P(!new)>(cfg: Config, acts: seq<Action<P>>, p: P, t: Topic, v: real, e: Entry<P>, now: real)
    requires EnqueuedAs(cfg, acts, p, t, v)
    requires e in Run(cfg, acts).q.inFlight && e.message.payload == p
    ensures e.message.originalTopic == t && e.timeout == v
    ensures Expired(e, now) <==> now >= e.deliveredAt + v
  {
    hide Run;
    var s := Run(cfg, acts).q;
    OnlySuchLetIn(cfg, acts, p, t, v);
    hide LetsIn;
    RunAll(cfg, acts, Keeps(p, t, v));
    RunShape(cfg, acts);
    var i :| 0 <= i < |s.inFlight| && s.inFlight[i] == e;
    assert EntryOk(cfg, s.inFlight[i]);
  }
}
