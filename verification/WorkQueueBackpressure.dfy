/** How full a queue can get: what `max_work_queue_size` bounds, and what it does not. */
module WorkQueueBackpressure {
  import opened Options
  import opened Sums
  import opened WorkQueueModel
  import opened WorkQueueInvariants
  import opened WorkQueueConservation

  /** Weighs the messages that have never been delivered, or all of them. */
  ghost function Weighs<P>(freshOnly: bool): Message<P> -> nat
  {
    (m: Message<P>) => One(!freshOnly || m.retry == 0)
  }

  ghost function Fresh<P>(s: State<P>, t: Topic): nat
  {
    Sum(Pend(s, t), Weighs(true))
  }

  lemma {:induction false} WeighingAll<P>(ms: seq<Message<P>>)
    ensures Sum(ms, Weighs(false)) == |ms|
  {
    if ms != [] {
      WeighingAll(ms[..|ms| - 1]);
    }
  }

  lemma {:induction false} FreshAtMostAll<P>(ms: seq<Message<P>>, freshOnly: bool)
    ensures Sum(ms, Weighs(freshOnly)) <= |ms|
  {
    if ms != [] {
      FreshAtMostAll(ms[..|ms| - 1], freshOnly);
    }
  }

  /** The weight on `t` is within the configured size. */
  ghost predicate Within<P>(cfg: Config, s: State<P>, t: Topic, freshOnly: bool)
  {
    Sum(Pend(s, t), Weighs(freshOnly)) <= cfg.maxSize
  }

  /** Retried messages weigh nothing: because only fresh ones count, or because nothing is retried. */
  ghost predicate RetriesFree(cfg: Config, freshOnly: bool)
  {
    freshOnly || cfg.maxRetries <= 1
  }

  lemma EnqueueWithin<P>(cfg: Config, s: State<P>, u: Topic, p: P, vt: Option<real>, t: Topic, freshOnly: bool)
    requires cfg.maxSize > 0 && Within(cfg, s, t, freshOnly)
    ensures Within(cfg, Enqueue(cfg, s, u, p, vt), t, freshOnly)
  {
    if u == t && !Full(cfg, s, t) {
      FreshAtMostAll(Pend(s, t), freshOnly);
      SumSnoc(Pend(s, t), NewMessage(cfg, s.nextId, u, p, vt), Weighs(freshOnly));
    }
  }

  lemma TailWithin<P>(ms: seq<Message<P>>, freshOnly: bool)
    requires ms != []
    ensures Sum(ms[1..], Weighs(freshOnly)) <= Sum(ms, Weighs(freshOnly))
  {
    assert ms == [ms[0]] + ms[1..];
    SumCons(ms[0], ms[1..], Weighs(freshOnly));
  }

  lemma RequeueWithin<P>(cfg: Config, s: State<P>, e: Entry<P>, t: Topic, freshOnly: bool)
    requires RetriesFree(cfg, freshOnly) && CanRetry(cfg, e) && Within(cfg, s, t, freshOnly)
    ensures Within(cfg, Requeue(s, e), t, freshOnly)
  {
    SumCons(e.message.(retry := e.retry + 1), Pend(s, e.topic), Weighs(freshOnly));
  }

  lemma BuriedElsewhere<P>(cfg: Config, s: State<P>, e: Entry<P>, why: Reason, t: Topic)
    requires !IsDeadLetterTopic(t)
    ensures Pend(DeadLetter(s, e, why), t) == Pend(s, t)
  {
    DeadLetterTopicsEndSo(e.topic);
  }

  lemma {:induction false} ExpireAllWithin<P>(cfg: Config, s: State<P>, es: seq<Entry<P>>, t: Topic, freshOnly: bool)
    requires RetriesFree(cfg, freshOnly) && !IsDeadLetterTopic(t) && Within(cfg, s, t, freshOnly)
    ensures Within(cfg, ExpireAll(cfg, s, es), t, freshOnly)
    decreases |es|
  {
    hide Requeue, DeadLetter, Weighs;
    if es != [] {
      if CanRetry(cfg, es[0]) {
        RequeueWithin(cfg, s, es[0], t, freshOnly);
      } else {
        BuriedElsewhere(cfg, s, es[0], VisibilityTimeoutExceeded, t);
      }
      ExpireAllWithin(cfg, Expire(cfg, s, es[0]), es[1..], t, freshOnly);
    }
  }

  lemma NackWithin<P>(cfg: Config, s: State<P>, d: Id, r: bool, t: Topic, freshOnly: bool)
    requires RetriesFree(cfg, freshOnly) && !IsDeadLetterTopic(t) && Within(cfg, s, t, freshOnly)
    ensures Within(cfg, Nack(cfg, s, d, r), t, freshOnly)
  {
    hide Requeue, DeadLetter, Weighs;
    var i := EntryIndex(s.inFlight, d);
    if i < |s.inFlight| {
      var e, s' := s.inFlight[i], s.(inFlight := Without(s.inFlight, i));
      if r && CanRetry(cfg, e) {
        RequeueWithin(cfg, s', e, t, freshOnly);
      } else {
        BuriedElsewhere(cfg, s', e, if CanRetry(cfg, e) then NackNoRequeue else MaxRetriesExceeded, t);
      }
    }
  }

  lemma {:induction false} DispatchLoopWithin<P>(cfg: Config, s: State<P>, u: Topic, keys: seq<Key>, t: Topic, freshOnly: bool)
    requires Within(cfg, s, t, freshOnly) && keys != [] && Served(s.groups, keys)
    ensures Within(cfg, DispatchLoop(cfg, s, u, keys), t, freshOnly)
    decreases |Pend(s, u)|
  {
    if Pend(s, u) != [] {
      TailWithin(Pend(s, u), freshOnly);
      HeadIsTaken(cfg, s, u, keys);
      DispatchLoopWithin(cfg, AfterHead(cfg, s, u, keys), u, keys, t, freshOnly);
    }
  }

  lemma ApplyWithin<P>(cfg: Config, s: State<P>, a: Action<P>, t: Topic, freshOnly: bool)
    requires cfg.maxSize > 0 && RetriesFree(cfg, freshOnly) && !IsDeadLetterTopic(t)
    requires NoneEmpty(s.groups) && Within(cfg, s, t, freshOnly)
    ensures Within(cfg, Apply(cfg, s, a), t, freshOnly)
  {
    hide Enqueue, Nack, ExpireAll, DispatchLoop, Weighs;
    match a
    case DoEnqueue(u, p, vt) => EnqueueWithin(cfg, s, u, p, vt, t, freshOnly);
    case DoDequeue(u) => if Pend(s, u) != [] { TailWithin(Pend(s, u), freshOnly); }
    case DoNack(d, r) => NackWithin(cfg, s, d, r, t, freshOnly);
    case DoSweep(now) =>
      ExpireAllWithin(cfg, s.(inFlight := NotOverdue(s.inFlight, now)), Overdue(s.inFlight, now), t, freshOnly);
    case DoDispatch(u) =>
      GroupsAreServed(s.groups, u);
      if KeysOn(s.groups, u) != [] { DispatchLoopWithin(cfg, s, u, KeysOn(s.groups, u), t, freshOnly); }
    case _ =>
  }

  lemma {:induction false} RunWithin<P>(cfg: Config, acts: seq<Action<P>>, t: Topic, freshOnly: bool)
    requires cfg.maxSize > 0 && RetriesFree(cfg, freshOnly) && !IsDeadLetterTopic(t)
    ensures Within(cfg, Run(cfg, acts).q, t, freshOnly)
  {
    hide Apply, Shape, Weighs;
    if acts != [] {
      var init := acts[..|acts| - 1];
      RunWithin(cfg, init, t, freshOnly);
      RunShape(cfg, init);
      ShapeHasGroups(cfg, Run(cfg, init).q);
      ApplyWithin(cfg, Run(cfg, init).q, acts[|acts| - 1], t, freshOnly);
    }
  }

  /** Backpressure survives requeues: never more than max_work_queue_size undelivered messages. */
  lemma FreshIsBounded<P>(cfg: Config, acts: seq<Action<P>>, t: Topic)
    requires cfg.maxSize > 0 && !IsDeadLetterTopic(t)
    ensures Fresh(Run(cfg, acts).q, t) <= cfg.maxSize
  {
    hide Run;
    RunWithin(cfg, acts, t, true);
  }

  // ---- Dead-letter topics are not bounded at all -----------------------------------

  /** `n` messages are enqueued on `u`, pulled, and rejected for good. */
  function Rejections<P>(u: Topic, p: P, n: nat): seq<Action<P>>
  {
    if n == 0 then []
    else Rejections(u, p, n - 1) + [DoEnqueue(u, p, None), DoDequeue(u), DoNack(3 * (n - 1) + 1, false)]
  }

  ghost predicate Rejected<P>(s: State<P>, u: Topic, n: nat)
  {
    && s.inFlight == [] && !s.closed && Pend(s, u) == [] && s.nextId == 3 * n
    && Fresh(s, DeadLetterTopic(u)) == n
  }

  /** Enqueue and pull on an idle topic: the message is in flight and nothing else has changed. */
  lemma PulledAtOnce<P>(cfg: Config, s: State<P>, u: Topic, p: P)
    requires s.inFlight == [] && !s.closed && Pend(s, u) == []
    ensures var s' := Dequeue(cfg, Enqueue(cfg, s, u, p, None), u);
            var m := NewMessage(cfg, s.nextId, u, p, None);
            && s'.inFlight == [NewEntry(cfg, s.nextId + 1, m, u, u + "._pull")]
            && !s'.closed && s'.nextId == s.nextId + 2 && Pend(s', u) == []
            && forall t :: t != u ==> Pend(s', t) == Pend(s, t)
  {
    var s1 := Enqueue(cfg, s, u, p, None);
    assert Pend(s1, u) == [NewMessage(cfg, s.nextId, u, p, None)];
  }

  /** Rejecting the only delivery for good buries it. */
  lemma BuriedAtOnce<P>(cfg: Config, s: State<P>, e: Entry<P>)
    requires s.inFlight == [e] && e.message.retry == 0
    ensures var s' := Nack(cfg, s, e.deliveryId, false);
            && s'.inFlight == [] && s'.closed == s.closed && s'.nextId == s.nextId + 1
            && Fresh(s', DeadLetterTopic(e.topic)) == Fresh(s, DeadLetterTopic(e.topic)) + 1
            && (forall t :: t != DeadLetterTopic(e.topic) ==> Pend(s', t) == Pend(s, t))
  {
    var t := DeadLetterTopic(e.topic);
    var why := if CanRetry(cfg, e) then NackNoRequeue else MaxRetriesExceeded;
    assert EntryIndex(s.inFlight, e.deliveryId) == 0;
    assert Nack(cfg, s, e.deliveryId, false) == DeadLetter(s.(inFlight := []), e, why);
    SumSnoc(Pend(s, t), DeadLetterCopy(e, s.nextId, why), Weighs(true));
  }

  lemma OneRejection<P>(cfg: Config, s: State<P>, u: Topic, p: P, n: nat)
    requires Rejected(s, u, n)
    ensures Rejected(Nack(cfg, Dequeue(cfg, Enqueue(cfg, s, u, p, None), u), 3 * n + 1, false), u, n + 1)
  {
    hide Enqueue, Dequeue, Nack, Pend;
    var s2 := Dequeue(cfg, Enqueue(cfg, s, u, p, None), u);
    assert u != DeadLetterTopic(u);
    PulledAtOnce(cfg, s, u, p);
    BuriedAtOnce(cfg, s2, s2.inFlight[0]);
  }

  lemma NothingRejectedYet<P>(cfg: Config, u: Topic)
    ensures Rejected(Run<P>(cfg, []).q, u, 0)
  {
  }

  lemma {:induction false} RejectionsPileUp<P>(cfg: Config, u: Topic, p: P, n: nat)
    ensures Rejected(Run(cfg, Rejections(u, p, n)).q, u, n)
  {
    hide Run, Rejected, Enqueue, Dequeue, Nack;
    if n == 0 {
      NothingRejectedYet<P>(cfg, u);
    } else {
      var acts := Rejections(u, p, n - 1);
      var a, b, c := DoEnqueue(u, p, None), DoDequeue(u), DoNack(3 * (n - 1) + 1, false);
      RejectionsPileUp(cfg, u, p, n - 1);
      assert Rejections(u, p, n) == ((acts + [a]) + [b]) + [c];
      RunSnoc(cfg, acts, a);
      RunSnoc(cfg, acts + [a], b);
      RunSnoc(cfg, acts + [a] + [b], c);
      OneRejection(cfg, Run(cfg, acts).q, u, p, n - 1);
    }
  }

  /** The limit on undelivered messages holds of a topic in every run exactly if it is no dead-letter topic. */
  lemma FreshIsBoundedExactly<P(!new)>(cfg: Config, t: Topic, p: P)
    requires cfg.maxSize > 0
    ensures (forall acts: seq<Action<P>> :: Fresh(Run(cfg, acts).q, t) <= cfg.maxSize) <==> !IsDeadLetterTopic(t)
  {
    hide Run, Fresh;
    if IsDeadLetterTopic(t) {
      var u := t[..|t| - |DEAD_LETTER|];
      assert t == DeadLetterTopic(u);
      RejectionsPileUp(cfg, u, p, cfg.maxSize + 1);
      assert Fresh(Run(cfg, Rejections(u, p, cfg.maxSize + 1)).q, t) > cfg.maxSize;
    } else {
      forall acts: seq<Action<P>> ensures Fresh(Run(cfg, acts).q, t) <= cfg.maxSize {
        FreshIsBounded(cfg, acts, t);
      }
    }
  }

  // ---- Requeues may push the whole queue past the limit ------------------------------

  function Fill<P>(t: Topic, p: P, n: nat): seq<Action<P>>
  {
    if n == 0 then [] else Fill(t, p, n - 1) + [DoEnqueue(t, p, None)]
  }

  ghost predicate Filled<P>(s: State<P>, t: Topic, n: nat)
  {
    && s.inFlight == [] && !s.closed && s.nextId == n && |Pend(s, t)| == n
    && forall i :: 0 <= i < n ==> Pend(s, t)[i].retry == 0
  }

  lemma OneFill<P>(cfg: Config, s: State<P>, t: Topic, p: P, n: nat)
    requires Filled(s, t, n) && n < cfg.maxSize
    ensures Filled(Enqueue(cfg, s, t, p, None), t, n + 1)
  {
    assert Pend(Enqueue(cfg, s, t, p, None), t) == Pend(s, t) + [NewMessage(cfg, n, t, p, None)];
  }

  lemma NothingFilledYet<P>(cfg: Config, t: Topic)
    ensures Filled(Run<P>(cfg, []).q, t, 0)
  {
  }

  lemma {:induction false} FillFills<P>(cfg: Config, t: Topic, p: P, n: nat)
    requires n <= cfg.maxSize
    ensures Filled(Run(cfg, Fill(t, p, n)).q, t, n)
  {
    hide Run, Filled, Enqueue;
    if n == 0 {
      NothingFilledYet<P>(cfg, t);
    } else {
      FillFills(cfg, t, p, n - 1);
      RunSnoc(cfg, Fill(t, p, n - 1), DoEnqueue(t, p, None));
      OneFill(cfg, Run(cfg, Fill(t, p, n - 1)).q, t, p, n - 1);
    }
  }

  /** A full queue, one message pulled, its place taken, and the pulled one put back. */
  function Overfill<P>(t: Topic, p: P, n: nat): seq<Action<P>>
  {
    Fill(t, p, n) + [DoDequeue(t)] + [DoEnqueue(t, p, None)] + [DoNack(n, true)]
  }

  lemma OverfillSteps<P>(cfg: Config, s: State<P>, t: Topic, p: P)
    requires cfg.maxSize > 0 && cfg.maxRetries > 1 && Filled(s, t, cfg.maxSize)
    ensures |Pend(Nack(cfg, Enqueue(cfg, Dequeue(cfg, s, t), t, p, None), cfg.maxSize, true), t)| == cfg.maxSize + 1
  {
    var n := cfg.maxSize;
    var s1 := Dequeue(cfg, s, t);
    assert |s1.inFlight| == 1 && s1.inFlight[0].deliveryId == n && s1.inFlight[0].retry == 0 && s1.inFlight[0].topic == t;
    assert |Pend(s1, t)| == n - 1;
    var s2 := Enqueue(cfg, s1, t, p, None);
    assert |Pend(s2, t)| == n;
  }

  lemma OverfillOverfills<P>(cfg: Config, t: Topic, p: P)
    requires cfg.maxSize > 0 && cfg.maxRetries > 1
    ensures |Pend(Run(cfg, Overfill(t, p, cfg.maxSize)).q, t)| == cfg.maxSize + 1
  {
    hide Run, Filled, Fill, Enqueue, Dequeue, Nack;
    var acts := Fill(t, p, cfg.maxSize);
    FillFills(cfg, t, p, cfg.maxSize);
    RunSnoc(cfg, acts, DoDequeue(t));
    RunSnoc(cfg, acts + [DoDequeue(t)], DoEnqueue(t, p, None));
    RunSnoc(cfg, acts + [DoDequeue(t)] + [DoEnqueue(t, p, None)], DoNack(cfg.maxSize, true));
    OverfillSteps(cfg, Run(cfg, acts).q, t, p);
  }

  /** The limit holds of the whole queue, in every run, exactly if the configuration allows no retries. */
  lemma LengthIsBoundedExactly<P(!new)>(cfg: Config, t: Topic, p: P)
    requires cfg.maxSize > 0 && !IsDeadLetterTopic(t)
    ensures (forall acts: seq<Action<P>> :: |Pend(Run(cfg, acts).q, t)| <= cfg.maxSize) <==> cfg.maxRetries <= 1
  {
    hide Run, Pend;
    if cfg.maxRetries > 1 {
      OverfillOverfills(cfg, t, p);
      assert |Pend(Run(cfg, Overfill(t, p, cfg.maxSize)).q, t)| > cfg.maxSize;
    } else {
      forall acts: seq<Action<P>> ensures |Pend(Run(cfg, acts).q, t)| <= cfg.maxSize {
        RunWithin(cfg, acts, t, false);
        WeighingAll(Pend(Run(cfg, acts).q, t));
      }
    }
  }
}
