/** What consumers and pullers are handed, and what handing it back does. */
module WorkQueueReceipts {
  import opened Options
  import opened WorkQueueModel
  import opened WorkQueueInvariants
  import opened WorkQueueConservation

  /** A handler call made after the lock is released: the consumer and the stamped message. */
  datatype Invocation<P> = Invocation(consumer: Id, message: Message<P>)

  /** The handler calls that the deliveries `es`, assigned to `calls` one by one, give rise to. */
  function Paired<P>(es: seq<Entry<P>>, calls: seq<Call>): seq<Invocation<P>>
    requires |es| == |calls|
  {
    seq(|es|, i requires 0 <= i < |es| => Invocation(calls[i].consumer, Stamped(es[i])))
  }

  lemma PairedLength<P>(es: seq<Entry<P>>, calls: seq<Call>)
    requires |es| == |calls|
    ensures |Paired(es, calls)| == |calls|
  {
  }

  /** The handler calls recorded in a stretch of the log. */
  ghost function Invocations<P>(log: seq<Event<P>>): seq<Invocation<P>>
  {
    if log == [] then []
    else
      var ev := log[|log| - 1];
      Invocations(log[..|log| - 1])
      + (if ev.Dispatched? && |ev.entries| == |ev.calls| then Paired(ev.entries, ev.calls) else [])
  }

  lemma InvocationsSnoc<P>(log: seq<Event<P>>, n: nat, ev: Event<P>)
    requires n <= |log| && ev.Dispatched? && |ev.entries| == |ev.calls|
    ensures Invocations((log + [ev])[n..]) == Invocations(log[n..]) + Paired(ev.entries, ev.calls)
  {
    assert (log + [ev])[n..] == log[n..] + [ev];
    assert (log[n..] + [ev])[..|log| - n] == log[n..];
  }

  lemma NoInvocations<P>(log: seq<Event<P>>)
    ensures Invocations(log[|log|..]) == []
  {
  }

  // ---- A delivered message names its own delivery -----------------------------------------

  /**
   Message `m`, handed out between `s` and `s'`, carries a delivery id that was not in flight before and
   is now, and the table holds under it that very message, without the stamp.
   */
  ghost predicate Receipt<P>(s: State<P>, s': State<P>, m: Message<P>)
  {
    && m.deliveryId.Some?
    && var d := m.deliveryId.value;
       !InFlight(s, d) && InFlight(s', d) && s'.inFlight[EntryIndex(s'.inFlight, d)].message == m.(deliveryId := None)
  }

  ghost predicate Receipts<P>(s: State<P>, s': State<P>, invs: seq<Invocation<P>>)
  {
    && (forall i :: 0 <= i < |invs| ==> Receipt(s, s', invs[i].message))
    && (forall i, j :: 0 <= i < j < |invs| ==> invs[i].message.deliveryId != invs[j].message.deliveryId)
  }

  lemma IndexOfNth<P>(es: seq<Entry<P>>, k: nat)
    requires k < |es| && forall i, j :: 0 <= i < j < |es| ==> es[i].deliveryId < es[j].deliveryId
    ensures EntryIndex(es, es[k].deliveryId) == k
  {
    assert !(EntryIndex(es, es[k].deliveryId) < k);
  }

  lemma NewEntryIsReceipt<P>(cfg: Config, s: State<P>, s': State<P>, k: nat)
    requires FlightOk(cfg, s'.inFlight, s'.nextId) && s.inFlight <= s'.inFlight && |s.inFlight| <= k < |s'.inFlight|
    ensures Receipt(s, s', Stamped(s'.inFlight[k]))
  {
    IndexOfNth(s'.inFlight, k);
    var d := s'.inFlight[k].deliveryId;
    forall j | 0 <= j < |s.inFlight| ensures s.inFlight[j].deliveryId != d {
      assert s.inFlight[j] == s'.inFlight[j];
    }
    assert EntryOk(cfg, s'.inFlight[k]);
    hide EntryIndex;
  }

  /** The calls of `invs` hand out the entries `es`, one each. */
  ghost predicate HandOuts<P>(invs: seq<Invocation<P>>, es: seq<Entry<P>>)
  {
    |invs| == |es| && forall i :: 0 <= i < |es| ==> invs[i].message == Stamped(es[i])
  }

  lemma {:induction false} InvocationsCons<P>(ev: Event<P>, log: seq<Event<P>>)
    requires ev.Dispatched? && |ev.entries| == |ev.calls|
    ensures Invocations([ev] + log) == Paired(ev.entries, ev.calls) + Invocations(log)
  {
    hide Paired;
    if log == [] {
      assert [ev] + log == [ev] && [ev][..0] == [];
      assert Invocations([ev]) == Invocations<P>([]) + Paired(ev.entries, ev.calls);
    } else {
      var init := log[..|log| - 1];
      InvocationsCons(ev, init);
      assert ([ev] + log)[..|log|] == [ev] + init;
    }
  }

  lemma HandOutsAppend<P>(invs: seq<Invocation<P>>, es: seq<Entry<P>>, invs': seq<Invocation<P>>, es': seq<Entry<P>>)
    requires HandOuts(invs, es) && HandOuts(invs', es')
    ensures HandOuts(invs + invs', es + es')
  {
    hide Stamped;
  }

  lemma PairedHandOuts<P>(es: seq<Entry<P>>, calls: seq<Call>)
    requires |es| == |calls|
    ensures HandOuts(Paired(es, calls), es)
  {
  }

  lemma FlightSuffix<P>(es: seq<Entry<P>>, new': seq<Entry<P>>, es': seq<Entry<P>>)
    requires es + new' <= es'
    ensures es <= es' && es'[|es|..] == new' + es'[|es| + |new'|..]
  {
    assert es'[|es|..|es| + |new'|] == (es + new')[|es|..];
  }

  lemma {:induction false} LoopHandsOut<P>(cfg: Config, s: State<P>, t: Topic, keys: seq<Key>)
    requires keys != [] && Served(s.groups, keys)
    ensures var s' := DispatchLoop(cfg, s, t, keys);
            && s.log <= s'.log && s.inFlight <= s'.inFlight
            && HandOuts(Invocations(s'.log[|s.log|..]), s'.inFlight[|s.inFlight|..])
    decreases |Pend(s, t)|
  {
    if Pend(s, t) != [] {
      HeadIsTaken(cfg, s, t, keys);
      HeadGoesToAll(cfg, s, t, keys);
      LoopHandsOut(cfg, AfterHead(cfg, s, t, keys), t, keys);
      hide DispatchLoop, Served, HeadEvent, HandOuts, Invocations, HeadEntries;
      var s1 := AfterHead(cfg, s, t, keys);
      HandOutOnTop(s, HeadEvent(cfg, s, t, keys), s1, DispatchLoop(cfg, s1, t, keys));
    } else {
      assert s.log[|s.log|..] == [] && s.inFlight[|s.inFlight|..] == [];
    }
  }

  lemma HandOutOnTop<P>(s: State<P>, ev: Event<P>, s1: State<P>, s': State<P>)
    requires ev.Dispatched? && |ev.entries| == |ev.calls| && s1.log == s.log + [ev] && s1.inFlight == s.inFlight + ev.entries
    requires s1.log <= s'.log && s1.inFlight <= s'.inFlight
    requires HandOuts(Invocations(s'.log[|s1.log|..]), s'.inFlight[|s1.inFlight|..])
    ensures s.log <= s'.log && s.inFlight <= s'.inFlight
    ensures HandOuts(Invocations(s'.log[|s.log|..]), s'.inFlight[|s.inFlight|..])
  {
    hide HandOuts, Paired, Invocations;
    LogSuffix(s.log, ev, s'.log);
    FlightSuffix(s.inFlight, ev.entries, s'.inFlight);
    InvocationsCons(ev, s'.log[|s1.log|..]);
    PairedHandOuts(ev.entries, ev.calls);
    HandOutsAppend(Paired(ev.entries, ev.calls), ev.entries, Invocations(s'.log[|s1.log|..]), s'.inFlight[|s1.inFlight|..]);
  }

  lemma HandOutsAreReceipts<P>(cfg: Config, s: State<P>, s': State<P>, invs: seq<Invocation<P>>)
    requires FlightOk(cfg, s'.inFlight, s'.nextId) && s.inFlight <= s'.inFlight
    requires HandOuts(invs, s'.inFlight[|s.inFlight|..])
    ensures Receipts(s, s', invs)
  {
    var n := |s.inFlight|;
    forall i | 0 <= i < |invs| ensures Receipt(s, s', invs[i].message) && invs[i].message.deliveryId == Some(s'.inFlight[n + i].deliveryId) {
      assert s'.inFlight[n..][i] == s'.inFlight[n + i];
      NewEntryIsReceipt(cfg, s, s', n + i);
    }
    hide Receipt, HandOuts;
  }

  /**
   In every run, each handler call of a dispatch carries a delivery id of its own, new to the table, under
   which the table now holds the message it was called with.
   */
  lemma DispatchGivesReceipts<P>(cfg: Config, acts: seq<Action<P>>, t: Topic)
    ensures var s := Run(cfg, acts).q;
            var s' := Dispatch(cfg, s, t);
            s.log <= s'.log && Receipts(s, s', Invocations(s'.log[|s.log|..]))
  {
    RunShape(cfg, acts);
    ShapeHasGroups(cfg, Run(cfg, acts).q);
    DispatchShape(cfg, Run(cfg, acts).q, t);
    hide Run, NoneEmpty, DispatchLoop, GroupsOk, PendingOk, LogOk, FlightOk, Receipts, Invocations, HandOuts;
    var s := Run(cfg, acts).q;
    var keys := KeysOn(s.groups, t);
    GroupsAreServed(s.groups, t);
    if keys == [] {
      NoInvocations(s.log);
      NoReceipts(s);
    } else {
      LoopHandsOut(cfg, s, t, keys);
      var s' := Dispatch(cfg, s, t);
      HandOutsAreReceipts(cfg, s, s', Invocations(s'.log[|s.log|..]));
    }
  }

  lemma NoReceipts<P>(s: State<P>)
    ensures Receipts<P>(s, s, [])
  {
  }

  /** In every run, a message pulled is the head of the queue, with a delivery id of its own that the table now knows. */
  lemma DequeueGivesReceipt<P>(cfg: Config, acts: seq<Action<P>>, t: Topic)
    requires !Run(cfg, acts).q.closed && Pend(Run(cfg, acts).q, t) != []
    ensures var s := Run(cfg, acts).q;
            var s' := Dequeue(cfg, s, t);
            && |s'.inFlight| == |s.inFlight| + 1
            && var m := Stamped(s'.inFlight[|s.inFlight|]);
               Receipt(s, s', m) && m.(deliveryId := None) == Pend(s, t)[0] && Pend(s', t) == Pend(s, t)[1..]
  {
    RunShape(cfg, acts);
    DequeueShape(cfg, Run(cfg, acts).q, t);
    hide Run;
    var s := Run(cfg, acts).q;
    var s' := Dequeue(cfg, s, t);
    PendIsOk(cfg, s, t);
    hide GroupsOk, PendingOk, LogOk, FlightOk, Receipt;
    NewEntryIsReceipt(cfg, s, s', |s.inFlight|);
  }

  // ---- Handing it back ---------------------------------------------------------------------

  lemma FoundAt<P>(cfg: Config, s: State<P>, i: nat)
    requires Shape(cfg, s) && i < |s.inFlight|
    ensures EntryIndex(s.inFlight, s.inFlight[i].deliveryId) == i
  {
    IndexOfNth(s.inFlight, i);
  }

  /** In every run, an ack of a delivery in flight takes out exactly that entry and touches nothing else. */
  lemma AckSettles<P>(cfg: Config, acts: seq<Action<P>>, i: nat)
    requires i < |Run(cfg, acts).q.inFlight|
    ensures var s := Run(cfg, acts).q;
            var s' := Ack(s, s.inFlight[i].deliveryId);
            && s' == s.(inFlight := s.inFlight[..i] + s.inFlight[i + 1..], log := s'.log)
            && !InFlight(s', s.inFlight[i].deliveryId)
  {
    RunShape(cfg, acts);
    hide Run;
    var s := Run(cfg, acts).q;
    FoundAt(cfg, s, i);
    NotFoundWithout(s.inFlight, i);
    hide EntryIndex, Shape;
  }

  lemma NotFoundWithout<P>(es: seq<Entry<P>>, i: nat)
    requires i < |es| && forall j, k :: 0 <= j < k < |es| ==> es[j].deliveryId < es[k].deliveryId
    ensures var rest := es[..i] + es[i + 1..]; EntryIndex(rest, es[i].deliveryId) == |rest|
  {
    var rest := es[..i] + es[i + 1..];
    forall j | 0 <= j < |rest| ensures rest[j].deliveryId != es[i].deliveryId {
      assert rest[j] == es[if j < i then j else j + 1];
    }
  }

  /**
   In every run, a nack of a delivery in flight takes out exactly that entry.  If it asks for a requeue and
   the delivery has retries left, its message, one retry older, becomes the first of its topic's queue;
   otherwise a copy with a new id and the reason becomes the last of the dead-letter topic's.  No other
   queue changes.
   */
  lemma NackSettles<P>(cfg: Config, acts: seq<Action<P>>, i: nat, requeue: bool, t: Topic)
    requires i < |Run(cfg, acts).q.inFlight|
    ensures var s := Run(cfg, acts).q;
            var e := s.inFlight[i];
            var s', retry := Nack(cfg, s, e.deliveryId, requeue), requeue && e.retry + 1 < cfg.maxRetries;
            && s'.inFlight == s.inFlight[..i] + s.inFlight[i + 1..]
            && (retry ==> Pend(s', t) == (if t == e.topic then [e.message.(retry := e.retry + 1)] else []) + Pend(s, t))
            && (!retry ==>
                  var why := if e.retry + 1 >= cfg.maxRetries then MaxRetriesExceeded else NackNoRequeue;
                  var copy := e.message.(id := s.nextId, topic := e.topic + ".dead_letter", deadLetterReason := Some(why));
                  Pend(s', t) == Pend(s, t) + (if t == e.topic + ".dead_letter" then [copy] else []))
  {
    RunShape(cfg, acts);
    hide Run;
    var s := Run(cfg, acts).q;
    FoundAt(cfg, s, i);
    hide EntryIndex, Shape;
    var e, s0 := s.inFlight[i], s.(inFlight := Without(s.inFlight, i));
    RequeuedFirst(s0, e, t);
    BuriedLast(s0, e, if e.retry + 1 >= cfg.maxRetries then MaxRetriesExceeded else NackNoRequeue, t);
    hide Requeue, DeadLetter, Pend;
  }

  lemma RequeuedFirst<P>(s: State<P>, e: Entry<P>, t: Topic)
    ensures Requeue(s, e).inFlight == s.inFlight
    ensures Pend(Requeue(s, e), t) == (if t == e.topic then [e.message.(retry := e.retry + 1)] else []) + Pend(s, t)
  {
  }

  lemma BuriedLast<P>(s: State<P>, e: Entry<P>, why: Reason, t: Topic)
    ensures DeadLetter(s, e, why).inFlight == s.inFlight
    ensures var topic := e.topic + ".dead_letter";
            Pend(DeadLetter(s, e, why), t)
            == Pend(s, t) + (if t == topic then [e.message.(id := s.nextId, topic := topic, deadLetterReason := Some(why))] else [])
  {
  }

  /** Pulling a message and acknowledging it by the id it carries leaves the table as it was. */
  lemma AckUndoesDequeue<P>(cfg: Config, acts: seq<Action<P>>, t: Topic)
    requires !Run(cfg, acts).q.closed && Pend(Run(cfg, acts).q, t) != []
    ensures var s := Run(cfg, acts).q;
            var s' := Dequeue(cfg, s, t);
            && s'.inFlight != []
            && var m := Stamped(s'.inFlight[|s'.inFlight| - 1]);
               m.deliveryId.Some? && Ack(s', m.deliveryId.value).inFlight == s.inFlight
  {
    var n := |Run(cfg, acts).q.inFlight|;
    DequeueGivesReceipt(cfg, acts, t);
    RunSnoc(cfg, acts, DoDequeue(t));
    AckSettles(cfg, acts + [DoDequeue(t)], n);
    hide Run, Receipt;
    var s := Run(cfg, acts).q;
    var s' := Dequeue(cfg, s, t);
    assert s'.inFlight[..n] == s.inFlight && s'.inFlight[n + 1..] == [];
  }
}
