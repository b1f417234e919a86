/** No message is lost or invented: where every enqueued payload is, at every point of every run. */
module WorkQueueConservation {
  import opened Sums
  import opened WorkQueueModel
  import opened WorkQueueInvariants
  import opened WorkQueueLedger

  function One(b: bool): nat
  {
    if b then 1 else 0
  }

  // ---- What is counted -------------------------------------------------------

  ghost function OfPayload<P>(p: P): Message<P> -> nat
  {
    (m: Message<P>) => One(m.payload == p)
  }

  ghost function Carries<P>(t: Topic, p: P): Entry<P> -> nat
  {
    (e: Entry<P>) => One(e.topic == t && e.message.payload == p)
  }

  ghost function AcceptedBy<P>(t: Topic, p: P, ev: Event<P>): nat
  {
    One(ev.Accepted? && ev.topic == t && ev.message.payload == p)
  }

  ghost function AckedBy<P>(t: Topic, p: P, ev: Event<P>): nat
  {
    if ev.Acked? then Carries(t, p)(ev.entry) else 0
  }

  ghost function BuriedBy<P>(t: Topic, p: P, ev: Event<P>): nat
  {
    if ev.DeadLettered? then Carries(t, p)(ev.entry) else 0
  }

  ghost function ArrivedBy<P>(t: Topic, p: P, ev: Event<P>): nat
  {
    One(ev.DeadLettered? && DeadLetterTopic(ev.entry.topic) == t && ev.entry.message.payload == p)
  }

  ghost function DroppedBy<P>(t: Topic, p: P, ev: Event<P>): nat
  {
    if ev.Dropped? then Sum(PendingIn(ev.pending, t), OfPayload(p)) + Sum(ev.inFlight, Carries(t, p)) else 0
  }

  /** A message handed to k groups leaves k - 1 messages more than there were. */
  ghost function FannedBy<P>(t: Topic, p: P, ev: Event<P>): nat
  {
    if ev.Dispatched? && ev.topic == t && ev.message.payload == p && |ev.entries| > 0 then |ev.entries| - 1 else 0
  }

  /** Deliveries, to groups or pullers, made of payload `p` on topic `t`. */
  ghost function DeliveredBy<P>(t: Topic, p: P, ev: Event<P>): nat
  {
    if ev.Dispatched? then Sum(ev.entries, Carries(t, p)) else 0
  }

  /** How many messages with payload `p` are pending or in flight on topic `t`. */
  ghost function Located<P>(s: State<P>, t: Topic, p: P): nat
  {
    Sum(Pend(s, t), OfPayload(p)) + Sum(s.inFlight, Carries(t, p))
  }

  ghost function Accepts<P>(s: State<P>, t: Topic, p: P): nat { Sum(s.log, ev => AcceptedBy(t, p, ev)) }
  ghost function Acks<P>(s: State<P>, t: Topic, p: P): nat { Sum(s.log, ev => AckedBy(t, p, ev)) }
  ghost function Burials<P>(s: State<P>, t: Topic, p: P): nat { Sum(s.log, ev => BuriedBy(t, p, ev)) }
  ghost function Arrivals<P>(s: State<P>, t: Topic, p: P): nat { Sum(s.log, ev => ArrivedBy(t, p, ev)) }
  ghost function Drops<P>(s: State<P>, t: Topic, p: P): nat { Sum(s.log, ev => DroppedBy(t, p, ev)) }
  ghost function Fanned<P>(s: State<P>, t: Topic, p: P): nat { Sum(s.log, ev => FannedBy(t, p, ev)) }
  ghost function Delivered<P>(s: State<P>, t: Topic, p: P): nat { Sum(s.log, ev => DeliveredBy(t, p, ev)) }

  // ---- The ledger of one topic -----------------------------------------------

  lemma DeliveriesCarry<P>(cfg: Config, t: Topic, p: P, ev: Event<P>)
    requires EventOk(cfg, ev) && ev.Dispatched?
    ensures Sum(ev.entries, Carries(t, p)) == if ev.topic == t && ev.message.payload == p then |ev.entries| else 0
  {
    var c := One(ev.topic == t && ev.message.payload == p);
    forall i | 0 <= i < |ev.entries| ensures Carries(t, p)(ev.entries[i]) == c {
      assert EntryOf(cfg, ev.topic, ev.message, ev.entries[i]);
    }
    SumConstant(ev.entries, Carries(t, p), c);
  }

  /** Each event, on its own, moves as much in as it moves out. */
  lemma EventBalances<P>(cfg: Config, t: Topic, p: P, ev: Event<P>)
    requires EventOk(cfg, ev)
    ensures TakenBy(t, OfPayload(p), ev) + SettledBy(Carries(t, p), ev)
            + AcceptedBy(t, p, ev) + ArrivedBy(t, p, ev) + FannedBy(t, p, ev)
         == PutBy(t, OfPayload(p), ev) + GivenBy(Carries(t, p), ev)
            + AckedBy(t, p, ev) + BuriedBy(t, p, ev) + DroppedBy(t, p, ev)
  {
    if ev.Dispatched? {
      DeliveriesCarry(cfg, t, p, ev);
    }
  }

  lemma {:induction false} LogBalances<P>(cfg: Config, log: seq<Event<P>>, t: Topic, p: P)
    requires LogOk(cfg, log)
    ensures Sum(log, Taken(t, OfPayload(p))) + Sum(log, Settled(Carries(t, p)))
            + Sum(log, ev => AcceptedBy(t, p, ev)) + Sum(log, ev => ArrivedBy(t, p, ev)) + Sum(log, ev => FannedBy(t, p, ev))
         == Sum(log, Put(t, OfPayload(p))) + Sum(log, Given(Carries(t, p)))
            + Sum(log, ev => AckedBy(t, p, ev)) + Sum(log, ev => BuriedBy(t, p, ev)) + Sum(log, ev => DroppedBy(t, p, ev))
  {
    if log != [] {
      LogBalances(cfg, log[..|log| - 1], t, p);
      EventBalances(cfg, t, p, log[|log| - 1]);
    }
  }

  /**
   Conservation on one topic, for every run, topic and payload: what is pending or in flight, was
   acknowledged, went on to the dead-letter topic or was dropped by `close` is what was accepted,
   arrived as a dead letter, or was added by fan-out.
   */
  lemma Conservation<P>(cfg: Config, acts: seq<Action<P>>, t: Topic, p: P)
    ensures var s := Run(cfg, acts).q;
            Located(s, t, p) + Acks(s, t, p) + Burials(s, t, p) + Drops(s, t, p)
            == Accepts(s, t, p) + Arrivals(s, t, p) + Fanned(s, t, p)
  {
    hide Run;
    RunShape(cfg, acts);
    RunPend(cfg, acts, t, OfPayload(p));
    RunFlight(cfg, acts, Carries(t, p));
    LogBalances(cfg, Run(cfg, acts).q.log, t, p);
  }

  // ---- Dead letters ------------------------------------------------------------

  lemma DeadLetterTopicInjective(t: Topic, u: Topic)
    requires DeadLetterTopic(t) == DeadLetterTopic(u)
    ensures t == u
  {
    assert DeadLetterTopic(t)[..|t|] == t;
    assert DeadLetterTopic(u)[..|u|] == u;
  }

  /** Every message that leaves `t` as a dead letter arrives on t.dead_letter, and nothing else does. */
  lemma {:induction false} BurialsArrive<P>(log: seq<Event<P>>, t: Topic, p: P)
    ensures Sum(log, ev => ArrivedBy(DeadLetterTopic(t), p, ev)) == Sum(log, ev => BuriedBy(t, p, ev))
  {
    if log != [] {
      BurialsArrive(log[..|log| - 1], t, p);
      var ev := log[|log| - 1];
      if ev.DeadLettered? && DeadLetterTopic(ev.entry.topic) == DeadLetterTopic(t) {
        DeadLetterTopicInjective(ev.entry.topic, t);
      }
    }
  }

  lemma DeadLetterTopicsEndSo(t: Topic)
    ensures IsDeadLetterTopic(DeadLetterTopic(t))
  {
    assert DeadLetterTopic(t)[|t|..] == DEAD_LETTER;
  }

  lemma {:induction false} NothingArrivesElsewhere<P>(log: seq<Event<P>>, t: Topic, p: P)
    requires !IsDeadLetterTopic(t)
    ensures Sum(log, ev => ArrivedBy(t, p, ev)) == 0
  {
    if log != [] {
      NothingArrivesElsewhere(log[..|log| - 1], t, p);
      var ev := log[|log| - 1];
      if ev.DeadLettered? {
        DeadLetterTopicsEndSo(ev.entry.topic);
      }
    }
  }

  // ---- How far a message is fanned out ----------------------------------------------

  /** The number of consumer groups on topic `t` after `acts` and the first `n` steps of `more`. */
  ghost function GroupsAfter<P>(cfg: Config, acts: seq<Action<P>>, more: seq<Action<P>>, n: nat, t: Topic): nat
    requires n <= |more|
  {
    |KeysOn(Run(cfg, acts + more[..n]).q.groups, t)|
  }

  /** Topic `t` has at most `most` consumer groups at every point of `more`, when that follows `acts`. */
  ghost predicate GroupsBounded<P>(cfg: Config, acts: seq<Action<P>>, more: seq<Action<P>>, t: Topic, most: nat)
  {
    forall n :: 0 <= n <= |more| ==> GroupsAfter(cfg, acts, more, n, t) <= most
  }

  /** No message taken from `t` since the log had length `from` went to more than `most` recipients. */
  ghost predicate FanOutBounded<P>(log: seq<Event<P>>, from: nat, t: Topic, most: nat)
  {
    forall i :: from <= i < |log| && log[i].Dispatched? && log[i].topic == t ==> |log[i].entries| <= most
  }

  lemma {:induction false} DispatchLoopFanOut<P>(cfg: Config, s: State<P>, u: Topic, keys: seq<Key>, from: nat, t: Topic, most: nat)
    requires keys != [] && Served(s.groups, keys) && FanOutBounded(s.log, from, t, most) && (u == t ==> |keys| <= most)
    ensures FanOutBounded(DispatchLoop(cfg, s, u, keys).log, from, t, most)
    decreases |Pend(s, u)|
  {
    if Pend(s, u) != [] {
      NewEntriesFacts(cfg, s.nextId, Pend(s, u)[0], u, keys, |keys| > 1);
      HeadIsTaken(cfg, s, u, keys);
      DispatchLoopFanOut(cfg, AfterHead(cfg, s, u, keys), u, keys, from, t, most);
    }
  }

  lemma {:induction false} ExpireAllFanOut<P>(cfg: Config, s: State<P>, es: seq<Entry<P>>, from: nat, t: Topic, most: nat)
    requires FanOutBounded(s.log, from, t, most)
    ensures FanOutBounded(ExpireAll(cfg, s, es).log, from, t, most)
    decreases |es|
  {
    if es != [] {
      ExpireAllFanOut(cfg, Expire(cfg, s, es[0]), es[1..], from, t, most);
    }
  }

  lemma DispatchFanOut<P>(cfg: Config, s: State<P>, u: Topic, from: nat, t: Topic, most: nat)
    requires NoneEmpty(s.groups) && FanOutBounded(s.log, from, t, most) && |KeysOn(s.groups, t)| <= most
    ensures FanOutBounded(Dispatch(cfg, s, u).log, from, t, most)
  {
    GroupsAreServed(s.groups, u);
    if KeysOn(s.groups, u) != [] {
      DispatchLoopFanOut(cfg, s, u, KeysOn(s.groups, u), from, t, most);
    }
  }

  lemma ApplyFanOut<P>(cfg: Config, s: State<P>, a: Action<P>, from: nat, t: Topic, most: nat)
    requires NoneEmpty(s.groups) && FanOutBounded(s.log, from, t, most) && 1 <= most && |KeysOn(s.groups, t)| <= most
    ensures FanOutBounded(Apply(cfg, s, a).log, from, t, most)
  {
    hide Dispatch, ExpireAll, Full, KeysOn;
    match a
    case DoDispatch(u) => DispatchFanOut(cfg, s, u, from, t, most);
    case DoSweep(now) =>
      ExpireAllFanOut(cfg, s.(inFlight := NotOverdue(s.inFlight, now)), Overdue(s.inFlight, now), from, t, most);
    case _ =>
  }

  lemma ShapeHasGroups<P>(cfg: Config, s: State<P>)
    requires Shape(cfg, s)
    ensures NoneEmpty(s.groups)
  {
  }

  lemma GroupsBoundedBefore<P>(cfg: Config, acts: seq<Action<P>>, more: seq<Action<P>>, t: Topic, most: nat)
    requires more != [] && GroupsBounded(cfg, acts, more, t, most)
    ensures var init := more[..|more| - 1];
            GroupsBounded(cfg, acts, init, t, most) && |KeysOn(Run(cfg, acts + init).q.groups, t)| <= most
  {
    hide Run, KeysOn;
    var init := more[..|more| - 1];
    forall n | 0 <= n <= |init| ensures GroupsAfter(cfg, acts, init, n, t) <= most {
      assert init[..n] == more[..n];
      assert GroupsAfter(cfg, acts, more, n, t) <= most;
    }
    assert GroupsAfter(cfg, acts, more, |init|, t) <= most;
  }

  /** While topic `t` has at most `most` groups, no message taken from it goes to more. */
  lemma {:induction false} RunFanOut<P>(cfg: Config, acts: seq<Action<P>>, more: seq<Action<P>>, t: Topic, most: nat)
    requires 1 <= most && GroupsBounded(cfg, acts, more, t, most)
    ensures FanOutBounded(Run(cfg, acts + more).q.log, |Run(cfg, acts).q.log|, t, most)
  {
    hide Run, Apply, Shape, KeysOn, NoneEmpty;
    var from := |Run(cfg, acts).q.log|;
    if more == [] {
      assert acts + more == acts;
    } else {
      var init, last := more[..|more| - 1], more[|more| - 1];
      GroupsBoundedBefore(cfg, acts, more, t, most);
      RunFanOut(cfg, acts, init, t, most);
      RunShape(cfg, acts + init);
      ShapeHasGroups(cfg, Run(cfg, acts + init).q);
      hide GroupsBounded, FanOutBounded;
      ApplyFanOut(cfg, Run(cfg, acts + init).q, last, from, t, most);
      assert acts + more == (acts + init) + [last];
      RunSnoc(cfg, acts + init, last);
    }
  }

  lemma WholeRunFanOut<P>(cfg: Config, acts: seq<Action<P>>, t: Topic, most: nat)
    requires 1 <= most && GroupsBounded(cfg, [], acts, t, most)
    ensures FanOutBounded(Run(cfg, acts).q.log, 0, t, most)
  {
    assert Run<P>(cfg, []).q.log == [] && [] + acts == acts;
    hide Run, GroupsBounded, FanOutBounded;
    RunFanOut(cfg, [], acts, t, most);
  }

  /**
   `ev` hands message `m` to each group of `keys` in order: one entry and one call each, payload unchanged,
   as it is if there is one group and else as copies with ids of their own.
   */
  ghost predicate GoesToAll<P>(ev: Event<P>, t: Topic, m: Message<P>, keys: seq<Key>)
  {
    && ev.Dispatched? && ev.topic == t && ev.message == m
    && |ev.entries| == |ev.calls| == |keys|
    && (forall j :: 0 <= j < |keys| ==> ev.entries[j].group == keys[j].name && ev.entries[j].message.payload == m.payload)
    && (forall j :: 0 <= j < |keys| ==> ev.calls[j].key == keys[j])
    && (|keys| == 1 ==> ev.entries[0].message == m)
    && (forall i, j :: 0 <= i < j < |keys| ==> ev.entries[i].message.id != ev.entries[j].message.id)
  }

  lemma HeadGoesToAll<P>(cfg: Config, s: State<P>, t: Topic, keys: seq<Key>)
    requires Pend(s, t) != [] && Served(s.groups, keys)
    ensures GoesToAll(HeadEvent(cfg, s, t, keys), t, Pend(s, t)[0], keys)
  {
    NewEntriesFacts(cfg, s.nextId, Pend(s, t)[0], t, keys, |keys| > 1);
    TurnsOfFacts(s.groups, s.rr, keys);
    hide NewEntries, TurnsOf;
  }

  /** One such event for each message of `ms`, in order. */
  ghost predicate AllGoToAll<P>(events: seq<Event<P>>, t: Topic, ms: seq<Message<P>>, keys: seq<Key>)
  {
    |events| == |ms| && forall i :: 0 <= i < |ms| ==> GoesToAll(events[i], t, ms[i], keys)
  }

  lemma AllGoToAllCons<P>(ev: Event<P>, events: seq<Event<P>>, t: Topic, ms: seq<Message<P>>, keys: seq<Key>)
    requires ms != [] && GoesToAll(ev, t, ms[0], keys) && AllGoToAll(events, t, ms[1..], keys)
    ensures AllGoToAll([ev] + events, t, ms, keys)
  {
    hide GoesToAll;
  }

  lemma LogSuffix<P>(log: seq<Event<P>>, ev: Event<P>, log': seq<Event<P>>)
    requires log + [ev] <= log'
    ensures log <= log' && log'[|log|..] == [ev] + log'[|log| + 1..]
  {
    assert log'[|log|] == (log + [ev])[|log|];
  }

  lemma {:induction false} LoopGoesToAll<P>(cfg: Config, s: State<P>, t: Topic, keys: seq<Key>)
    requires keys != [] && Served(s.groups, keys)
    ensures var s' := DispatchLoop(cfg, s, t, keys);
            s.log <= s'.log && AllGoToAll(s'.log[|s.log|..], t, Pend(s, t), keys)
    decreases |Pend(s, t)|
  {
    if Pend(s, t) != [] {
      HeadIsTaken(cfg, s, t, keys);
      HeadGoesToAll(cfg, s, t, keys);
      hide GoesToAll, Served, DispatchLoop, HeadEvent, AllGoToAll, HeadEntries;
      var s1, ms := AfterHead(cfg, s, t, keys), Pend(s, t);
      LoopGoesToAll(cfg, s1, t, keys);
      LogSuffix(s.log, HeadEvent(cfg, s, t, keys), DispatchLoop(cfg, s1, t, keys).log);
      AllGoToAllCons(HeadEvent(cfg, s, t, keys), DispatchLoop(cfg, s1, t, keys).log[|s1.log|..], t, ms, keys);
    }
  }

  /**
   In every run a dispatch on a topic with k groups takes each pending message, in queue order, to
   every group once, payload unchanged: the ledger grows by exactly k - 1 for each of them.
   */
  lemma DispatchFansOutExactly<P>(cfg: Config, acts: seq<Action<P>>, t: Topic)
    ensures var s := Run(cfg, acts).q;
            var s', keys := Dispatch(cfg, s, t), KeysOn(s.groups, t);
            keys != [] ==> s.log <= s'.log && AllGoToAll(s'.log[|s.log|..], t, Pend(s, t), keys)
  {
    RunShape(cfg, acts);
    ShapeHasGroups(cfg, Run(cfg, acts).q);
    hide Run, Shape, GoesToAll, AllGoToAll, DispatchLoop, KeysOn, Pend, Served, NoneEmpty;
    var s := Run(cfg, acts).q;
    GroupsAreServed(s.groups, t);
    if KeysOn(s.groups, t) != [] {
      LoopGoesToAll(cfg, s, t, KeysOn(s.groups, t));
    }
  }

  lemma {:induction false} SingleGroupNeverFans<P>(log: seq<Event<P>>, t: Topic, p: P)
    requires FanOutBounded(log, 0, t, 1)
    ensures Sum(log, ev => FannedBy(t, p, ev)) == 0
  {
    if log != [] {
      SingleGroupNeverFans(log[..|log| - 1], t, p);
    }
  }
}
