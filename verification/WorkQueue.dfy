/** The work queue as the object it is: fields updated in place, each locked block proved against the model. */
module WorkQueueObject {
  import opened Options
  import opened Sums
  import opened WorkQueueModel
  import opened WorkQueueInvariants
  import opened WorkQueueConservation
  import opened WorkQueueSettlement
  import opened WorkQueueReceipts
  import opened WorkQueueRotation

  datatype EnqueueResult = Enqueued(id: Id) | QueueFull

  class WorkQueue<P> {
    const cfg: Config
    var pending: map<Topic, seq<Message<P>>>
    var inFlight: seq<Entry<P>>
    var groups: seq<Group>
    var rr: map<Key, nat>
    var registry: map<Id, Key>
    var nextId: Id
    var closed: bool
    ghost var log: seq<Event<P>>
    ghost var history: seq<Action<P>>  // the locked blocks executed so far

    /** The object is where the model is after the same blocks, so every theorem about runs is about it. */
    ghost predicate Valid()
      reads this
    {
      View() == Run(cfg, history).q
    }

    ghost function View(): State<P>
      reads this
    {
      State(pending, inFlight, groups, rr, registry, nextId, closed, log)
    }

    constructor (cfg: Config)
      ensures Valid() && this.cfg == cfg && View() == Init() && history == []
    {
      this.cfg := cfg;
      pending, inFlight, groups, rr, registry, nextId, closed := map[], [], [], map[], map[], 0, false;
      log, history := [], [];
    }

    /** Some of what the theorems about runs say of the object as it stands, at any time. */
    lemma Stands(topic: Topic, payload: P, delivery: Id)
      requires Valid()
      ensures Shape(cfg, View())
      ensures Located(View(), topic, payload) + Acks(View(), topic, payload) + Burials(View(), topic, payload) + Drops(View(), topic, payload)
           == Accepts(View(), topic, payload) + Arrivals(View(), topic, payload) + Fanned(View(), topic, payload)
      ensures One(InFlight(View(), delivery)) + TimesSettled(View(), delivery) == TimesIssued(View(), delivery) <= 1
    {
      hide Run, Shape, Located, Acks, Burials, Drops, Accepts, Arrivals, Fanned, InFlight, TimesSettled, TimesIssued;
      RunShape(cfg, history);
      Conservation(cfg, history, topic, payload);
      SettledAtMostOnce(cfg, history, delivery);
    }

    method FreshId() returns (id: Id)
      modifies this`nextId
      ensures id == old(nextId) && nextId == id + 1
    {
      id := nextId;
      nextId := nextId + 1;
    }

    /** The locked block of `enqueue`, with the construction of the message before it. */
    method Put(topic: Topic, payload: P, timeout: Option<real>) returns (r: EnqueueResult)
      requires Valid()
      modifies this
      ensures Valid() && history == old(history) + [DoEnqueue(topic, payload, timeout)]
      ensures View() == Enqueue(cfg, old(View()), topic, payload, timeout)
      ensures r == if Full(cfg, old(View()), topic) then QueueFull else Enqueued(old(nextId))
      ensures r.QueueFull? <==> cfg.maxSize > 0 && |PendingIn(old(pending), topic)| >= cfg.maxSize
      ensures r.QueueFull? ==> pending == old(pending)
      ensures r.Enqueued? ==>
                var queue := PendingIn(pending, topic);
                && queue != [] && queue[..|queue| - 1] == PendingIn(old(pending), topic)
                && var m := queue[|queue| - 1];
                   m.id == r.id && m.payload == payload && m.topic == topic && m.retry == 0
    {
      hide Run;
      Booked(cfg, history, DoEnqueue(topic, payload, timeout), View());
      history := history + [DoEnqueue(topic, payload, timeout)];
      var id := FreshId();
      var message := NewMessage(cfg, id, topic, payload, timeout);
      var queue := PendingIn(pending, topic);
      if cfg.maxSize > 0 && |queue| >= cfg.maxSize {
        return QueueFull;
      }
      pending := pending[topic := queue + [message]];
      log := log + [Accepted(topic, message)];
      r := Enqueued(id);
    }

    /** `enqueue` run by one thread with nothing in between. */
    method EnqueueAndDispatch(topic: Topic, payload: P, timeout: Option<real>) returns (r: EnqueueResult, toInvoke: seq<Invocation<P>>)
      requires Valid()
      modifies this
      ensures Valid()
      ensures r == if Full(cfg, old(View()), topic) then QueueFull else Enqueued(old(nextId))
      ensures var after := Enqueue(cfg, old(View()), topic, payload, timeout);
              && View() == (if r.QueueFull? then after else Dispatch(cfg, after, topic))
              && after.log <= log && toInvoke == Invocations(log[|after.log|..])
    {
      hide Run, Invocations, Dispatch;
      r := Put(topic, payload, timeout);
      toInvoke := [];
      NoInvocations(log);
      if r.Enqueued? {
        toInvoke := TryDispatch(topic);
      }
    }

    /** The locked block of `consume`. */
    method Register(topic: Topic, group: Option<string>) returns (id: Id)
      requires Valid()
      modifies this
      ensures Valid() && history == old(history) + [DoConsume(topic, group)]
      ensures View() == Consume(old(View()), topic, group) && id == old(nextId)
    {
      hide Run;
      Booked(cfg, history, DoConsume(topic, group), View());
      history := history + [DoConsume(topic, group)];
      var key := Key(topic, GroupName(topic, group));
      id := FreshId();
      var i := GroupIndex(groups, key);
      if i < |groups| {
        groups := groups[i := Group(key, groups[i].members + [id])];
      } else {
        groups := groups + [Group(key, [id])];
      }
      registry := registry[id := key];
      log := log + [Registered(key, id)];
    }

    /** `remove_consumer`. */
    method Remove(id: Id) returns (found: bool)
      requires Valid()
      modifies this
      ensures Valid() && history == old(history) + [DoRemove(id)]
      ensures View() == RemoveConsumer(old(View()), id)
      ensures found <==> id in old(registry)
      ensures id !in registry && forall k :: id !in MembersIn(groups, k)
    {
      hide Run;
      forall k ensures id !in MembersIn(RemoveConsumer(View(), id).groups, k) {
        RemovedIsGone(cfg, history, id, k, id);
      }
      Booked(cfg, history, DoRemove(id), View());
      history := history + [DoRemove(id)];
      if id !in registry {
        return false;
      }
      var key := registry[id];
      registry := registry - {id};
      log := log + [Removed(id)];
      found := true;
      var g := GroupIndex(groups, key);
      if g < |groups| && groups[g].members != [] {
        var members := groups[g].members;
        var i := Search(members, id);
        var rest := if i < |members| then Without(members, i) else members;
        if rest == [] {
          groups := Without(groups, g);
          rr := rr - {key};
        } else {
          groups := groups[g := Group(key, rest)];
        }
      }
    }

    /** The loop of `remove_consumer`. */
    static method Search(members: seq<Id>, id: Id) returns (i: nat)
      ensures i == IndexOf(members, id)
    {
      i := 0;
      while i < |members| && members[i] != id
        invariant 0 <= i <= |members|
        invariant forall j :: 0 <= j < i ==> members[j] != id
      {
        i := i + 1;
      }
    }

    /** `_make_in_flight`. */
    method MarkInFlight(message: Message<P>, topic: Topic, group: string) returns (delivered: Message<P>)
      modifies this`inFlight, this`nextId
      ensures View() == MakeInFlight(cfg, old(View()), message, topic, group)
      ensures delivered == Stamped(NewEntry(cfg, old(nextId), message, topic, group))
    {
      var id := FreshId();
      delivered := message.(deliveryId := Some(id));
      inFlight := inFlight + [Entry(message, id, topic, group, cfg.clock(id), message.timeout, message.retry)];
    }

    /** One pass of the waiting loop of `dequeue`. */
    method Poll(topic: Topic) returns (delivered: Option<Message<P>>)
      requires Valid()
      modifies this
      ensures Valid() && history == old(history) + [DoDequeue(topic)]
      ensures View() == Dequeue(cfg, old(View()), topic)
      ensures delivered.None? <==> old(closed) || Pend(old(View()), topic) == []
      ensures delivered.Some? ==>
                && Receipt(old(View()), View(), delivered.value)
                && delivered.value.(deliveryId := None) == PendingIn(old(pending), topic)[0]
    {
      hide Run, Receipt;
      if !closed && PendingIn(pending, topic) != [] {
        DequeueGivesReceipt(cfg, history, topic);
      }
      Booked(cfg, history, DoDequeue(topic), View());
      history := history + [DoDequeue(topic)];
      if closed {
        return None;
      }
      var queue := PendingIn(pending, topic);
      if queue == [] {
        return None;
      }
      pending := pending[topic := queue[1..]];
      var message := MarkInFlight(queue[0], topic, topic + "._pull");
      log := log + [Dispatched(topic, queue[0], [inFlight[|inFlight| - 1]], [])];
      delivered := Some(message);
    }

    /** `ack`. */
    method Acknowledge(id: Id) returns (found: bool)
      requires Valid()
      modifies this
      ensures Valid() && history == old(history) + [DoAck(id)]
      ensures View() == Ack(old(View()), id)
      ensures found <==> InFlight(old(View()), id)
      ensures pending == old(pending) && !InFlight(View(), id)
      ensures found ==> var i := EntryIndex(old(inFlight), id); inFlight == old(inFlight)[..i] + old(inFlight)[i + 1..]
    {
      hide Run;
      if InFlight(View(), id) {
        AckSettles(cfg, history, EntryIndex(inFlight, id));
      }
      Booked(cfg, history, DoAck(id), View());
      history := history + [DoAck(id)];
      var i := EntryIndex(inFlight, id);
      if i == |inFlight| {
        return false;
      }
      log := log + [Acked(inFlight[i])];
      inFlight := Without(inFlight, i);
      found := true;
    }

    /** `_dead_letter`. */
    method Bury(entry: Entry<P>, why: Reason)
      modifies this`pending, this`nextId, this`log
      ensures View() == DeadLetter(old(View()), entry, why)
    {
      var topic := entry.topic + DEAD_LETTER;
      var id := FreshId();
      var message := entry.message.(topic := topic, id := id, deadLetterReason := Some(why));
      pending := pending[topic := PendingIn(pending, topic) + [message]];
      log := log + [DeadLettered(entry, message)];
    }

    method PutBack(entry: Entry<P>)
      modifies this`pending, this`log
      ensures View() == Requeue(old(View()), entry)
    {
      var message := entry.message.(retry := entry.retry + 1);
      pending := pending[entry.topic := [message] + PendingIn(pending, entry.topic)];
      log := log + [Requeued(entry, message)];
    }

    /** The locked block of `nack`; `dispatch` names the topic its caller must then dispatch. */
    method Reject(id: Id, requeue: bool) returns (found: bool, dispatch: Option<Topic>)
      requires Valid()
      modifies this
      ensures Valid() && history == old(history) + [DoNack(id, requeue)]
      ensures View() == Nack(cfg, old(View()), id, requeue)
      ensures found <==> InFlight(old(View()), id)
      ensures Owes(cfg, old(View()), DoNack(id, requeue)) == if dispatch.Some? then multiset{dispatch.value} else multiset{}
    {
      hide Run;
      Booked(cfg, history, DoNack(id, requeue), View());
      history := history + [DoNack(id, requeue)];
      var i := EntryIndex(inFlight, id);
      if i == |inFlight| {
        return false, None;
      }
      var entry := inFlight[i];
      inFlight := Without(inFlight, i);
      found := true;
      if requeue && entry.retry + 1 < cfg.maxRetries {
        PutBack(entry);
        dispatch := Some(entry.topic);
      } else {
        Bury(entry, if entry.retry + 1 >= cfg.maxRetries then MaxRetriesExceeded else NackNoRequeue);
        dispatch := None;
      }
    }

    /** `_try_dispatch` up to the release of the lock; the caller runs the handlers of `toInvoke`. */
    method TryDispatch(topic: Topic) returns (toInvoke: seq<Invocation<P>>)
      requires Valid()
      modifies this
      ensures Valid() && history == old(history) + [DoDispatch(topic)]
      ensures View() == Dispatch(cfg, old(View()), topic)
      ensures old(log) <= log && toInvoke == Invocations(log[|old(log)|..])
      ensures Receipts(old(View()), View(), toInvoke)
    {
      hide Run, Dispatch, Invocations, Receipts;
      DispatchGivesReceipts(cfg, history, topic);
      Booked(cfg, history, DoDispatch(topic), View());
      history := history + [DoDispatch(topic)];
      toInvoke := HandOutAll(topic);
    }

    /** The outer loop of `_try_dispatch`. */
    method HandOutAll(topic: Topic) returns (toInvoke: seq<Invocation<P>>)
      modifies this`pending, this`inFlight, this`nextId, this`rr, this`log
      ensures View() == Dispatch(cfg, old(View()), topic)
      ensures old(log) <= log && toInvoke == Invocations(log[|old(log)|..])
    {
      hide DispatchLoop, DeliverTo, Invocations, Paired, KeysOn;
      toInvoke := [];
      NoInvocations(log);
      var keys := KeysOn(groups, topic);
      if keys == [] {
        return;
      }
      while PendingIn(pending, topic) != []
        invariant DispatchLoop(cfg, View(), topic, keys) == DispatchLoop(cfg, old(View()), topic, keys)
        invariant groups == old(groups)
        invariant old(log) <= log && toInvoke == Invocations(log[|old(log)|..])
        decreases |PendingIn(pending, topic)|
      {
        var queue := PendingIn(pending, topic);
        ghost var before := View();
        DispatchNext(cfg, before, topic, keys);
        pending := pending[topic := queue[1..]];
        ghost var calls := DeliverTo(cfg, View(), queue[0], topic, keys, |keys| > 1).1;
        var mine := HandOut(queue[0], topic, keys);
        PairedLength(inFlight[|before.inFlight|..], calls);
        if mine == [] {
          pending := pending[topic := [queue[0]] + PendingIn(pending, topic)];
          return;
        }
        ghost var event := Dispatched(topic, queue[0], inFlight[|before.inFlight|..], calls);
        InvocationsSnoc(log, |old(log)|, event);
        log := log + [event];
        toInvoke := toInvoke + mine;
      }
      DispatchDone(cfg, View(), topic, keys);
    }

    /** The inner loop of `_try_dispatch`: one message to each group in turn. */
    method HandOut(message: Message<P>, topic: Topic, keys: seq<Key>) returns (mine: seq<Invocation<P>>)
      modifies this`inFlight, this`nextId, this`rr
      ensures var (after, calls) := DeliverTo(cfg, old(View()), message, topic, keys, |keys| > 1);
              && View() == after
              && |after.inFlight| - |old(inFlight)| == |calls|
              && mine == Paired(after.inFlight[|old(inFlight)|..], calls)
    {
      hide Handed, DeliverTo, DeliverOne, MembersIn, NextCall, Stamped;
      mine := [];
      ghost var many, start, calls := |keys| > 1, View(), [];
      NoneHanded(cfg, start, message, topic, keys, many);
      for i := 0 to |keys|
        invariant Handed(cfg, start, message, topic, keys, many, i, View(), calls, mine)
        invariant groups == start.groups
      {
        ghost var before := View();
        if MembersIn(groups, keys[i]) != [] {
          var inv := DeliverToGroup(message, topic, keys[i], |keys| > 1);
          HandedOne(cfg, start, message, topic, keys, many, i, before, calls, mine, inv);
          calls := calls + [NextCall(before, keys[i])];
          mine := mine + [inv];
        } else {
          HandedNone(cfg, start, message, topic, keys, many, i, before, calls, mine);
        }
      }
      AllHanded(cfg, start, message, topic, keys, many, View(), calls, mine);
    }

    method DeliverToGroup(message: Message<P>, topic: Topic, key: Key, many: bool) returns (inv: Invocation<P>)
      requires MembersIn(groups, key) != []
      modifies this`inFlight, this`nextId, this`rr
      ensures View() == DeliverOne(cfg, old(View()), message, topic, key, many)
      ensures |inFlight| == |old(inFlight)| + 1 && old(inFlight) <= inFlight
      ensures inv == Invocation(NextCall(old(View()), key).consumer, Stamped(inFlight[|old(inFlight)|]))
    {
      var entries := MembersIn(groups, key);
      var copy := message;
      if many {
        var copyId := FreshId();
        copy := message.(id := copyId);
      }
      var delivered := MarkInFlight(copy, topic, key.name);
      var idx := IndexFor(rr, key) % |entries|;
      rr := rr[key := idx + 1];
      inv := Invocation(entries[idx], delivered);
    }

    /** The locked block of the reaper: collect and delete what is overdue, then retry or bury each. */
    method Reap(now: real) returns (requeued: set<Topic>)
      requires Valid()
      modifies this
      ensures Valid() && history == old(history) + [DoSweep(now)]
      ensures View() == Sweep(cfg, old(View()), now)
      ensures requeued == RetriedTopics(cfg, Overdue(old(inFlight), now))
    {
      hide Run, ExpireAll, RetriedTopics, Overdue, NotOverdue, FlightOk;
      Booked(cfg, history, DoSweep(now), View());
      TableOk(cfg, history);
      history := history + [DoSweep(now)];
      var expired := DeleteOverdue(now);
      requeued := RetryOrBury(expired);
    }

    /** The second loop of the reaper. */
    method RetryOrBury(expired: seq<Entry<P>>) returns (requeued: set<Topic>)
      modifies this`pending, this`nextId, this`log
      ensures View() == ExpireAll(cfg, old(View()), expired)
      ensures requeued == RetriedTopics(cfg, expired)
    {
      hide ExpireAll, RetriedTopics;
      requeued := {};
      RetriedNone<P>(cfg);
      assert expired[0..] == expired && expired[..0] == [];
      for i := 0 to |expired|
        invariant ExpireAll(cfg, View(), expired[i..]) == ExpireAll(cfg, old(View()), expired)
        invariant requeued == RetriedTopics(cfg, expired[..i])
      {
        var entry := expired[i];
        ExpireNext(cfg, View(), expired, i);
        RetriedSnoc(cfg, expired[..i], entry);
        assert expired[..i + 1] == expired[..i] + [entry];
        if entry.retry + 1 < cfg.maxRetries {
          PutBack(entry);
          requeued := requeued + {entry.topic};
        } else {
          Bury(entry, VisibilityTimeoutExceeded);
        }
      }
      assert expired[..|expired|] == expired && expired[|expired|..] == [];
      ExpireNone(cfg, View());
    }

    /** The first loop of the reaper, over a snapshot of the table it deletes from. */
    method DeleteOverdue(now: real) returns (expired: seq<Entry<P>>)
      requires FlightOk(cfg, inFlight, nextId)
      modifies this`inFlight
      ensures inFlight == NotOverdue(old(inFlight), now)
      ensures expired == Overdue(old(inFlight), now)
    {
      hide Overdue, NotOverdue;
      var snapshot := inFlight;
      expired := [];
      SweepNone(snapshot, now);
      for i := 0 to |snapshot|
        invariant inFlight == NotOverdue(snapshot[..i], now) + snapshot[i..]
        invariant expired == Overdue(snapshot[..i], now)
      {
        var entry := snapshot[i];
        SweepNext(cfg, snapshot, nextId, i, now);
        if now - entry.deliveredAt >= entry.timeout {
          expired := expired + [entry];
          inFlight := Without(inFlight, EntryIndex(inFlight, entry.deliveryId));
        }
      }
      assert snapshot[..|snapshot|] == snapshot;
    }

    /** The first step of `close`, outside the lock. */
    method Shut()
      requires Valid()
      modifies this
      ensures Valid() && history == old(history) + [DoMarkClosed]
      ensures View() == MarkClosed(old(View())) && closed && pending == old(pending) && inFlight == old(inFlight)
    {
      hide Run;
      Booked(cfg, history, DoMarkClosed, View());
      history := history + [DoMarkClosed];
      closed := true;
    }

    /** The locked block of `close`. */
    method Discard()
      requires Valid()
      modifies this
      ensures Valid() && history == old(history) + [DoClear]
      ensures View() == Clear(old(View()))
      ensures pending == map[] && inFlight == [] && groups == [] && registry == map[] && rr == old(rr) && closed == old(closed)
    {
      hide Run;
      Booked(cfg, history, DoClear, View());
      history := history + [DoClear];
      log := log + [Dropped(pending, inFlight)];
      pending, inFlight, groups, registry := map[], [], [], map[];
    }
  }

  lemma TableOk<P>(cfg: Config, history: seq<Action<P>>)
    ensures FlightOk(cfg, Run(cfg, history).q.inFlight, Run(cfg, history).q.nextId)
  {
    hide Run, FlightOk;
    RunShape(cfg, history);
  }

  lemma Booked<P>(cfg: Config, history: seq<Action<P>>, a: Action<P>, s: State<P>)
    requires s == Run(cfg, history).q
    ensures Run(cfg, history + [a]).q == Apply(cfg, s, a)
  {
    hide Apply;
    RunSnoc(cfg, history, a);
  }

  lemma DispatchNext<P>(cfg: Config, s: State<P>, t: Topic, keys: seq<Key>)
    requires Pend(s, t) != []
    ensures var m, s0 := Pend(s, t)[0], s.(pending := s.pending[t := Pend(s, t)[1..]]);
            var (s1, calls) := DeliverTo(cfg, s0, m, t, keys, |keys| > 1);
            DispatchLoop(cfg, s, t, keys) ==
            if calls == [] then s1.(pending := s1.pending[t := [m] + Pend(s1, t)])
            else DispatchLoop(cfg, LogDispatch(s, s1, t, m, calls), t, keys)
  {
  }

  lemma DispatchDone<P>(cfg: Config, s: State<P>, t: Topic, keys: seq<Key>)
    requires Pend(s, t) == []
    ensures DispatchLoop(cfg, s, t, keys) == s
  {
  }

  /** The first `i` groups have been served: `calls` were made, `mine` is what they amount to, `s` is the state. */
  ghost predicate Handed<P>(cfg: Config, start: State<P>, m: Message<P>, t: Topic, keys: seq<Key>, many: bool,
                            i: nat, s: State<P>, calls: seq<Call>, mine: seq<Invocation<P>>)
  {
    && i <= |keys|
    && (var all, rest := DeliverTo(cfg, start, m, t, keys, many), DeliverTo(cfg, s, m, t, keys[i..], many);
        all.0 == rest.0 && all.1 == calls + rest.1)
    && |s.inFlight| - |start.inFlight| == |calls|
    && mine == Paired(s.inFlight[|start.inFlight|..], calls)
  }

  lemma NoneHanded<P>(cfg: Config, start: State<P>, m: Message<P>, t: Topic, keys: seq<Key>, many: bool)
    ensures Handed(cfg, start, m, t, keys, many, 0, start, [], [])
  {
    hide DeliverTo;
    assert keys[0..] == keys;
  }

  lemma HandedNone<P>(cfg: Config, start: State<P>, m: Message<P>, t: Topic, keys: seq<Key>, many: bool,
                      i: nat, s: State<P>, calls: seq<Call>, mine: seq<Invocation<P>>)
    requires i < |keys| && Handed(cfg, start, m, t, keys, many, i, s, calls, mine) && MembersIn(s.groups, keys[i]) == []
    ensures Handed(cfg, start, m, t, keys, many, i + 1, s, calls, mine)
  {
    hide DeliverTo, MembersIn, Paired;
    DeliverNext(cfg, s, m, t, keys, i, many);
  }

  lemma HandedOne<P>(cfg: Config, start: State<P>, m: Message<P>, t: Topic, keys: seq<Key>, many: bool,
                     i: nat, s: State<P>, calls: seq<Call>, mine: seq<Invocation<P>>, inv: Invocation<P>)
    requires i < |keys| && Handed(cfg, start, m, t, keys, many, i, s, calls, mine) && MembersIn(s.groups, keys[i]) != []
    requires var s' := DeliverOne(cfg, s, m, t, keys[i], many);
             && |s'.inFlight| == |s.inFlight| + 1 && s.inFlight <= s'.inFlight
             && inv == Invocation(NextCall(s, keys[i]).consumer, Stamped(s'.inFlight[|s.inFlight|]))
    ensures Handed(cfg, start, m, t, keys, many, i + 1, DeliverOne(cfg, s, m, t, keys[i], many), calls + [NextCall(s, keys[i])], mine + [inv])
  {
    hide DeliverTo, MembersIn, Paired, DeliverOne, NextCall, Stamped;
    var s', call := DeliverOne(cfg, s, m, t, keys[i], many), NextCall(s, keys[i]);
    var rest := DeliverTo(cfg, s', m, t, keys[i + 1..], many).1;
    DeliverNext(cfg, s, m, t, keys, i, many);
    assert calls + ([call] + rest) == (calls + [call]) + rest;
    assert s'.inFlight[..|s'.inFlight| - 1] == s.inFlight;
    PairedGrows(start.inFlight, s'.inFlight, calls, call);
  }

  lemma AllHanded<P>(cfg: Config, start: State<P>, m: Message<P>, t: Topic, keys: seq<Key>, many: bool,
                     s: State<P>, calls: seq<Call>, mine: seq<Invocation<P>>)
    requires Handed(cfg, start, m, t, keys, many, |keys|, s, calls, mine)
    ensures DeliverTo(cfg, start, m, t, keys, many) == (s, calls)
    ensures |s.inFlight| - |start.inFlight| == |calls| && mine == Paired(s.inFlight[|start.inFlight|..], calls)
  {
    assert keys[|keys|..] == [];
    DeliverNobody(cfg, s, m, t, many);
    hide DeliverTo, Paired;
    assert calls + [] == calls;
  }

  lemma DeliverNext<P>(cfg: Config, s: State<P>, m: Message<P>, t: Topic, keys: seq<Key>, i: nat, many: bool)
    requires i < |keys|
    ensures var now := DeliverTo(cfg, s, m, t, keys[i..], many);
            if MembersIn(s.groups, keys[i]) == [] then now == DeliverTo(cfg, s, m, t, keys[i + 1..], many)
            else
              var later := DeliverTo(cfg, DeliverOne(cfg, s, m, t, keys[i], many), m, t, keys[i + 1..], many);
              now.0 == later.0 && now.1 == [NextCall(s, keys[i])] + later.1
  {
    assert keys[i..][0] == keys[i] && keys[i..][1..] == keys[i + 1..];
  }

  lemma DeliverNobody<P>(cfg: Config, s: State<P>, m: Message<P>, t: Topic, many: bool)
    ensures DeliverTo(cfg, s, m, t, [], many) == (s, [])
  {
  }

  lemma PairedGrows<P>(start: seq<Entry<P>>, es: seq<Entry<P>>, calls: seq<Call>, c: Call)
    requires |es| == |start| + |calls| + 1
    ensures Paired(es[|start|..], calls + [c])
         == Paired(es[..|es| - 1][|start|..], calls) + [Invocation(c.consumer, Stamped(es[|es| - 1]))]
  {
  }

  lemma RetriedSnoc<P>(cfg: Config, es: seq<Entry<P>>, e: Entry<P>)
    ensures RetriedTopics(cfg, es + [e]) == RetriedTopics(cfg, es) + (if CanRetry(cfg, e) then {e.topic} else {})
  {
    var all, some := RetriedTopics(cfg, es + [e]), RetriedTopics(cfg, es);
    forall t | t in some ensures t in all {
      var i :| 0 <= i < |es| && CanRetry(cfg, es[i]) && es[i].topic == t;
      assert (es + [e])[i] == es[i];
    }
    if CanRetry(cfg, e) {
      assert (es + [e])[|es|] == e;
    }
    forall t | t in all ensures t in some || (CanRetry(cfg, e) && t == e.topic) {
      var i :| 0 <= i < |es + [e]| && CanRetry(cfg, (es + [e])[i]) && (es + [e])[i].topic == t;
      if i < |es| {
        assert (es + [e])[i] == es[i];
      }
    }
  }

  lemma RetriedNone<P>(cfg: Config)
    ensures RetriedTopics<P>(cfg, []) == {}
  {
  }

  lemma ExpireNone<P>(cfg: Config, s: State<P>)
    ensures ExpireAll(cfg, s, []) == s
  {
  }

  lemma ExpireNext<P>(cfg: Config, s: State<P>, es: seq<Entry<P>>, i: nat)
    requires i < |es|
    ensures ExpireAll(cfg, s, es[i..]) == ExpireAll(cfg, Expire(cfg, s, es[i]), es[i + 1..])
  {
    assert es[i..][0] == es[i] && es[i..][1..] == es[i + 1..];
  }

  lemma SweepNone<P>(es: seq<Entry<P>>, now: real)
    ensures NotOverdue(es[..0], now) + es[0..] == es && Overdue(es[..0], now) == []
  {
  }

  /** In the partly swept table the next entry is found right after the entries that were kept. */
  lemma FoundAtFront<P>(cfg: Config, snapshot: seq<Entry<P>>, nextId: Id, i: nat, now: real)
    requires FlightOk(cfg, snapshot, nextId) && i < |snapshot|
    ensures var kept := NotOverdue(snapshot[..i], now);
            EntryIndex(kept + snapshot[i..], snapshot[i].deliveryId) == |kept|
  {
    hide EntryOk;
    var kept := NotOverdue(snapshot[..i], now);
    var es := kept + snapshot[i..];
    forall j | 0 <= j < |kept| ensures es[j].deliveryId != snapshot[i].deliveryId {
      assert kept[j] in snapshot[..i];
    }
    assert es[|kept|] == snapshot[i];
  }

  lemma SweptSnoc<P>(es: seq<Entry<P>>, i: nat, now: real)
    requires i < |es|
    ensures NotOverdue(es[..i + 1], now) == NotOverdue(es[..i], now) + (if Expired(es[i], now) then [] else [es[i]])
    ensures Overdue(es[..i + 1], now) == Overdue(es[..i], now) + (if Expired(es[i], now) then [es[i]] else [])
  {
    assert es[..i + 1] == es[..i] + [es[i]];
    FilterSnoc(es[..i], es[i], (x: Entry<P>) => Expired(x, now));
    FilterSnoc(es[..i], es[i], (x: Entry<P>) => !Expired(x, now));
  }

  lemma WithoutMiddle<T>(xs: seq<T>, x: T, ys: seq<T>)
    ensures Without(xs + ([x] + ys), |xs|) == xs + ys
    ensures (xs + [x]) + ys == xs + ([x] + ys) && (xs + []) + ys == xs + ys
  {
  }

  /** One turn of the deleting loop. */
  lemma SweepNext<P>(cfg: Config, snapshot: seq<Entry<P>>, nextId: Id, i: nat, now: real)
    requires FlightOk(cfg, snapshot, nextId) && i < |snapshot|
    ensures var e, table := snapshot[i], NotOverdue(snapshot[..i], now) + snapshot[i..];
            && EntryIndex(table, e.deliveryId) < |table|
            && NotOverdue(snapshot[..i + 1], now) + snapshot[i + 1..] ==
               (if Expired(e, now) then Without(table, EntryIndex(table, e.deliveryId)) else table)
            && Overdue(snapshot[..i + 1], now) == Overdue(snapshot[..i], now) + (if Expired(e, now) then [e] else [])
  {
    hide NotOverdue, Overdue, FlightOk, EntryIndex, Without;
    var e, kept := snapshot[i], NotOverdue(snapshot[..i], now);
    SweptSnoc(snapshot, i, now);
    FoundAtFront(cfg, snapshot, nextId, i, now);
    WithoutMiddle(kept, e, snapshot[i + 1..]);
    assert snapshot[i..] == [e] + snapshot[i + 1..];
  }
}
