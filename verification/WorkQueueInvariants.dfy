/** What every locked block of the work queue keeps: shape of the tables, and the audit trail's balance. */
module WorkQueueInvariants {
  import opened Options
  import opened Sums
  import opened WorkQueueModel

  // ---- Shape ---------------------------------------------------------------

  /** The members filed under key `k`: nobody twice, and the registry files each of them under `k`. */
  ghost predicate RosterOk(members: seq<Id>, registry: map<Id, Key>, k: Key)
  {
    && (forall i, j :: 0 <= i < j < |members| ==> members[i] != members[j])
    && (forall i :: 0 <= i < |members| ==> members[i] in registry && registry[members[i]] == k)
  }

  predicate DistinctKeys(gs: seq<Group>)
  {
    forall i, j :: 0 <= i < j < |gs| ==> gs[i].key != gs[j].key
  }

  predicate NoneEmpty(gs: seq<Group>)
  {
    forall i :: 0 <= i < |gs| ==> gs[i].members != []
  }

  /** Groups are never stored empty, list each consumer once, and agree with the registry both ways. */
  ghost predicate GroupTableOk(gs: seq<Group>, registry: map<Id, Key>, nextId: Id)
  {
    && DistinctKeys(gs)
    && NoneEmpty(gs)
    && (forall k :: RosterOk(MembersIn(gs, k), registry, k))
    && (forall c :: c in registry ==> c < nextId && c in MembersIn(gs, registry[c]))
  }

  ghost predicate GroupsOk<P>(s: State<P>)
  {
    GroupTableOk(s.groups, s.registry, s.nextId)
  }

  function RetryCap(cfg: Config): nat
  {
    if cfg.maxRetries > 1 then cfg.maxRetries - 1 else 0
  }

  ghost predicate MessageOk<P>(cfg: Config, m: Message<P>)
  {
    m.deliveryId == None && m.retry <= RetryCap(cfg)
  }

  /** Entry `e` is a delivery of message `m` on topic `t`; at most the message id differs. */
  ghost predicate EntryOf<P>(cfg: Config, t: Topic, m: Message<P>, e: Entry<P>)
  {
    && e.topic == t
    && e.message.(id := m.id) == m
    && e.retry == m.retry
    && e.timeout == m.timeout
    && e.deliveredAt == cfg.clock(e.deliveryId)
  }

  ghost predicate QueueOk<P>(cfg: Config, ms: seq<Message<P>>)
  {
    forall i :: 0 <= i < |ms| ==> MessageOk(cfg, ms[i])
  }

  /** The table keeps the unstamped message, and its retry count is the message's own. */
  ghost predicate EntryOk<P>(cfg: Config, e: Entry<P>)
  {
    MessageOk(cfg, e.message) && EntryOf(cfg, e.topic, e.message, e)
  }

  ghost predicate FlightOk<P>(cfg: Config, es: seq<Entry<P>>, nextId: Id)
  {
    && (forall i :: 0 <= i < |es| ==> EntryOk(cfg, es[i]) && es[i].deliveryId < nextId)
    && (forall i, j :: 0 <= i < j < |es| ==> es[i].deliveryId < es[j].deliveryId)
  }

  ghost predicate PendingOk<P>(cfg: Config, pending: map<Topic, seq<Message<P>>>)
  {
    forall t :: t in pending ==> QueueOk(cfg, pending[t])
  }

  ghost predicate EventOk<P>(cfg: Config, ev: Event<P>)
  {
    match ev
    case Accepted(t, m) => m.retry == 0 && m.topic == t && m.originalTopic == t && m.deadLetterReason.None?
    case Dispatched(t, m, es, calls) =>
      es != [] && |calls| <= |es| && forall i :: 0 <= i < |es| ==> EntryOf(cfg, t, m, es[i])
    case Requeued(e, m) => CanRetry(cfg, e) && m == e.message.(retry := e.retry + 1)
    case DeadLettered(e, m) =>
      && m == e.message.(id := m.id, topic := DeadLetterTopic(e.topic), deadLetterReason := m.deadLetterReason)
      && m.retry == e.retry && m.deadLetterReason.Some?
    case _ => true
  }

  ghost predicate LogOk<P>(cfg: Config, log: seq<Event<P>>)
  {
    forall i :: 0 <= i < |log| ==> EventOk(cfg, log[i])
  }

  ghost predicate Shape<P>(cfg: Config, s: State<P>)
  {
    GroupsOk(s) && PendingOk(cfg, s.pending) && FlightOk(cfg, s.inFlight, s.nextId) && LogOk(cfg, s.log)
  }

  // ---- Group tables --------------------------------------------------------

  lemma MembersAt(gs: seq<Group>, i: nat)
    requires i < |gs|
    requires DistinctKeys(gs)
    ensures GroupIndex(gs, gs[i].key) == i
    ensures MembersIn(gs, gs[i].key) == gs[i].members
  {
  }

  ghost predicate HasKey(gs: seq<Group>, k: Key)
  {
    GroupIndex(gs, k) < |gs|
  }

  lemma {:induction false} KeysOnAreKeys(gs: seq<Group>, t: Topic, k: Key)
    ensures k in KeysOn(gs, t) <==> k.topic == t && HasKey(gs, k)
  {
    if gs != [] {
      KeysOnAreKeys(gs[1..], t, k);
    }
  }

  /** Every listed group has somebody in it. */
  ghost predicate Served(gs: seq<Group>, keys: seq<Key>)
  {
    forall i :: 0 <= i < |keys| ==> MembersIn(gs, keys[i]) != []
  }

  lemma GroupsAreServed(gs: seq<Group>, t: Topic)
    requires NoneEmpty(gs)
    ensures Served(gs, KeysOn(gs, t))
  {
    var keys := KeysOn(gs, t);
    forall i | 0 <= i < |keys| ensures MembersIn(gs, keys[i]) != [] {
      KeysOnAreKeys(gs, t, keys[i]);
    }
  }

  lemma MembersAfterAdd(gs: seq<Group>, k: Key, c: Id, k': Key)
    requires DistinctKeys(gs)
    ensures var gs' := AddMember(gs, k, c);
            && DistinctKeys(gs')
            && MembersIn(gs', k') == if k' == k then MembersIn(gs, k) + [c] else MembersIn(gs, k')
  {
    var gs', i := AddMember(gs, k, c), GroupIndex(gs, k);
    if k' == k {
      MembersAt(gs', i);
    } else {
      var j := GroupIndex(gs, k');
      if j < |gs| {
        assert gs'[j] == gs[j];
        MembersAt(gs', j);
      } else {
        var j' := GroupIndex(gs', k');
        assert j' == |gs'|;
      }
    }
  }

  lemma RosterAfterAdd(gs: seq<Group>, registry: map<Id, Key>, k: Key, c: Id, k': Key)
    requires DistinctKeys(gs) && c !in registry && RosterOk(MembersIn(gs, k'), registry, k')
    ensures RosterOk(MembersIn(AddMember(gs, k, c), k'), registry[c := k], k')
    ensures forall d :: d in MembersIn(gs, k') ==> d in MembersIn(AddMember(gs, k, c), k')
    ensures c in MembersIn(AddMember(gs, k, c), k)
  {
    MembersAfterAdd(gs, k, c, k');
    MembersAfterAdd(gs, k, c, k);
  }

  lemma AddKeepsTableForm(gs: seq<Group>, k: Key, c: Id)
    requires DistinctKeys(gs) && NoneEmpty(gs)
    ensures DistinctKeys(AddMember(gs, k, c)) && NoneEmpty(AddMember(gs, k, c))
  {
  }

  lemma AddMemberOk(gs: seq<Group>, registry: map<Id, Key>, k: Key, c: Id)
    requires GroupTableOk(gs, registry, c)
    ensures GroupTableOk(AddMember(gs, k, c), registry[c := k], c + 1)
  {
    hide AddMember, MembersIn, RosterOk;
    var gs', registry' := AddMember(gs, k, c), registry[c := k];
    AddKeepsTableForm(gs, k, c);
    forall k' ensures RosterOk(MembersIn(gs', k'), registry', k') {
      RosterAfterAdd(gs, registry, k, c, k');
    }
    forall d | d in registry' ensures d < c + 1 && d in MembersIn(gs', registry'[d]) {
      RosterAfterAdd(gs, registry, k, c, registry'[d]);
    }
  }

  lemma MembersAfterReplace(gs: seq<Group>, i: nat, members: seq<Id>, k': Key)
    requires i < |gs|
    requires DistinctKeys(gs)
    ensures MembersIn(gs[i := Group(gs[i].key, members)], k') == if k' == gs[i].key then members else MembersIn(gs, k')
  {
    var gs' := gs[i := Group(gs[i].key, members)];
    var j := GroupIndex(gs, k');
    if j < |gs| {
      assert gs'[j].key == k';
      MembersAt(gs', j);
      MembersAt(gs, j);
    } else {
      assert GroupIndex(gs', k') == |gs'|;
    }
  }

  lemma MembersAfterDelete(gs: seq<Group>, i: nat, k': Key)
    requires i < |gs|
    requires DistinctKeys(gs)
    ensures MembersIn(Without(gs, i), k') == if k' == gs[i].key then [] else MembersIn(gs, k')
  {
    var gs' := Without(gs, i);
    var j := GroupIndex(gs, k');
    if j < |gs| && j != i {
      var j' := if j < i then j else j - 1;
      assert gs'[j'] == gs[j];
      MembersAt(gs', j');
      MembersAt(gs, j);
    } else {
      assert forall a :: 0 <= a < |gs'| ==> gs'[a] == gs[if a < i then a else a + 1];
      assert GroupIndex(gs', k') == |gs'|;
    }
  }

  lemma AbsentMember(members: seq<Id>, c: Id)
    requires c !in members
    ensures DropMember(members, c) == members
  {
  }

  lemma DropMemberFacts(members: seq<Id>, c: Id)
    requires forall i, j :: 0 <= i < j < |members| ==> members[i] != members[j]
    ensures forall i, j :: 0 <= i < j < |DropMember(members, c)| ==> DropMember(members, c)[i] != DropMember(members, c)[j]
    ensures forall d :: d in DropMember(members, c) <==> d in members && d != c
  {
    var i, rest := IndexOf(members, c), DropMember(members, c);
    forall d | d in members && d != c ensures d in rest {
      var j :| 0 <= j < |members| && members[j] == d;
      if i < |members| {
        assert rest[if j < i then j else j - 1] == d;
      }
    }
  }

  lemma RosterWithout(members: seq<Id>, registry: map<Id, Key>, k: Key, c: Id)
    requires RosterOk(members, registry, k)
    ensures RosterOk(DropMember(members, c), registry - {c}, k)
  {
    DropMemberFacts(members, c);
    assert forall d :: d in members ==> d in registry && registry[d] == k;
  }

  /** Removing consumer `c` takes exactly `c` out of exactly its own group. */
  lemma MembersAfterDrop(gs: seq<Group>, own: Key, c: Id, k: Key)
    requires DistinctKeys(gs) && c in MembersIn(gs, own)
    requires k != own ==> c !in MembersIn(gs, k)
    ensures MembersIn(DropFromGroups(gs, own, c), k) == DropMember(MembersIn(gs, k), c)
  {
    var i := GroupIndex(gs, own);
    if k != own {
      AbsentMember(MembersIn(gs, k), c);
    }
    MembersAfterDelete(gs, i, k);
    MembersAfterReplace(gs, i, DropMember(gs[i].members, c), k);
  }

  lemma RosterAfterDrop(gs: seq<Group>, registry: map<Id, Key>, c: Id, k: Key)
    requires DistinctKeys(gs) && c in registry && c in MembersIn(gs, registry[c])
    requires RosterOk(MembersIn(gs, k), registry, k)
    ensures RosterOk(MembersIn(DropFromGroups(gs, registry[c], c), k), registry - {c}, k)
    ensures forall d :: d in MembersIn(gs, k) && d != c ==> d in MembersIn(DropFromGroups(gs, registry[c], c), k)
  {
    MembersAfterDrop(gs, registry[c], c, k);
    RosterWithout(MembersIn(gs, k), registry, k, c);
    DropMemberFacts(MembersIn(gs, k), c);
  }

  lemma DropKeepsTableForm(gs: seq<Group>, k: Key, c: Id)
    requires DistinctKeys(gs) && NoneEmpty(gs)
    ensures DistinctKeys(DropFromGroups(gs, k, c)) && NoneEmpty(DropFromGroups(gs, k, c))
  {
    var gs', i := DropFromGroups(gs, k, c), GroupIndex(gs, k);
    if i < |gs| {
      assert gs' == Without(gs, i) || (gs' == gs[i := gs'[i]] && gs'[i].members != [] && gs'[i].key == gs[i].key);
    }
  }

  lemma DropFromGroupsOk(gs: seq<Group>, registry: map<Id, Key>, nextId: Id, c: Id)
    requires GroupTableOk(gs, registry, nextId) && c in registry
    ensures GroupTableOk(DropFromGroups(gs, registry[c], c), registry - {c}, nextId)
  {
    hide DropFromGroups, MembersIn, RosterOk;
    var gs', registry' := DropFromGroups(gs, registry[c], c), registry - {c};
    DropKeepsTableForm(gs, registry[c], c);
    forall k ensures RosterOk(MembersIn(gs', k), registry', k) {
      RosterAfterDrop(gs, registry, c, k);
    }
    forall d | d in registry' ensures d < nextId && d in MembersIn(gs', registry'[d]) {
      RosterAfterDrop(gs, registry, c, registry[d]);
    }
  }

  // ---- Deliveries ----------------------------------------------------------

  /** The delivery of `m` to one group when the next fresh id is `id`: a copy id is drawn first if `many`. */
  ghost function Delivery<P>(cfg: Config, id: Id, m: Message<P>, t: Topic, group: string, many: bool): Entry<P>
  {
    if many then NewEntry(cfg, id + 1, m.(id := id), t, group) else NewEntry(cfg, id, m, t, group)
  }

  /** Fresh ids drawn by `n` deliveries: a delivery id each, and a copy id each if `many`. */
  function IdsDrawn(n: nat, many: bool): nat
  {
    if many then 2 * n else n
  }

  ghost function NewEntries<P>(cfg: Config, id: Id, m: Message<P>, t: Topic, keys: seq<Key>, many: bool): seq<Entry<P>>
    decreases |keys|
  {
    if keys == [] then []
    else [Delivery(cfg, id, m, t, keys[0].name, many)] + NewEntries(cfg, id + IdsDrawn(1, many), m, t, keys[1..], many)
  }

  /** The consumer whose turn it is in each group. */
  ghost function TurnsOf(gs: seq<Group>, rr: map<Key, nat>, keys: seq<Key>): seq<Call>
    requires Served(gs, keys)
    decreases |keys|
  {
    if keys == [] then []
    else
      var members := MembersIn(gs, keys[0]);
      var idx := IndexFor(rr, keys[0]) % |members|;
      [Call(keys[0], members[idx])] + TurnsOf(gs, rr[keys[0] := idx + 1], keys[1..])
  }

  ghost function TurnedOver(gs: seq<Group>, rr: map<Key, nat>, keys: seq<Key>): map<Key, nat>
    requires Served(gs, keys)
    decreases |keys|
  {
    if keys == [] then rr
    else
      var members := MembersIn(gs, keys[0]);
      TurnedOver(gs, rr[keys[0] := IndexFor(rr, keys[0]) % |members| + 1], keys[1..])
  }

  ghost function AfterFirst<P>(cfg: Config, s: State<P>, m: Message<P>, t: Topic, keys: seq<Key>, many: bool): State<P>
    requires keys != [] && Served(s.groups, keys)
  {
    var members := MembersIn(s.groups, keys[0]);
    s.(inFlight := s.inFlight + [Delivery(cfg, s.nextId, m, t, keys[0].name, many)],
       nextId := s.nextId + IdsDrawn(1, many),
       rr := s.rr[keys[0] := IndexFor(s.rr, keys[0]) % |members| + 1])
  }

  lemma DeliverToUnfolds<P>(cfg: Config, s: State<P>, m: Message<P>, t: Topic, keys: seq<Key>, many: bool)
    requires keys != [] && Served(s.groups, keys)
    ensures var members := MembersIn(s.groups, keys[0]);
            var rest := DeliverTo(cfg, AfterFirst(cfg, s, m, t, keys, many), m, t, keys[1..], many);
            DeliverTo(cfg, s, m, t, keys, many) ==
            (rest.0, [Call(keys[0], members[IndexFor(s.rr, keys[0]) % |members|])] + rest.1)
  {
    assert MembersIn(s.groups, keys[0]) != [];
    FirstIsOne(cfg, s, m, t, keys, many);
    hide AfterFirst, DeliverOne, MembersIn;
  }

  lemma FirstIsOne<P>(cfg: Config, s: State<P>, m: Message<P>, t: Topic, keys: seq<Key>, many: bool)
    requires keys != [] && Served(s.groups, keys) && MembersIn(s.groups, keys[0]) != []
    ensures DeliverOne(cfg, s, m, t, keys[0], many) == AfterFirst(cfg, s, m, t, keys, many)
  {
    hide MembersIn;
  }

  lemma ConsAssociates<T>(xs: seq<T>, x: T, ys: seq<T>)
    ensures (xs + [x]) + ys == xs + ([x] + ys)
  {
  }

  /** What the inner dispatch loop adds to the in-flight table: one entry per group, in group order. */
  lemma {:induction false} Deliveries<P>(cfg: Config, s: State<P>, m: Message<P>, t: Topic, keys: seq<Key>, many: bool)
    requires Served(s.groups, keys)
    ensures DeliverTo(cfg, s, m, t, keys, many).0.inFlight == s.inFlight + NewEntries(cfg, s.nextId, m, t, keys, many)
    decreases |keys|
  {
    hide MembersIn, Delivery;
    if keys == [] {
      assert s.inFlight + NewEntries(cfg, s.nextId, m, t, keys, many) == s.inFlight;
    } else {
      var s1 := AfterFirst(cfg, s, m, t, keys, many);
      DeliverToUnfolds(cfg, s, m, t, keys, many);
      Deliveries(cfg, s1, m, t, keys[1..], many);
      var first := Delivery(cfg, s.nextId, m, t, keys[0].name, many);
      ConsAssociates(s.inFlight, first, NewEntries(cfg, s1.nextId, m, t, keys[1..], many));
    }
  }

  lemma {:induction false} DeliveriesDraw<P>(cfg: Config, s: State<P>, m: Message<P>, t: Topic, keys: seq<Key>, many: bool)
    requires Served(s.groups, keys)
    ensures DeliverTo(cfg, s, m, t, keys, many).0.nextId == s.nextId + IdsDrawn(|keys|, many)
    decreases |keys|
  {
    hide MembersIn, Delivery;
    if keys != [] {
      DeliverToUnfolds(cfg, s, m, t, keys, many);
      DeliveriesDraw(cfg, AfterFirst(cfg, s, m, t, keys, many), m, t, keys[1..], many);
    }
  }

  /** Whom the inner dispatch loop calls: in each group the consumer whose turn it is. */
  lemma {:induction false} Turns<P>(cfg: Config, s: State<P>, m: Message<P>, t: Topic, keys: seq<Key>, many: bool)
    requires Served(s.groups, keys)
    ensures DeliverTo(cfg, s, m, t, keys, many).1 == TurnsOf(s.groups, s.rr, keys)
    decreases |keys|
  {
    hide MembersIn;
    if keys != [] {
      DeliverToUnfolds(cfg, s, m, t, keys, many);
      Turns(cfg, AfterFirst(cfg, s, m, t, keys, many), m, t, keys[1..], many);
    }
  }

  lemma {:induction false} TurnsStored<P>(cfg: Config, s: State<P>, m: Message<P>, t: Topic, keys: seq<Key>, many: bool)
    requires Served(s.groups, keys)
    ensures DeliverTo(cfg, s, m, t, keys, many).0.rr == TurnedOver(s.groups, s.rr, keys)
    decreases |keys|
  {
    hide MembersIn;
    if keys != [] {
      DeliverToUnfolds(cfg, s, m, t, keys, many);
      TurnsStored(cfg, AfterFirst(cfg, s, m, t, keys, many), m, t, keys[1..], many);
    }
  }

  lemma {:induction false} NewEntriesFacts<P>(cfg: Config, id: Id, m: Message<P>, t: Topic, keys: seq<Key>, many: bool)
    ensures var es := NewEntries(cfg, id, m, t, keys, many);
            && |es| == |keys|
            && (forall j :: 0 <= j < |es| ==>
                  && EntryOf(cfg, t, m, es[j])
                  && es[j].group == keys[j].name
                  && (if many then id <= es[j].message.id < es[j].deliveryId else es[j].message == m)
                  && id <= es[j].deliveryId < id + IdsDrawn(|keys|, many))
            && (forall i, j :: 0 <= i < j < |es| ==>
                  es[i].deliveryId < es[j].deliveryId && (many ==> es[i].deliveryId < es[j].message.id))
    decreases |keys|
  {
    if keys != [] {
      NewEntriesFacts(cfg, id + IdsDrawn(1, many), m, t, keys[1..], many);
    }
  }

  lemma {:induction false} TurnsOfFacts(gs: seq<Group>, rr: map<Key, nat>, keys: seq<Key>)
    requires Served(gs, keys)
    ensures |TurnsOf(gs, rr, keys)| == |keys|
    ensures forall j :: 0 <= j < |keys| ==> TurnsOf(gs, rr, keys)[j].key == keys[j]
    decreases |keys|
  {
    if keys != [] {
      var members := MembersIn(gs, keys[0]);
      TurnsOfFacts(gs, rr[keys[0] := IndexFor(rr, keys[0]) % |members| + 1], keys[1..]);
    }
  }

  // ---- One turn of the outer dispatch loop ----------------------------------

  ghost function HeadEntries<P>(cfg: Config, s: State<P>, t: Topic, keys: seq<Key>): seq<Entry<P>>
    requires Pend(s, t) != []
  {
    NewEntries(cfg, s.nextId, Pend(s, t)[0], t, keys, |keys| > 1)
  }

  ghost function HeadEvent<P>(cfg: Config, s: State<P>, t: Topic, keys: seq<Key>): Event<P>
    requires Pend(s, t) != [] && Served(s.groups, keys)
  {
    Dispatched(t, Pend(s, t)[0], HeadEntries(cfg, s, t, keys), TurnsOf(s.groups, s.rr, keys))
  }

  /** The state after one turn: the head of the queue has gone to every group. */
  ghost function AfterHead<P>(cfg: Config, s: State<P>, t: Topic, keys: seq<Key>): State<P>
    requires Pend(s, t) != [] && Served(s.groups, keys)
  {
    s.(pending := s.pending[t := Pend(s, t)[1..]],
       inFlight := s.inFlight + HeadEntries(cfg, s, t, keys),
       rr := TurnedOver(s.groups, s.rr, keys),
       nextId := s.nextId + IdsDrawn(|keys|, |keys| > 1),
       log := s.log + [HeadEvent(cfg, s, t, keys)])
  }

  /** The put-back branch is not taken when every group is served. */
  lemma HeadIsTaken<P>(cfg: Config, s: State<P>, t: Topic, keys: seq<Key>)
    requires Pend(s, t) != [] && keys != [] && Served(s.groups, keys)
    ensures DispatchLoop(cfg, s, t, keys) == DispatchLoop(cfg, AfterHead(cfg, s, t, keys), t, keys)
  {
    var m := Pend(s, t)[0];
    var s0 := s.(pending := s.pending[t := Pend(s, t)[1..]]);
    Deliveries(cfg, s0, m, t, keys, |keys| > 1);
    DeliveriesDraw(cfg, s0, m, t, keys, |keys| > 1);
    Turns(cfg, s0, m, t, keys, |keys| > 1);
    TurnsStored(cfg, s0, m, t, keys, |keys| > 1);
    var (s1, calls) := DeliverTo(cfg, s0, m, t, keys, |keys| > 1);
    TurnsOfFacts(s.groups, s.rr, keys);
    assert s1.inFlight[|s.inFlight|..] == HeadEntries(cfg, s, t, keys);
    assert LogDispatch(s, s1, t, m, calls) == AfterHead(cfg, s, t, keys);
  }

  // ---- Every block keeps the shape -------------------------------------------

  lemma PendIsOk<P>(cfg: Config, s: State<P>, t: Topic)
    requires PendingOk(cfg, s.pending)
    ensures QueueOk(cfg, Pend(s, t))
  {
  }

  lemma LogSnoc<P>(cfg: Config, log: seq<Event<P>>, ev: Event<P>)
    requires LogOk(cfg, log) && EventOk(cfg, ev)
    ensures LogOk(cfg, log + [ev])
  {
  }

  lemma EnqueueShape<P>(cfg: Config, s: State<P>, t: Topic, p: P, vt: Option<real>)
    requires Shape(cfg, s)
    ensures Shape(cfg, Enqueue(cfg, s, t, p, vt))
  {
    PendIsOk(cfg, s, t);
  }

  lemma ConsumeShape<P>(cfg: Config, s: State<P>, t: Topic, g: Option<string>)
    requires Shape(cfg, s)
    ensures Shape(cfg, Consume(s, t, g))
  {
    AddMemberOk(s.groups, s.registry, Key(t, GroupName(t, g)), s.nextId);
  }

  lemma RemoveShape<P>(cfg: Config, s: State<P>, c: Id)
    requires Shape(cfg, s)
    ensures Shape(cfg, RemoveConsumer(s, c))
  {
    if c in s.registry {
      var s' := RemoveConsumer(s, c);
      assert c in MembersIn(s.groups, s.registry[c]);
      assert s' == s.(groups := DropFromGroups(s.groups, s.registry[c], c), registry := s.registry - {c},
                      rr := s'.rr, log := s.log + [Removed(c)]);
      DropFromGroupsOk(s.groups, s.registry, s.nextId, c);
      LogSnoc(cfg, s.log, Removed(c));
    }
  }

  lemma DequeueShape<P>(cfg: Config, s: State<P>, t: Topic)
    requires Shape(cfg, s)
    ensures Shape(cfg, Dequeue(cfg, s, t))
  {
    PendIsOk(cfg, s, t);
  }

  lemma WithoutIsOk<P>(cfg: Config, es: seq<Entry<P>>, nextId: Id, i: nat)
    requires FlightOk(cfg, es, nextId) && i < |es|
    ensures FlightOk(cfg, Without(es, i), nextId)
  {
  }

  lemma AckShape<P>(cfg: Config, s: State<P>, d: Id)
    requires Shape(cfg, s)
    ensures Shape(cfg, Ack(s, d))
  {
    hide EntryIndex, FlightOk, GroupTableOk, PendingOk, Without;
    var i := EntryIndex(s.inFlight, d);
    if i < |s.inFlight| {
      WithoutIsOk(cfg, s.inFlight, s.nextId, i);
    }
  }

  lemma RequeueShape<P>(cfg: Config, s: State<P>, e: Entry<P>)
    requires Shape(cfg, s) && EntryOk(cfg, e) && CanRetry(cfg, e)
    ensures Shape(cfg, Requeue(s, e))
  {
    PendIsOk(cfg, s, e.topic);
  }

  lemma DeadLetterShape<P>(cfg: Config, s: State<P>, e: Entry<P>, why: Reason)
    requires Shape(cfg, s) && EntryOk(cfg, e)
    ensures Shape(cfg, DeadLetter(s, e, why))
  {
    PendIsOk(cfg, s, DeadLetterTopic(e.topic));
  }

  lemma NackShape<P>(cfg: Config, s: State<P>, d: Id, requeue: bool)
    requires Shape(cfg, s)
    ensures Shape(cfg, Nack(cfg, s, d, requeue))
  {
    var i := EntryIndex(s.inFlight, d);
    if i < |s.inFlight| {
      var e, s' := s.inFlight[i], s.(inFlight := Without(s.inFlight, i));
      WithoutIsOk(cfg, s.inFlight, s.nextId, i);
      if requeue && CanRetry(cfg, e) {
        RequeueShape(cfg, s', e);
      } else {
        DeadLetterShape(cfg, s', e, if CanRetry(cfg, e) then NackNoRequeue else MaxRetriesExceeded);
      }
    }
  }

  lemma {:induction false} FilterStaysAbove<P>(es: seq<Entry<P>>, low: Id, keep: Entry<P> -> bool)
    requires forall i :: 0 <= i < |es| ==> low < es[i].deliveryId
    ensures forall i :: 0 <= i < |Filter(es, keep)| ==> low < Filter(es, keep)[i].deliveryId
  {
    if es != [] {
      FilterStaysAbove(es[1..], low, keep);
    }
  }

  lemma {:induction false} FilterIsOk<P>(cfg: Config, es: seq<Entry<P>>, nextId: Id, keep: Entry<P> -> bool)
    requires FlightOk(cfg, es, nextId)
    ensures FlightOk(cfg, Filter(es, keep), nextId)
  {
    hide EntryOk;
    if es != [] {
      FilterStaysAbove(es[1..], es[0].deliveryId, keep);
      FilterIsOk(cfg, es[1..], nextId, keep);
      if keep(es[0]) {
        assert Filter(es, keep) == [es[0]] + Filter(es[1..], keep);
      } else {
        assert Filter(es, keep) == Filter(es[1..], keep);
      }
    }
  }

  lemma {:induction false} ExpireAllShape<P>(cfg: Config, s: State<P>, es: seq<Entry<P>>)
    requires Shape(cfg, s) && forall i :: 0 <= i < |es| ==> EntryOk(cfg, es[i])
    ensures Shape(cfg, ExpireAll(cfg, s, es))
    decreases |es|
  {
    if es != [] {
      if CanRetry(cfg, es[0]) {
        RequeueShape(cfg, s, es[0]);
      } else {
        DeadLetterShape(cfg, s, es[0], VisibilityTimeoutExceeded);
      }
      ExpireAllShape(cfg, Expire(cfg, s, es[0]), es[1..]);
    }
  }

  lemma SweepShape<P>(cfg: Config, s: State<P>, now: real)
    requires Shape(cfg, s)
    ensures Shape(cfg, Sweep(cfg, s, now))
  {
    FilterIsOk(cfg, s.inFlight, s.nextId, (e: Entry<P>) => Expired(e, now));
    FilterIsOk(cfg, s.inFlight, s.nextId, (e: Entry<P>) => !Expired(e, now));
    ExpireAllShape(cfg, s.(inFlight := NotOverdue(s.inFlight, now)), Overdue(s.inFlight, now));
  }

  lemma GroupTableKept(gs: seq<Group>, registry: map<Id, Key>, n: Id, n': Id)
    requires GroupTableOk(gs, registry, n) && n <= n'
    ensures GroupTableOk(gs, registry, n')
  {
  }

  lemma HeadFlightOk<P>(cfg: Config, s: State<P>, t: Topic, keys: seq<Key>)
    requires FlightOk(cfg, s.inFlight, s.nextId) && QueueOk(cfg, Pend(s, t)) && Pend(s, t) != []
    ensures FlightOk(cfg, s.inFlight + HeadEntries(cfg, s, t, keys), s.nextId + IdsDrawn(|keys|, |keys| > 1))
  {
    var es, m := HeadEntries(cfg, s, t, keys), Pend(s, t)[0];
    NewEntriesFacts(cfg, s.nextId, m, t, keys, |keys| > 1);
    assert forall i :: 0 <= i < |es| ==> EntryOk(cfg, es[i]);
  }

  lemma HeadEventOk<P>(cfg: Config, s: State<P>, t: Topic, keys: seq<Key>)
    requires Pend(s, t) != [] && keys != [] && Served(s.groups, keys)
    ensures EventOk(cfg, HeadEvent(cfg, s, t, keys))
  {
    NewEntriesFacts(cfg, s.nextId, Pend(s, t)[0], t, keys, |keys| > 1);
    TurnsOfFacts(s.groups, s.rr, keys);
  }

  lemma AfterHeadShape<P>(cfg: Config, s: State<P>, t: Topic, keys: seq<Key>)
    requires Shape(cfg, s) && Pend(s, t) != [] && keys != [] && Served(s.groups, keys)
    ensures Shape(cfg, AfterHead(cfg, s, t, keys))
  {
    PendIsOk(cfg, s, t);
    assert QueueOk(cfg, Pend(s, t)[1..]);
    hide HeadEntries, HeadEvent, TurnedOver, GroupTableOk, FlightOk, LogOk, EventOk, MessageOk, IdsDrawn, Served;
    HeadFlightOk(cfg, s, t, keys);
    HeadEventOk(cfg, s, t, keys);
    LogSnoc(cfg, s.log, HeadEvent(cfg, s, t, keys));
    GroupTableKept(s.groups, s.registry, s.nextId, s.nextId + IdsDrawn(|keys|, |keys| > 1));
  }

  lemma {:induction false} DispatchLoopShape<P>(cfg: Config, s: State<P>, t: Topic, keys: seq<Key>)
    requires Shape(cfg, s) && keys != [] && Served(s.groups, keys)
    ensures Shape(cfg, DispatchLoop(cfg, s, t, keys))
    decreases |Pend(s, t)|
  {
    if Pend(s, t) != [] {
      AfterHeadShape(cfg, s, t, keys);
      HeadIsTaken(cfg, s, t, keys);
      DispatchLoopShape(cfg, AfterHead(cfg, s, t, keys), t, keys);
    }
  }

  lemma DispatchShape<P>(cfg: Config, s: State<P>, t: Topic)
    requires Shape(cfg, s)
    ensures Shape(cfg, Dispatch(cfg, s, t))
  {
    var keys := KeysOn(s.groups, t);
    GroupsAreServed(s.groups, t);
    if keys != [] {
      DispatchLoopShape(cfg, s, t, keys);
    }
  }

  /** From `s` to `s'` no group, index or registration changed, and no handler was called. */
  ghost predicate Quiet<P>(s: State<P>, s': State<P>)
  {
    && s'.groups == s.groups && s'.rr == s.rr && s'.registry == s.registry && s.nextId <= s'.nextId
    && s.log <= s'.log
    && forall i :: |s.log| <= i < |s'.log| ==> QuietEvent(s'.log[i])
  }

  ghost predicate QuietEvent<P>(ev: Event<P>)
  {
    !ev.Registered? && !ev.Removed? && !ev.Dropped? && (ev.Dispatched? ==> ev.calls == [])
  }

  lemma EnqueueIsQuiet<P>(cfg: Config, s: State<P>, t: Topic, p: P, vt: Option<real>)
    ensures Quiet(s, Enqueue(cfg, s, t, p, vt))
  {
  }

  lemma DequeueIsQuiet<P>(cfg: Config, s: State<P>, t: Topic)
    ensures Quiet(s, Dequeue(cfg, s, t))
  {
  }

  lemma AckIsQuiet<P>(s: State<P>, d: Id)
    ensures Quiet(s, Ack(s, d))
  {
  }

  lemma NackIsQuiet<P>(cfg: Config, s: State<P>, d: Id, requeue: bool)
    ensures Quiet(s, Nack(cfg, s, d, requeue))
  {
    hide EntryIndex, Without;
  }

  lemma {:induction false} ExpireAllIsQuiet<P>(cfg: Config, s: State<P>, es: seq<Entry<P>>)
    ensures Quiet(s, ExpireAll(cfg, s, es))
    decreases |es|
  {
    if es != [] {
      ExpireIsQuiet(cfg, s, es[0]);
      hide Expire;
      ExpireAllIsQuiet(cfg, Expire(cfg, s, es[0]), es[1..]);
    }
  }

  lemma ExpireIsQuiet<P>(cfg: Config, s: State<P>, e: Entry<P>)
    ensures Quiet(s, Expire(cfg, s, e))
  {
  }

  lemma SweepIsQuiet<P>(cfg: Config, s: State<P>, now: real)
    ensures Quiet(s, Sweep(cfg, s, now))
  {
    hide ExpireAll;
    ExpireAllIsQuiet(cfg, s.(inFlight := NotOverdue(s.inFlight, now)), Overdue(s.inFlight, now));
  }

  /** Every block but a registration, a removal, a dispatch and the final clearing. */
  lemma BlockIsQuiet<P>(cfg: Config, s: State<P>, a: Action<P>)
    requires !a.DoConsume? && !a.DoRemove? && !a.DoDispatch? && !a.DoClear?
    ensures Quiet(s, Apply(cfg, s, a))
  {
    hide Enqueue, Dequeue, Ack, Nack, Sweep;
    match a
    case DoEnqueue(t, p, vt) => EnqueueIsQuiet(cfg, s, t, p, vt);
    case DoDequeue(t) => DequeueIsQuiet(cfg, s, t);
    case DoAck(d) => AckIsQuiet(s, d);
    case DoNack(d, r) => NackIsQuiet(cfg, s, d, r);
    case DoSweep(now) => SweepIsQuiet(cfg, s, now);
    case DoMarkClosed =>
  }

  lemma MarkClosedShape<P>(cfg: Config, s: State<P>)
    requires Shape(cfg, s)
    ensures Shape(cfg, MarkClosed(s))
  {
  }

  lemma ClearShape<P>(cfg: Config, s: State<P>)
    requires Shape(cfg, s)
    ensures Shape(cfg, Clear(s))
  {
    LogSnoc(cfg, s.log, Dropped(s.pending, s.inFlight));
  }

  lemma ApplyShape<P>(cfg: Config, s: State<P>, a: Action<P>)
    requires Shape(cfg, s)
    ensures Shape(cfg, Apply(cfg, s, a))
  {
    hide Enqueue, Consume, RemoveConsumer, Dequeue, Ack, Nack, Sweep, Dispatch, MarkClosed, Clear, Shape;
    match a
    case DoEnqueue(t, p, vt) => EnqueueShape(cfg, s, t, p, vt);
    case DoConsume(t, g) => ConsumeShape(cfg, s, t, g);
    case DoRemove(c) => RemoveShape(cfg, s, c);
    case DoDequeue(t) => DequeueShape(cfg, s, t);
    case DoAck(d) => AckShape(cfg, s, d);
    case DoNack(d, r) => NackShape(cfg, s, d, r);
    case DoSweep(now) => SweepShape(cfg, s, now);
    case DoDispatch(t) => DispatchShape(cfg, s, t);
    case DoMarkClosed => MarkClosedShape(cfg, s);
    case DoClear => ClearShape(cfg, s);
  }

  lemma RunSnoc<P>(cfg: Config, acts: seq<Action<P>>, a: Action<P>)
    ensures Run(cfg, acts + [a]) == Step(cfg, Run(cfg, acts), a)
  {
    assert (acts + [a])[..|acts|] == acts;
  }

  lemma InitShape<P>(cfg: Config)
    ensures Shape<P>(cfg, Init())
  {
  }

  /** In every run, of any threads in any order, the tables are well formed. */
  lemma {:induction false} RunShape<P>(cfg: Config, acts: seq<Action<P>>)
    ensures Shape(cfg, Run(cfg, acts).q)
  {
    hide Apply, Shape;
    if acts == [] {
      InitShape<P>(cfg);
    } else {
      RunShape(cfg, acts[..|acts| - 1]);
      ApplyShape(cfg, Run(cfg, acts[..|acts| - 1]).q, acts[|acts| - 1]);
    }
  }
}
