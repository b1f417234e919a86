/**
 The state of a `WorkQueue` and its lock-protected blocks as functions on that state.

 Every `with self._wq_lock` block of eventforge/work_queue.py is one function here.  The state
 also carries `log`, an audit trail that no operation reads: it names what happened to which
 message, and the theorems are stated over it.
 */
module WorkQueueModel {
  import opened Options
  import opened Sums

  /** A uuid4 value.  Draws come from a counter, which makes them fresh; nothing else is used of it. */
  type Id = nat
  type Topic = string

  /** A key of `_consumer_groups`: (topic, group name). */
  datatype Key = Key(topic: Topic, name: string)

  const DEAD_LETTER: string := ".dead_letter"

  function DeadLetterTopic(t: Topic): Topic
  {
    t + DEAD_LETTER
  }

  predicate IsDeadLetterTopic(t: Topic)
  {
    |t| >= |DEAD_LETTER| && t[|t| - |DEAD_LETTER|..] == DEAD_LETTER
  }

  datatype Reason = MaxRetriesExceeded | NackNoRequeue | VisibilityTimeoutExceeded

  /**
   A message with the `_wq_*` headers as fields.  `payload` stands for everything the operations
   carry along unread: the payload, the user's own headers, timestamp, reply_to, correlation_id.
   */
  datatype Message<P> = Message(
    id: Id,
    topic: Topic,
    payload: P,
    retry: nat,
    originalTopic: Topic,
    timeout: real,
    deliveryId: Option<Id>,
    deadLetterReason: Option<Reason>)

  datatype Entry<P> = Entry(
    message: Message<P>,
    deliveryId: Id,
    topic: Topic,
    group: string,
    deliveredAt: real,
    timeout: real,
    retry: nat)

  /** One item of `_consumer_groups`; a consumer's handler is named by the consumer's id. */
  datatype Group = Group(key: Key, members: seq<Id>)

  /** A handler invocation: the group and the consumer whose turn it was. */
  datatype Call = Call(key: Key, consumer: Id)

  datatype Event<P> =
    | Accepted(topic: Topic, message: Message<P>)
    | Dispatched(topic: Topic, message: Message<P>, entries: seq<Entry<P>>, calls: seq<Call>)
    | Acked(entry: Entry<P>)
    | Requeued(entry: Entry<P>, message: Message<P>)
    | DeadLettered(entry: Entry<P>, message: Message<P>)
    | Registered(key: Key, consumer: Id)
    | Removed(consumer: Id)
    | Dropped(pending: map<Topic, seq<Message<P>>>, inFlight: seq<Entry<P>>)

  /** `inFlight` and `groups` are dictionaries whose insertion order matters, hence sequences. */
  datatype State<P> = State(
    pending: map<Topic, seq<Message<P>>>,
    inFlight: seq<Entry<P>>,
    groups: seq<Group>,
    rr: map<Key, nat>,
    registry: map<Id, Key>,
    nextId: Id,
    closed: bool,
    log: seq<Event<P>>)

  /** `clock(d)` is the monotonic time at which delivery `d` is stamped: any timing at all. */
  datatype Config = Config(
    maxSize: int,
    maxRetries: int,
    defaultTimeout: real,
    clock: Id -> real)

  function Init<P>(): State<P>
  {
    State(map[], [], [], map[], map[], 0, false, [])
  }

  // ---- Lookups -------------------------------------------------------------

  function PendingIn<P>(pending: map<Topic, seq<Message<P>>>, t: Topic): seq<Message<P>>
  {
    if t in pending then pending[t] else []
  }

  function Pend<P>(s: State<P>, t: Topic): seq<Message<P>>
  {
    PendingIn(s.pending, t)
  }

  function GroupIndex(gs: seq<Group>, k: Key): (i: nat)
    ensures i <= |gs|
    ensures i < |gs| ==> gs[i].key == k
    ensures forall j :: 0 <= j < i ==> gs[j].key != k
  {
    if gs == [] || gs[0].key == k then 0 else 1 + GroupIndex(gs[1..], k)
  }

  function MembersIn(gs: seq<Group>, k: Key): seq<Id>
  {
    var i := GroupIndex(gs, k);
    if i < |gs| then gs[i].members else []
  }

  /** The keys of the groups on topic `t`, in dictionary order. */
  function KeysOn(gs: seq<Group>, t: Topic): (ks: seq<Key>)
    ensures forall i :: 0 <= i < |ks| ==> ks[i].topic == t
    ensures |ks| <= |gs|
  {
    if gs == [] then []
    else (if gs[0].key.topic == t then [gs[0].key] else []) + KeysOn(gs[1..], t)
  }

  function IndexFor(rr: map<Key, nat>, k: Key): nat
  {
    if k in rr then rr[k] else 0
  }

  function EntryIndex<P>(es: seq<Entry<P>>, d: Id): (i: nat)
    ensures i <= |es|
    ensures i < |es| ==> es[i].deliveryId == d
    ensures forall j :: 0 <= j < i ==> es[j].deliveryId != d
  {
    if es == [] || es[0].deliveryId == d then 0 else 1 + EntryIndex(es[1..], d)
  }

  predicate InFlight<P>(s: State<P>, d: Id)
  {
    EntryIndex(s.inFlight, d) < |s.inFlight|
  }

  /** The index of the first occurrence of `x`, or the length of `xs`. */
  function IndexOf(xs: seq<Id>, x: Id): (i: nat)
    ensures i <= |xs|
    ensures i < |xs| ==> xs[i] == x
    ensures forall j :: 0 <= j < i ==> xs[j] != x
  {
    if xs == [] || xs[0] == x then 0 else 1 + IndexOf(xs[1..], x)
  }

  function Without<T>(xs: seq<T>, i: nat): seq<T>
    requires i < |xs|
  {
    xs[..i] + xs[i + 1..]
  }

  // ---- Producers -----------------------------------------------------------

  predicate Full<P>(cfg: Config, s: State<P>, t: Topic)
  {
    cfg.maxSize > 0 && |Pend(s, t)| >= cfg.maxSize
  }

  function NewMessage<P>(cfg: Config, id: Id, t: Topic, p: P, vt: Option<real>): Message<P>
  {
    Message(id, t, p, 0, t, if vt.Some? then vt.value else cfg.defaultTimeout, None, None)
  }

  /** The message id is drawn before the fullness check, so a rejected call uses one up too. */
  function Enqueue<P>(cfg: Config, s: State<P>, t: Topic, p: P, vt: Option<real>): State<P>
  {
    var m := NewMessage(cfg, s.nextId, t, p, vt);
    var s' := s.(nextId := s.nextId + 1);
    if Full(cfg, s, t) then s'
    else s'.(pending := s.pending[t := Pend(s, t) + [m]], log := s.log + [Accepted(t, m)])
  }

  // ---- Consumers -----------------------------------------------------------

  /** An absent or empty group name selects the topic's default group. */
  function GroupName(t: Topic, group: Option<string>): string
  {
    if group.Some? && group.value != "" then group.value else t + ".default"
  }

  function AddMember(gs: seq<Group>, k: Key, c: Id): seq<Group>
  {
    var i := GroupIndex(gs, k);
    if i < |gs| then gs[i := Group(k, gs[i].members + [c])] else gs + [Group(k, [c])]
  }

  function Consume<P>(s: State<P>, t: Topic, group: Option<string>): State<P>
  {
    var k, c := Key(t, GroupName(t, group)), s.nextId;
    s.(groups := AddMember(s.groups, k, c),
       registry := s.registry[c := k],
       nextId := c + 1,
       log := s.log + [Registered(k, c)])
  }

  function DropMember(members: seq<Id>, c: Id): seq<Id>
  {
    var i := IndexOf(members, c);
    if i < |members| then Without(members, i) else members
  }

  /** Takes consumer `c` out of the group filed under `k`, and the group out of the table if that empties it. */
  function DropFromGroups(gs: seq<Group>, k: Key, c: Id): seq<Group>
  {
    var i := GroupIndex(gs, k);
    if i == |gs| then gs
    else
      var rest := DropMember(gs[i].members, c);
      if rest == [] then Without(gs, i) else gs[i := Group(k, rest)]
  }

  function RemoveConsumer<P>(s: State<P>, c: Id): State<P>
  {
    if c !in s.registry then s
    else
      var k := s.registry[c];
      var s' := s.(registry := s.registry - {c}, log := s.log + [Removed(c)]);
      if MembersIn(s.groups, k) == [] then s'
      else
        var gs := DropFromGroups(s.groups, k, c);
        s'.(groups := gs, rr := if DropMember(MembersIn(s.groups, k), c) == [] then s.rr - {k} else s.rr)
  }

  // ---- Delivery ------------------------------------------------------------

  function NewEntry<P>(cfg: Config, d: Id, m: Message<P>, t: Topic, group: string): Entry<P>
  {
    Entry(m, d, t, group, cfg.clock(d), m.timeout, m.retry)
  }

  /** The copy handed to the handler or puller: stamped with its delivery id. */
  function Stamped<P>(e: Entry<P>): Message<P>
  {
    e.message.(deliveryId := Some(e.deliveryId))
  }

  function MakeInFlight<P>(cfg: Config, s: State<P>, m: Message<P>, t: Topic, group: string): State<P>
  {
    s.(inFlight := s.inFlight + [NewEntry(cfg, s.nextId, m, t, group)], nextId := s.nextId + 1)
  }

  /** A poll by `dequeue`: takes the head of the queue unless the queue is closed or empty. */
  function Dequeue<P>(cfg: Config, s: State<P>, t: Topic): State<P>
  {
    if s.closed || Pend(s, t) == [] then s
    else
      var m := Pend(s, t)[0];
      var s' := MakeInFlight(cfg, s.(pending := s.pending[t := Pend(s, t)[1..]]), m, t, t + "._pull");
      s'.(log := s.log + [Dispatched(t, m, [s'.inFlight[|s.inFlight|]], [])])
  }

  /** The call that group `k` is due. */
  function NextCall<P>(s: State<P>, k: Key): Call
    requires MembersIn(s.groups, k) != []
  {
    var members := MembersIn(s.groups, k);
    Call(k, members[IndexFor(s.rr, k) % |members|])
  }

  /** Delivery to one group: a copy with its own id if there are `many` groups, and the turn passes on. */
  function DeliverOne<P>(cfg: Config, s: State<P>, m: Message<P>, t: Topic, k: Key, many: bool): State<P>
    requires MembersIn(s.groups, k) != []
  {
    var m' := if many then m.(id := s.nextId) else m;
    var s1 := if many then s.(nextId := s.nextId + 1) else s;
    MakeInFlight(cfg, s1, m', t, k.name)
      .(rr := s.rr[k := IndexFor(s.rr, k) % |MembersIn(s.groups, k)| + 1])
  }

  /** The inner loop of `_try_dispatch`: one message to every group of `keys`, in order. */
  function DeliverTo<P>(cfg: Config, s: State<P>, m: Message<P>, t: Topic, keys: seq<Key>, many: bool)
    : (r: (State<P>, seq<Call>))
    ensures r.0 == s.(inFlight := r.0.inFlight, rr := r.0.rr, nextId := r.0.nextId)
    ensures s.inFlight <= r.0.inFlight && s.nextId <= r.0.nextId
    decreases |keys|
  {
    if keys == [] then (s, [])
    else
      var k := keys[0];
      if MembersIn(s.groups, k) == [] then DeliverTo(cfg, s, m, t, keys[1..], many)
      else
        var (s', calls) := DeliverTo(cfg, DeliverOne(cfg, s, m, t, k, many), m, t, keys[1..], many);
        (s', [NextCall(s, k)] + calls)
  }

  /** The outer loop of `_try_dispatch`, with the put-back branch for a message nobody took. */
  function DispatchLoop<P>(cfg: Config, s: State<P>, t: Topic, keys: seq<Key>): State<P>
    decreases |Pend(s, t)|
  {
    if Pend(s, t) == [] then s
    else
      var m := Pend(s, t)[0];
      var s0 := s.(pending := s.pending[t := Pend(s, t)[1..]]);
      var (s1, calls) := DeliverTo(cfg, s0, m, t, keys, |keys| > 1);
      if calls == [] then s1.(pending := s1.pending[t := [m] + Pend(s1, t)])
      else DispatchLoop(cfg, LogDispatch(s, s1, t, m, calls), t, keys)
  }

  function LogDispatch<P>(s: State<P>, s1: State<P>, t: Topic, m: Message<P>, calls: seq<Call>): State<P>
    requires s.inFlight <= s1.inFlight
  {
    s1.(log := s1.log + [Dispatched(t, m, s1.inFlight[|s.inFlight|..], calls)])
  }

  function Dispatch<P>(cfg: Config, s: State<P>, t: Topic): State<P>
  {
    var keys := KeysOn(s.groups, t);
    if keys == [] then s else DispatchLoop(cfg, s, t, keys)
  }

  // ---- Settling ------------------------------------------------------------

  predicate CanRetry<P>(cfg: Config, e: Entry<P>)
  {
    e.retry + 1 < cfg.maxRetries
  }

  function Ack<P>(s: State<P>, d: Id): State<P>
  {
    var i := EntryIndex(s.inFlight, d);
    if i == |s.inFlight| then s
    else s.(inFlight := Without(s.inFlight, i), log := s.log + [Acked(s.inFlight[i])])
  }

  function Requeue<P>(s: State<P>, e: Entry<P>): State<P>
  {
    var m := e.message.(retry := e.retry + 1);
    s.(pending := s.pending[e.topic := [m] + Pend(s, e.topic)], log := s.log + [Requeued(e, m)])
  }

  function DeadLetterCopy<P>(e: Entry<P>, id: Id, why: Reason): Message<P>
  {
    e.message.(id := id, topic := DeadLetterTopic(e.topic), deadLetterReason := Some(why))
  }

  function DeadLetter<P>(s: State<P>, e: Entry<P>, why: Reason): State<P>
  {
    var t, m := DeadLetterTopic(e.topic), DeadLetterCopy(e, s.nextId, why);
    s.(pending := s.pending[t := Pend(s, t) + [m]],
       nextId := s.nextId + 1,
       log := s.log + [DeadLettered(e, m)])
  }

  function Nack<P>(cfg: Config, s: State<P>, d: Id, requeue: bool): State<P>
  {
    var i := EntryIndex(s.inFlight, d);
    if i == |s.inFlight| then s
    else
      var e := s.inFlight[i];
      var s' := s.(inFlight := Without(s.inFlight, i));
      if requeue && CanRetry(cfg, e) then Requeue(s', e)
      else DeadLetter(s', e, if CanRetry(cfg, e) then NackNoRequeue else MaxRetriesExceeded)
  }

  predicate Expired<P>(e: Entry<P>, now: real)
  {
    now - e.deliveredAt >= e.timeout
  }

  function Overdue<P>(es: seq<Entry<P>>, now: real): seq<Entry<P>>
  {
    Filter(es, (e: Entry<P>) => Expired(e, now))
  }

  function NotOverdue<P>(es: seq<Entry<P>>, now: real): seq<Entry<P>>
  {
    Filter(es, (e: Entry<P>) => !Expired(e, now))
  }

  function Expire<P>(cfg: Config, s: State<P>, e: Entry<P>): State<P>
  {
    if CanRetry(cfg, e) then Requeue(s, e) else DeadLetter(s, e, VisibilityTimeoutExceeded)
  }

  function ExpireAll<P>(cfg: Config, s: State<P>, es: seq<Entry<P>>): State<P>
    decreases |es|
  {
    if es == [] then s else ExpireAll(cfg, Expire(cfg, s, es[0]), es[1..])
  }

  /** One pass of the reaper: the overdue entries leave the table, then each is retried or buried. */
  function Sweep<P>(cfg: Config, s: State<P>, now: real): State<P>
  {
    ExpireAll(cfg, s.(inFlight := NotOverdue(s.inFlight, now)), Overdue(s.inFlight, now))
  }

  // ---- Shutdown ------------------------------------------------------------

  function MarkClosed<P>(s: State<P>): State<P>
  {
    s.(closed := true)
  }

  /** The locked block of `close`; the rotation indexes survive it. */
  function Clear<P>(s: State<P>): State<P>
  {
    s.(pending := map[], inFlight := [], groups := [], registry := map[],
       log := s.log + [Dropped(s.pending, s.inFlight)])
  }

  // ---- Interleavings -------------------------------------------------------

  datatype Action<P> =
    | DoEnqueue(topic: Topic, payload: P, timeout: Option<real>)
    | DoConsume(topic: Topic, group: Option<string>)
    | DoRemove(consumer: Id)
    | DoDequeue(topic: Topic)
    | DoAck(delivery: Id)
    | DoNack(delivery: Id, requeue: bool)
    | DoSweep(now: real)
    | DoDispatch(topic: Topic)
    | DoMarkClosed
    | DoClear

  /** `owed` counts, per topic, the threads that have left the lock and will call `_try_dispatch`. */
  datatype Machine<P> = Machine(q: State<P>, owed: multiset<Topic>)

  function Apply<P>(cfg: Config, s: State<P>, a: Action<P>): State<P>
  {
    match a
    case DoEnqueue(t, p, vt) => Enqueue(cfg, s, t, p, vt)
    case DoConsume(t, g) => Consume(s, t, g)
    case DoRemove(c) => RemoveConsumer(s, c)
    case DoDequeue(t) => Dequeue(cfg, s, t)
    case DoAck(d) => Ack(s, d)
    case DoNack(d, r) => Nack(cfg, s, d, r)
    case DoSweep(now) => Sweep(cfg, s, now)
    case DoDispatch(t) => Dispatch(cfg, s, t)
    case DoMarkClosed => MarkClosed(s)
    case DoClear => Clear(s)
  }

  /** The set `requeued_topics` of a reaper pass. */
  function RetriedTopics<P>(cfg: Config, es: seq<Entry<P>>): set<Topic>
  {
    set i | 0 <= i < |es| && CanRetry(cfg, es[i]) :: es[i].topic
  }

  /** The dispatch calls a block leaves its thread with. */
  function Owes<P>(cfg: Config, s: State<P>, a: Action<P>): multiset<Topic>
  {
    match a
    case DoEnqueue(t, _, _) => if Full(cfg, s, t) then multiset{} else multiset{t}
    case DoConsume(t, _) => multiset{t}
    case DoNack(d, r) =>
      var i := EntryIndex(s.inFlight, d);
      if i < |s.inFlight| && r && CanRetry(cfg, s.inFlight[i]) then multiset{s.inFlight[i].topic} else multiset{}
    case DoSweep(now) => multiset(RetriedTopics(cfg, Overdue(s.inFlight, now)))
    case _ => multiset{}
  }

  /** A dispatch is made only by a thread that owes it. */
  predicate Enabled<P>(m: Machine<P>, a: Action<P>)
  {
    a.DoDispatch? ==> a.topic in m.owed
  }

  function Step<P>(cfg: Config, m: Machine<P>, a: Action<P>): Machine<P>
  {
    var kept := if a.DoDispatch? then m.owed - multiset{a.topic} else m.owed;
    Machine(Apply(cfg, m.q, a), kept + Owes(cfg, m.q, a))
  }

  function Run<P>(cfg: Config, acts: seq<Action<P>>): Machine<P>
  {
    if acts == [] then Machine(Init(), multiset{})
    else Step(cfg, Run(cfg, acts[..|acts| - 1]), acts[|acts| - 1])
  }

  predicate Legal<P>(cfg: Config, acts: seq<Action<P>>)
  {
    acts == [] ||
    (Legal(cfg, acts[..|acts| - 1]) && Enabled(Run(cfg, acts[..|acts| - 1]), acts[|acts| - 1]))
  }
}
