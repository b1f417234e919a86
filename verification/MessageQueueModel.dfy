/**
 Topic channels over the in-memory transport.  Every lock block is one step, so that any number of
 threads may be part-way through `subscribe` and `unsubscribe`; the transport carries only what this
 queue subscribes to.
 */
module MessageQueueModel {
  import opened SubscriptionTables

  type Fn = nat
  type HandlerId = nat
  type Thread = nat

  datatype Handler = Handler(topic: Topic, fn: Fn)

  /** `names` are the topics in creation order; the callback registered for the i-th is its `fire`. */
  datatype Queue = Queue(
    names: seq<Topic>,
    channels: map<Topic, seq<Fn>>,
    subIds: map<HandlerId, Handler>,
    transportSubs: map<Topic, SubId>,
    transport: Memory,
    nextId: HandlerId)

  datatype Phase = Idle | Opened(handler: Handler) | Attached(handler: Handler) | Leaving(handler: Handler)

  datatype System = System(q: Queue, at: map<Thread, Phase>)

  datatype Step =
    | Topic(name: Topic)
    | Open(t: Thread, handler: Handler)  // subscribe: get or create the channel
    | Attach(t: Thread)                  // subscribe: append to the channel
    | Record(t: Thread)                  // subscribe: enter the id
    | Forget(t: Thread, id: HandlerId)   // unsubscribe: take the id out of the table
    | Detach(t: Thread)                  // unsubscribe: take the function out of the channel, under that one's own lock

  // ---- Lock blocks ------------------------------------------------------------------

  function Opening(q: Queue, name: Topic): Queue
  {
    if name in q.channels then q
    else
      q.(names := q.names + [name],
         channels := q.channels[name := []],
         transportSubs := q.transportSubs[name := q.transport.tables.nextId],
         transport := MemorySubscribe(q.transport, name, |q.names|))
  }

  function Attaching(q: Queue, h: Handler): Queue
  {
    if h.topic in q.channels then q.(channels := q.channels[h.topic := q.channels[h.topic] + [h.fn]]) else q
  }

  function Recording(q: Queue, h: Handler): Queue
  {
    q.(subIds := q.subIds[q.nextId := h], nextId := q.nextId + 1)
  }

  /** `list.remove`, the first occurrence. */
  function RemoveOne(fns: seq<Fn>, fn: Fn): seq<Fn>
  {
    if fns == [] then [] else if fns[0] == fn then fns[1..] else [fns[0]] + RemoveOne(fns[1..], fn)
  }

  function Forgetting(q: Queue, id: HandlerId): Queue
  {
    q.(subIds := q.subIds - {id})
  }

  function Detaching(q: Queue, h: Handler): Queue
  {
    if h.topic in q.channels then q.(channels := q.channels[h.topic := RemoveOne(q.channels[h.topic], h.fn)]) else q
  }

  /** `unsubscribe` with nothing in between. */
  function Cancelling(q: Queue, id: HandlerId): Queue
  {
    if id in q.subIds then Detaching(Forgetting(q, id), q.subIds[id]) else q
  }

  /** The function of `h` is on its channel: where `unsubscribe` looks, it finds something to remove. */
  predicate OnChannel(q: Queue, h: Handler)
  {
    h.topic in q.channels && h.fn in q.channels[h.topic]
  }

  /** What `unsubscribe` returns. */
  predicate Cancels(q: Queue, id: HandlerId)
  {
    id in q.subIds && OnChannel(q, q.subIds[id])
  }

  predicate Enabled(s: System, step: Step)
  {
    match step
    case Topic(_) => true
    case Open(t, _) => t in s.at && s.at[t].Idle?
    case Attach(t) => t in s.at && s.at[t].Opened?
    case Record(t) => t in s.at && s.at[t].Attached?
    case Forget(t, _) => t in s.at && s.at[t].Idle?
    case Detach(t) => t in s.at && s.at[t].Leaving?
  }

  function Next(s: System, step: Step): System
    requires Enabled(s, step)
  {
    match step
    case Topic(name) => s.(q := Opening(s.q, name))
    case Open(t, h) => System(Opening(s.q, h.topic), s.at[t := Opened(h)])
    case Attach(t) => System(Attaching(s.q, s.at[t].handler), s.at[t := Attached(s.at[t].handler)])
    case Record(t) => System(Recording(s.q, s.at[t].handler), s.at[t := Idle])
    case Forget(t, id) => if id in s.q.subIds then System(Forgetting(s.q, id), s.at[t := Leaving(s.q.subIds[id])]) else s
    case Detach(t) => System(Detaching(s.q, s.at[t].handler), s.at[t := Idle])
  }

  function Init(threads: set<Thread>): System
  {
    System(Queue([], map[], map[], map[], EMPTY, 0), map t | t in threads :: Idle)
  }

  predicate Legal(s: System, steps: seq<Step>)
    decreases |steps|
  {
    steps == [] || (Enabled(s, steps[0]) && Legal(Next(s, steps[0]), steps[1..]))
  }

  function Run(s: System, steps: seq<Step>): System
    requires Legal(s, steps)
    decreases |steps|
  {
    if steps == [] then s else Run(Next(s, steps[0]), steps[1..])
  }

  // ---- The handler table agrees with the channels -------------------------------------

  ghost function Live(subIds: map<HandlerId, Handler>, h: Handler): set<HandlerId>
  {
    set id | id in subIds && subIds[id] == h
  }

  /** A thread that has put its function on the channel but not its id in the table, or the other way round. */
  predicate IsMidway(p: Phase)
  {
    p.Attached? || p.Leaving?
  }

  ghost function Midway(at: map<Thread, Phase>, h: Handler): set<Thread>
  {
    set t | t in at && IsMidway(at[t]) && at[t].handler == h
  }

  ghost function Attachments(channels: map<Topic, seq<Fn>>, h: Handler): nat
  {
    if h.topic in channels then multiset(channels[h.topic])[h.fn] else 0
  }

  ghost predicate TableOk(s: System)
  {
    forall h :: Attachments(s.q.channels, h) == |Live(s.q.subIds, h)| + |Midway(s.at, h)|
  }

  ghost predicate PhasesOk(s: System)
  {
    && (forall t :: t in s.at && s.at[t].Opened? ==> s.at[t].handler.topic in s.q.channels)
    && (forall id :: id in s.q.subIds ==> id < s.q.nextId)
  }

  ghost predicate NamesOk(names: seq<Topic>, channels: set<Topic>)
  {
    && (forall i, j :: 0 <= i < j < |names| ==> names[i] != names[j])
    && (forall name :: name in channels <==> name in names)
  }

  ghost predicate RelaysOk(names: seq<Topic>, m: Memory)
  {
    && m.tables.nextId == |m.tables.subscribers| == |names|
    && (forall i :: 0 <= i < |names| ==> m.tables.subscribers[i] == Item(i, i))
    && (forall i :: 0 <= i < |names| ==> i in m.subTopic && m.subTopic[i] == names[i])
  }

  ghost predicate RelayIdsOk(names: seq<Topic>, transportSubs: map<Topic, SubId>)
  {
    && (forall name :: name in transportSubs <==> name in names)
    && (forall i :: 0 <= i < |names| ==> names[i] in transportSubs && transportSubs[names[i]] == i)
  }

  /** One transport subscription per topic, made when the topic was first used, firing that topic's channel. */
  ghost predicate WiringOk(q: Queue)
  {
    NamesOk(q.names, q.channels.Keys) && RelaysOk(q.names, q.transport) && RelayIdsOk(q.names, q.transportSubs)
  }

  ghost predicate Ok(s: System)
  {
    TableOk(s) && PhasesOk(s) && WiringOk(s.q)
  }

  lemma {:induction false} RemoveOneRemoves(fns: seq<Fn>, fn: Fn)
    ensures multiset(RemoveOne(fns, fn)) == multiset(fns) - multiset{fn}
  {
    if fns != [] {
      assert fns == [fns[0]] + fns[1..];
      RemoveOneRemoves(fns[1..], fn);
    }
  }

  lemma MidwayMoves(at: map<Thread, Phase>, t: Thread, to: Phase, h: Handler)
    requires t in at
    ensures |Midway(at[t := to], h)| + (if IsMidway(at[t]) && at[t].handler == h then 1 else 0)
         == |Midway(at, h)| + (if IsMidway(to) && to.handler == h then 1 else 0)
  {
    var others := Midway(at, h) - {t};
    assert Midway(at, h) == if IsMidway(at[t]) && at[t].handler == h then others + {t} else others;
    assert Midway(at[t := to], h) == if IsMidway(to) && to.handler == h then others + {t} else others;
  }

  lemma LiveAfterRecord(subIds: map<HandlerId, Handler>, id: HandlerId, added: Handler, h: Handler)
    requires id !in subIds
    ensures |Live(subIds[id := added], h)| == |Live(subIds, h)| + (if h == added then 1 else 0)
  {
    if h == added {
      assert Live(subIds[id := added], h) == Live(subIds, h) + {id};
    } else {
      assert Live(subIds[id := added], h) == Live(subIds, h);
    }
  }

  lemma LiveAfterForget(subIds: map<HandlerId, Handler>, id: HandlerId, h: Handler)
    requires id in subIds
    ensures |Live(subIds, h)| == |Live(subIds - {id}, h)| + (if h == subIds[id] then 1 else 0)
  {
    if h == subIds[id] {
      assert Live(subIds, h) == Live(subIds - {id}, h) + {id};
    } else {
      assert Live(subIds, h) == Live(subIds - {id}, h);
    }
  }

  lemma AttachmentsAfterOpening(q: Queue, name: Topic, h: Handler)
    ensures Attachments(Opening(q, name).channels, h) == Attachments(q.channels, h)
  {
  }

  lemma AttachmentsAfterAttach(q: Queue, added: Handler, h: Handler)
    requires added.topic in q.channels
    ensures Attachments(Attaching(q, added).channels, h) == Attachments(q.channels, h) + (if h == added then 1 else 0)
  {
    assert multiset(q.channels[added.topic] + [added.fn]) == multiset(q.channels[added.topic]) + multiset{added.fn};
  }

  lemma AttachmentsAfterDetach(q: Queue, gone: Handler, h: Handler)
    requires Attachments(q.channels, gone) > 0
    ensures Attachments(Detaching(q, gone).channels, h) == Attachments(q.channels, h) - (if h == gone then 1 else 0)
  {
    RemoveOneRemoves(q.channels[gone.topic], gone.fn);
  }

  lemma LiveIsAttached(s: System, id: HandlerId)
    requires TableOk(s) && id in s.q.subIds
    ensures Attachments(s.q.channels, s.q.subIds[id]) > 0
  {
    assert id in Live(s.q.subIds, s.q.subIds[id]);
  }

  lemma MidwayIsAttached(s: System, t: Thread)
    requires TableOk(s) && t in s.at && IsMidway(s.at[t])
    ensures Attachments(s.q.channels, s.at[t].handler) > 0
  {
    assert t in Midway(s.at, s.at[t].handler);
  }

  lemma StepTable(s: System, step: Step, h: Handler)
    requires TableOk(s) && PhasesOk(s) && Enabled(s, step)
    ensures var s' := Next(s, step);
            Attachments(s'.q.channels, h) == |Live(s'.q.subIds, h)| + |Midway(s'.at, h)|
  {
    hide Live, Midway, Attachments;
    match step
    case Topic(name) => AttachmentsAfterOpening(s.q, name, h);
    case Open(t, handler) =>
      AttachmentsAfterOpening(s.q, handler.topic, h);
      MidwayMoves(s.at, t, Opened(handler), h);
    case Attach(t) =>
      AttachmentsAfterAttach(s.q, s.at[t].handler, h);
      MidwayMoves(s.at, t, Attached(s.at[t].handler), h);
    case Record(t) =>
      LiveAfterRecord(s.q.subIds, s.q.nextId, s.at[t].handler, h);
      MidwayMoves(s.at, t, Idle, h);
    case Forget(t, id) =>
      if id in s.q.subIds {
        LiveAfterForget(s.q.subIds, id, h);
        MidwayMoves(s.at, t, Leaving(s.q.subIds[id]), h);
      }
    case Detach(t) =>
      MidwayIsAttached(s, t);
      AttachmentsAfterDetach(s.q, s.at[t].handler, h);
      MidwayMoves(s.at, t, Idle, h);
  }

  lemma NewName(names: seq<Topic>, channels: set<Topic>, name: Topic)
    requires NamesOk(names, channels) && name !in channels
    ensures NamesOk(names + [name], channels + {name})
  {
    assert forall i :: 0 <= i < |names| ==> names[i] in names;
  }

  lemma NewRelay(names: seq<Topic>, m: Memory, name: Topic)
    requires RelaysOk(names, m)
    ensures RelaysOk(names + [name], MemorySubscribe(m, name, |names|))
  {
  }

  lemma NewRelayId(names: seq<Topic>, transportSubs: map<Topic, SubId>, name: Topic)
    requires RelayIdsOk(names, transportSubs) && name !in names
    ensures RelayIdsOk(names + [name], transportSubs[name := |names|])
  {
    assert forall i :: 0 <= i < |names| ==> names[i] in names;
  }

  lemma OpeningKeepsWiring(q: Queue, name: Topic)
    requires WiringOk(q)
    ensures WiringOk(Opening(q, name))
  {
    if name !in q.channels {
      NewName(q.names, q.channels.Keys, name);
      assert Opening(q, name).channels.Keys == q.channels.Keys + {name};
      NewRelay(q.names, q.transport, name);
      NewRelayId(q.names, q.transportSubs, name);
      assert q.transport.tables.nextId == |q.names|;
      hide NamesOk, RelaysOk, RelayIdsOk;
    }
  }

  lemma SameWiring(q: Queue, q': Queue)
    requires WiringOk(q) && q'.channels.Keys == q.channels.Keys
    requires q'.names == q.names && q'.transportSubs == q.transportSubs && q'.transport == q.transport
    ensures WiringOk(q')
  {
    assert forall name :: name in q'.channels <==> name in q.channels;
  }

  lemma StepWiring(s: System, step: Step)
    requires WiringOk(s.q) && PhasesOk(s) && Enabled(s, step)
    ensures WiringOk(Next(s, step).q) && PhasesOk(Next(s, step))
  {
    hide WiringOk;
    match step
    case Topic(name) => OpeningKeepsWiring(s.q, name);
    case Open(t, h) => OpeningKeepsWiring(s.q, h.topic);
    case Attach(t) => SameWiring(s.q, Next(s, step).q);
    case Record(t) => SameWiring(s.q, Next(s, step).q);
    case Forget(t, id) => SameWiring(s.q, Next(s, step).q);
    case Detach(t) => SameWiring(s.q, Next(s, step).q);
  }

  lemma {:induction false} RunOk(s: System, steps: seq<Step>)
    requires Legal(s, steps) && Ok(s)
    ensures Ok(Run(s, steps))
    decreases |steps|
  {
    hide PhasesOk, WiringOk, Live, Midway, Attachments, Next, Enabled;
    if steps != [] {
      var s' := Next(s, steps[0]);
      StepWiring(s, steps[0]);
      forall h ensures Attachments(s'.q.channels, h) == |Live(s'.q.subIds, h)| + |Midway(s'.at, h)| {
        StepTable(s, steps[0], h);
      }
      RunOk(s', steps[1..]);
    }
  }

  lemma InitOk(threads: set<Thread>)
    ensures Ok(Init(threads))
  {
    var s := Init(threads);
    forall h ensures |Live(s.q.subIds, h)| == |Midway(s.at, h)| == 0 {
      assert Live(s.q.subIds, h) == {} && Midway(s.at, h) == {};
    }
  }

  /**
   In every interleaving: each channel holds each function once per live id (and once per thread that
   is midway through subscribing or unsubscribing it), each topic has its one transport subscription,
   and `unsubscribe` succeeds exactly for live ids, also where other threads come in between.
   */
  lemma TableMatchesChannels(threads: set<Thread>, steps: seq<Step>)
    requires Legal(Init(threads), steps)
    ensures var s := Run(Init(threads), steps);
            && (forall h :: Attachments(s.q.channels, h) == |Live(s.q.subIds, h)| + |Midway(s.at, h)|)
            && WiringOk(s.q)
            && (forall id :: Cancels(s.q, id) <==> id in s.q.subIds)
            && (forall t :: t in s.at && s.at[t].Leaving? ==> OnChannel(s.q, s.at[t].handler))
  {
    hide Run, Legal, Init;
    InitOk(threads);
    RunOk(Init(threads), steps);
    var s := Run(Init(threads), steps);
    forall id ensures Cancels(s.q, id) <==> id in s.q.subIds {
      if id in s.q.subIds {
        LiveIsAttached(s, id);
      }
    }
    forall t | t in s.at && s.at[t].Leaving? ensures OnChannel(s.q, s.at[t].handler) {
      MidwayIsAttached(s, t);
    }
  }

  // ---- Publishing ---------------------------------------------------------------------

  /** The broadcast dispatcher: in order, up to and including the first that raises. */
  function Fired(fns: seq<Fn>, raises: Fn -> bool): seq<Fn>
  {
    if fns == [] then [] else if raises(fns[0]) then [fns[0]] else [fns[0]] + Fired(fns[1..], raises)
  }

  /** One transport call fires the channel it was made for; an exception goes no further than the transport. */
  function Relayed(q: Queue, call: Call, raises: Fn -> bool): seq<Fn>
  {
    if call.callback < |q.names| && q.names[call.callback] in q.channels then Fired(q.channels[q.names[call.callback]], raises) else []
  }

  function Reached(q: Queue, calls: seq<Call>, raises: Fn -> bool): seq<Fn>
  {
    if calls == [] then [] else Relayed(q, calls[0], raises) + Reached(q, calls[1..], raises)
  }

  lemma ReachedUnfolds(q: Queue, calls: seq<Call>, i: nat, raises: Fn -> bool)
    requires i < |calls|
    ensures Reached(q, calls[i..], raises) == Relayed(q, calls[i], raises) + Reached(q, calls[i + 1..], raises)
  {
    assert calls[i..][1..] == calls[i + 1..];
  }

  lemma ReachedNothing(q: Queue, calls: seq<Call>, raises: Fn -> bool)
    requires calls == []
    ensures Reached(q, calls, raises) == []
  {
  }

  lemma {:induction false} SameRelays(q: Queue, q': Queue, calls: seq<Call>, raises: Fn -> bool)
    requires q'.names == q.names && q'.channels == q.channels
    ensures Reached(q', calls, raises) == Reached(q, calls, raises)
  {
    if calls != [] {
      SameRelays(q, q', calls[1..], raises);
    }
  }

  /** `publish`: the functions run, in order. */
  function Published(matches: Matcher, q: Queue, message: Message, raises: Fn -> bool): seq<Fn>
  {
    Reached(q, Matching(matches, q.transport.subTopic, message, q.transport.tables.subscribers), raises)
  }

  lemma {:induction false} FiredExactly(fns: seq<Fn>, raises: Fn -> bool)
    ensures Fired(fns, raises) == fns <==> forall i :: 0 <= i < |fns| - 1 ==> !raises(fns[i])
  {
    if fns != [] {
      var rest := fns[1..];
      FiredExactly(rest, raises);
      if !raises(fns[0]) {
        assert Fired(fns, raises)[1..] == Fired(rest, raises);
        assert fns == [fns[0]] + rest;
        if forall i :: 0 <= i < |rest| - 1 ==> !raises(rest[i]) {
          forall i | 0 <= i < |fns| - 1 ensures !raises(fns[i]) {
            assert i == 0 || fns[i] == rest[i - 1];
          }
        } else {
          var i :| 0 <= i < |rest| - 1 && raises(rest[i]);
          assert raises(fns[i + 1]);
        }
      } else if |fns| > 1 {
        assert raises(fns[0]);
      }
    }
  }

  /** Live ids of `fn` whose topic is one of `names` and matches. */
  ghost function LiveOn(matches: Matcher, subIds: map<HandlerId, Handler>, names: seq<Topic>, topic: Topic, fn: Fn): set<HandlerId>
  {
    set id | id in subIds && subIds[id].fn == fn && subIds[id].topic in names && matches(topic, subIds[id].topic)
  }

  ghost function MidwayOn(matches: Matcher, at: map<Thread, Phase>, names: seq<Topic>, topic: Topic, fn: Fn): set<Thread>
  {
    set t | t in at && IsMidway(at[t]) && at[t].handler.fn == fn && at[t].handler.topic in names && matches(topic, at[t].handler.topic)
  }

  lemma LiveOnSplits(matches: Matcher, subIds: map<HandlerId, Handler>, names: seq<Topic>, topic: Topic, fn: Fn)
    requires names != [] && names[0] !in names[1..]
    ensures |LiveOn(matches, subIds, names, topic, fn)|
         == |LiveOn(matches, subIds, names[1..], topic, fn)|
          + (if matches(topic, names[0]) then |Live(subIds, Handler(names[0], fn))| else 0)
  {
    var all, rest, first := LiveOn(matches, subIds, names, topic, fn), LiveOn(matches, subIds, names[1..], topic, fn), Live(subIds, Handler(names[0], fn));
    assert names == [names[0]] + names[1..];
    if matches(topic, names[0]) {
      assert all == rest + first && rest !! first;
    } else {
      assert all == rest;
    }
  }

  lemma MidwayOnSplits(matches: Matcher, at: map<Thread, Phase>, names: seq<Topic>, topic: Topic, fn: Fn)
    requires names != [] && names[0] !in names[1..]
    ensures |MidwayOn(matches, at, names, topic, fn)|
         == |MidwayOn(matches, at, names[1..], topic, fn)|
          + (if matches(topic, names[0]) then |Midway(at, Handler(names[0], fn))| else 0)
  {
    var all, rest, first := MidwayOn(matches, at, names, topic, fn), MidwayOn(matches, at, names[1..], topic, fn), Midway(at, Handler(names[0], fn));
    assert names == [names[0]] + names[1..];
    if matches(topic, names[0]) {
      assert all == rest + first && rest !! first;
    } else {
      assert all == rest;
    }
  }

  /** The part of a publish that the channels from the k-th on account for. */
  function PublishedFrom(matches: Matcher, q: Queue, message: Message, raises: Fn -> bool, k: nat): seq<Fn>
    requires k <= |q.transport.tables.subscribers|
  {
    Reached(q, Matching(matches, q.transport.subTopic, message, q.transport.tables.subscribers[k..]), raises)
  }

  lemma PublishedUnfolds(matches: Matcher, q: Queue, message: Message, raises: Fn -> bool, k: nat)
    requires WiringOk(q) && k < |q.names|
    ensures q.names[k] in q.channels
    ensures PublishedFrom(matches, q, message, raises, k)
         == (if matches(message.topic, q.names[k]) then Fired(q.channels[q.names[k]], raises) else [])
          + PublishedFrom(matches, q, message, raises, k + 1)
  {
    var items := q.transport.tables.subscribers;
    assert items[k..][0] == Item(k, k) && items[k..][1..] == items[k + 1..];
    assert q.names[k] in q.names;
    var rest := Matching(matches, q.transport.subTopic, message, items[k + 1..]);
    var calls := [Call(k, k, message)] + rest;
    assert calls[1..] == rest && [] + rest == rest;
    var all := Matching(matches, q.transport.subTopic, message, items[k..]);
    if matches(message.topic, q.names[k]) {
      assert all == calls;
    } else {
      assert all == rest;
    }
  }

  lemma {:induction false} CountsFrom(matches: Matcher, s: System, message: Message, raises: Fn -> bool, fn: Fn, k: nat)
    requires TableOk(s) && WiringOk(s.q) && k <= |s.q.names| && forall f :: !raises(f)
    ensures multiset(PublishedFrom(matches, s.q, message, raises, k))[fn]
         == |LiveOn(matches, s.q.subIds, s.q.names[k..], message.topic, fn)| + |MidwayOn(matches, s.at, s.q.names[k..], message.topic, fn)|
    decreases |s.q.names| - k
  {
    var names := s.q.names[k..];
    if k == |s.q.names| {
      assert LiveOn(matches, s.q.subIds, names, message.topic, fn) == {} && MidwayOn(matches, s.at, names, message.topic, fn) == {};
    } else {
      assert names[0] !in names[1..] && names[1..] == s.q.names[k + 1..];
      LiveOnSplits(matches, s.q.subIds, names, message.topic, fn);
      MidwayOnSplits(matches, s.at, names, message.topic, fn);
      PublishedUnfolds(matches, s.q, message, raises, k);
      assert Attachments(s.q.channels, Handler(names[0], fn)) == |Live(s.q.subIds, Handler(names[0], fn))| + |Midway(s.at, Handler(names[0], fn))|;
      hide WiringOk, TableOk, LiveOn, MidwayOn, Live, Midway, PublishedFrom;
      FiredExactly(s.q.channels[names[0]], raises);
      CountsFrom(matches, s, message, raises, fn, k + 1);
    }
  }

  /**
   With handlers that do not raise, one publish runs each function exactly once per live id on every
   matching topic (and once per thread midway through subscribing or unsubscribing it).
   */
  lemma PublishReachesEachLiveHandler(
    matches: Matcher, threads: set<Thread>, steps: seq<Step>, message: Message, raises: Fn -> bool, fn: Fn)
    requires Legal(Init(threads), steps) && forall f :: !raises(f)
    ensures var s := Run(Init(threads), steps);
            multiset(Published(matches, s.q, message, raises))[fn]
            == |set id | id in s.q.subIds && s.q.subIds[id].fn == fn && matches(message.topic, s.q.subIds[id].topic)|
             + |set t | t in s.at && IsMidway(s.at[t]) && s.at[t].handler.fn == fn && matches(message.topic, s.at[t].handler.topic)|
  {
    hide Run, Legal, Init, TableOk, WiringOk;
    InitOk(threads);
    RunOk(Init(threads), steps);
    var s := Run(Init(threads), steps);
    WholeQueue(matches, s, message, raises, fn);
    CountsFrom(matches, s, message, raises, fn, 0);
  }

  lemma HandlersAreNamed(s: System)
    requires TableOk(s) && WiringOk(s.q)
    ensures forall id :: id in s.q.subIds ==> s.q.subIds[id].topic in s.q.names
    ensures forall t :: t in s.at && IsMidway(s.at[t]) ==> s.at[t].handler.topic in s.q.names
  {
    forall id | id in s.q.subIds ensures s.q.subIds[id].topic in s.q.names {
      LiveIsAttached(s, id);
    }
    forall t | t in s.at && IsMidway(s.at[t]) ensures s.at[t].handler.topic in s.q.names {
      assert t in Midway(s.at, s.at[t].handler);
      assert Attachments(s.q.channels, s.at[t].handler) > 0;
    }
  }

  lemma WholeQueue(matches: Matcher, s: System, message: Message, raises: Fn -> bool, fn: Fn)
    requires TableOk(s) && WiringOk(s.q)
    ensures PublishedFrom(matches, s.q, message, raises, 0) == Published(matches, s.q, message, raises)
    ensures LiveOn(matches, s.q.subIds, s.q.names[0..], message.topic, fn)
         == set id | id in s.q.subIds && s.q.subIds[id].fn == fn && matches(message.topic, s.q.subIds[id].topic)
    ensures MidwayOn(matches, s.at, s.q.names[0..], message.topic, fn)
         == set t | t in s.at && IsMidway(s.at[t]) && s.at[t].handler.fn == fn && matches(message.topic, s.at[t].handler.topic)
  {
    HandlersAreNamed(s);
    hide TableOk, WiringOk;
    assert s.q.transport.tables.subscribers[0..] == s.q.transport.tables.subscribers;
    assert s.q.names[0..] == s.q.names;
  }

  // ---- Raising handlers ------------------------------------------------------------------

  function Never(): Fn -> bool
  {
    fn => false
  }

  /** No handler that raises stands before another one on a matching channel. */
  ghost predicate OnlyLastRaise(matches: Matcher, q: Queue, message: Message, raises: Fn -> bool, k: nat)
    requires WiringOk(q)
  {
    forall i, j :: k <= i < |q.names| && matches(message.topic, q.names[i]) && 0 <= j < |q.channels[q.names[i]]| - 1 ==>
      !raises(q.channels[q.names[i]][j])
  }

  lemma {:induction false} FiredShortens(fns: seq<Fn>, raises: Fn -> bool)
    ensures Fired(fns, raises) <= fns && Fired(fns, Never()) == fns
  {
    if fns != [] {
      FiredShortens(fns[1..], raises);
      assert fns == [fns[0]] + fns[1..];
    }
  }

  lemma {:induction false} ReachesAllFrom(matches: Matcher, q: Queue, message: Message, raises: Fn -> bool, k: nat)
    requires WiringOk(q) && k <= |q.names|
    ensures var with, without := PublishedFrom(matches, q, message, raises, k), PublishedFrom(matches, q, message, Never(), k);
            && |with| <= |without|
            && (OnlyLastRaise(matches, q, message, raises, k) ==> with == without)
            && (!OnlyLastRaise(matches, q, message, raises, k) ==> |with| < |without|)
    decreases |q.names| - k
  {
    if k < |q.names| {
      ReachesAllFrom(matches, q, message, raises, k + 1);
      PublishedUnfolds(matches, q, message, raises, k);
      PublishedUnfolds(matches, q, message, Never(), k);
      FiredShortens(q.channels[q.names[k]], raises);
      FiredExactly(q.channels[q.names[k]], raises);
      hide PublishedFrom;
    }
  }

  /** A publish reaches everybody exactly if, on each matching channel, nobody but the last handler raises. */
  lemma PublishReachesAllExactly(matches: Matcher, threads: set<Thread>, steps: seq<Step>, message: Message, raises: Fn -> bool)
    requires Legal(Init(threads), steps)
    ensures var q := Run(Init(threads), steps).q;
            && WiringOk(q)
            && (Published(matches, q, message, raises) == Published(matches, q, message, Never())
                <==> OnlyLastRaise(matches, q, message, raises, 0))
  {
    hide Run, Legal, Init, TableOk, WiringOk, OnlyLastRaise;
    InitOk(threads);
    RunOk(Init(threads), steps);
    var s := Run(Init(threads), steps);
    WholeQueue(matches, s, message, raises, 0);
    WholeQueue(matches, s, message, Never(), 0);
    ReachesAllFrom(matches, s.q, message, raises, 0);
  }
}
