/** A pub-sub channel and the topic-keyed queue of channels, as objects. */
module MessageQueueObject {
  import opened SubscriptionTables
  import opened MessageQueueModel
  import opened MemoryTransportObject

  class Eventful {
    var subscribers: seq<Fn>

    constructor ()
      ensures subscribers == []
    {
      subscribers := [];
    }

    /** `subscribe`: one more entry at the end, also for a function already there. */
    method Add(fn: Fn)
      modifies this
      ensures subscribers == old(subscribers) + [fn]
    {
      subscribers := subscribers + [fn];
    }

    /** `unsubscribe`: the first entry of `fn` goes. */
    method Drop(fn: Fn) returns (ok: bool)
      modifies this
      ensures subscribers == RemoveOne(old(subscribers), fn)
      ensures ok <==> fn in old(subscribers)
    {
      ok := fn in subscribers;
      subscribers := RemoveOne(subscribers, fn);
    }

    /** `fire` with the broadcast dispatcher: `called` in order, `raised` if the last one called raised. */
    method Fire(raises: Fn -> bool) returns (called: seq<Fn>, raised: bool)
      ensures called == Fired(subscribers, raises)
      ensures raised <==> exists i :: 0 <= i < |subscribers| && raises(subscribers[i])
    {
      called := [];
      for i := 0 to |subscribers|
        invariant forall j :: 0 <= j < i ==> !raises(subscribers[j])
        invariant Fired(subscribers, raises) == called + Fired(subscribers[i..], raises)
      {
        called := called + [subscribers[i]];
        assert subscribers[i..][1..] == subscribers[i + 1..];
        if raises(subscribers[i]) {
          return called, true;
        }
      }
      raised := false;
    }
  }

  class MessageQueue {
    const transport: MemoryTransport
    var names: seq<Topic>
    var topics: map<Topic, Eventful>
    var subIds: map<HandlerId, Handler>
    var transportSubs: map<Topic, SubId>
    var nextId: HandlerId

    /** Each topic has a channel of its own. */
    ghost predicate Valid()
      reads this
    {
      forall a, b :: a in topics && b in topics && a != b ==> topics[a] != topics[b]
    }

    ghost function Channels(): map<Topic, seq<Fn>>
      reads this, topics.Values
    {
      map name | name in topics :: topics[name].subscribers
    }

    ghost function View(): Queue
      reads this, topics.Values, transport
    {
      Queue(names, Channels(), subIds, transportSubs, transport.View(), nextId)
    }

    constructor (matches: Matcher)
      ensures Valid() && fresh(transport) && transport.matches == matches && View() == Init({}).q
    {
      transport := new MemoryTransport(matches);
      names, topics, subIds, transportSubs, nextId := [], map[], map[], map[], 0;
    }

    /** `topic`: the channel of `name`, created and wired to the transport on first use. */
    method GetTopic(name: Topic) returns (channel: Eventful)
      requires Valid()
      modifies this, transport
      ensures Valid() && View() == Opening(old(View()), name)
      ensures name in topics && channel == topics[name] && nextId == old(nextId)
      ensures topics == old(topics) || (name !in old(topics) && fresh(channel) && topics == old(topics)[name := channel])
    {
      if name in topics {
        return topics[name];
      }
      channel := new Eventful();
      topics := topics[name := channel];
      var id := transport.Register(name, |names|);
      names := names + [name];
      transportSubs := transportSubs[name := id];
    }

    /** `subscribe`. */
    method Subscribe(name: Topic, fn: Fn) returns (id: HandlerId)
      requires Valid()
      modifies this, transport, topics.Values
      ensures Valid() && id == old(nextId)
      ensures var h := Handler(name, fn); View() == Recording(Attaching(Opening(old(View()), name), h), h)
      ensures id in subIds && subIds[id] == Handler(name, fn) && name in topics && fn in topics[name].subscribers
    {
      hide Opening, Attaching, Recording;
      var channel := GetTopic(name);
      Attach(Handler(name, fn));
      id := Enter(Handler(name, fn));
    }

    method Attach(h: Handler)
      requires Valid() && h.topic in topics
      modifies topics[h.topic]
      ensures View() == Attaching(old(View()), h) && h.fn in topics[h.topic].subscribers
    {
      topics[h.topic].Add(h.fn);
      assert Channels() == old(Channels())[h.topic := old(Channels())[h.topic] + [h.fn]];
    }

    method Enter(h: Handler) returns (id: HandlerId)
      modifies this`subIds, this`nextId
      ensures View() == Recording(old(View()), h) && id == old(nextId) && id in subIds && subIds[id] == h
    {
      id := nextId;
      nextId := nextId + 1;
      subIds := subIds[id := h];
    }

    /** `unsubscribe`. */
    method Unsubscribe(id: HandlerId) returns (ok: bool)
      requires Valid()
      modifies this, topics.Values
      ensures Valid() && View() == Cancelling(old(View()), id)
      ensures ok <==> Cancels(old(View()), id)
      ensures id !in subIds
    {
      if id !in subIds {
        return false;
      }
      var h := subIds[id];
      subIds := subIds - {id};
      if h.topic !in topics {
        return false;
      }
      ok := topics[h.topic].Drop(h.fn);
      assert Channels() == old(Channels())[h.topic := RemoveOne(old(Channels())[h.topic], h.fn)];
    }

    /** `publish` with handlers that leave the queue alone: returns the functions run, in order. */
    method Publish(message: Message, raises: Fn -> bool) returns (called: seq<Fn>)
      requires Valid()
      modifies transport
      ensures called == Published(transport.matches, old(View()), message, raises)
      ensures transport.subTopic == old(transport.subTopic) && transport.subscribers == old(transport.subscribers)
    {
      hide Reached, Matching;
      var calls := Notify(message);
      called := Relay(calls, raises);
      SameRelays(old(View()), View(), calls, raises);
    }

    /** The transport's part: the callbacks it invokes, in order. */
    method Notify(message: Message) returns (calls: seq<Call>)
      modifies transport
      ensures calls == Matching(transport.matches, old(transport.subTopic), message, old(transport.subscribers))
      ensures transport.subTopic == old(transport.subTopic) && transport.subscribers == old(transport.subscribers)
    {
      var before := |transport.calls|;
      QuietSend(transport.matches, transport.View(), message, transport.subscribers);
      hide MemoryDeliver, Matching;
      transport.Publish(message, Quiet);
      calls := transport.calls[before..];
    }

    /** What the callbacks do: each fires the channel it was made for. */
    method Relay(calls: seq<Call>, raises: Fn -> bool) returns (called: seq<Fn>)
      ensures called == Reached(View(), calls, raises)
    {
      hide Reached, Relayed;
      ghost var q := View();
      called := [];
      ReachedNothing(q, calls[|calls|..], raises);
      for i := 0 to |calls|
        invariant called + Reached(q, calls[i..], raises) == Reached(q, calls, raises)
      {
        ReachedUnfolds(q, calls, i, raises);
        var fired := RelayOne(calls[i], raises);
        called := called + fired;
      }
    }

    method RelayOne(call: Call, raises: Fn -> bool) returns (called: seq<Fn>)
      ensures called == Relayed(View(), call, raises)
    {
      if call.callback < |names| && names[call.callback] in topics {
        var raised;
        called, raised := topics[names[call.callback]].Fire(raises);
      } else {
        called := [];
      }
    }
  }
}
