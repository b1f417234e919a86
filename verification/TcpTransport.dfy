/** The subscriber side of the TCP transport: every delivery scans the topic table for each subscriber. */
module TcpTransportObject {
  import opened Options
  import opened SubscriptionTables

  class TcpTransport {
    const matches: Matcher
    var subscribers: seq<Item>
    var topicSubs: seq<Bucket>
    var nextId: SubId
    var calls: seq<Call>

    ghost function View(): Tables
      reads this
    {
      Tables(subscribers, topicSubs, nextId, calls)
    }

    constructor (matches: Matcher)
      ensures this.matches == matches && View() == NO_TABLES
    {
      this.matches, subscribers, topicSubs, nextId, calls := matches, [], [], 0, [];
    }

    /** `subscribe`. */
    method Register(pattern: Topic, callback: Callback) returns (id: SubId)
      modifies this
      ensures View() == TcpSubscribe(old(View()), pattern, callback) && id == old(nextId)
    {
      id := nextId;
      nextId := nextId + 1;
      subscribers := subscribers + [Item(id, callback)];
      topicSubs := Append(topicSubs, pattern, id);
    }

    /** `unsubscribe`: the first list that holds the id loses it. */
    method Cancel(id: SubId) returns (ok: bool)
      modifies this
      ensures View() == TcpUnsubscribe(old(View()), id) && (ok <==> Has(old(subscribers), id))
    {
      if !Has(subscribers, id) {
        return false;
      }
      subscribers := Delete(subscribers, id);
      topicSubs := Unlist(topicSubs, id);
      ok := true;
    }

    /** The loop of `unsubscribe`. */
    static method Unlist(buckets: seq<Bucket>, id: SubId) returns (rest: seq<Bucket>)
      ensures rest == RemoveFirst(buckets, id)
    {
      hide RemoveFirst, Without;
      RemoveFromNone(buckets[|buckets|..], id);
      for i := 0 to |buckets|
        invariant RemoveFirst(buckets, id) == buckets[..i] + RemoveFirst(buckets[i..], id)
      {
        RemoveFirstUnfolds(buckets, i, id);
        if id in buckets[i].subs {
          return buckets[..i] + ([Bucket(buckets[i].topic, Without(buckets[i].subs, id))] + buckets[i + 1..]);
        }
        assert buckets[..i] + ([buckets[i]] + RemoveFirst(buckets[i + 1..], id)) == buckets[..i + 1] + RemoveFirst(buckets[i + 1..], id);
      }
      rest := buckets;
    }

    /** The inner loop of `_dispatch`. */
    method FindTopic(id: SubId) returns (topic: Option<Topic>)
      ensures topic == Scan(topicSubs, id)
    {
      for i := 0 to |topicSubs|
        invariant Scan(topicSubs, id) == Scan(topicSubs[i..], id)
      {
        assert topicSubs[i..][1..] == topicSubs[i + 1..];
        if id in topicSubs[i].subs {
          return Some(topicSubs[i].topic);
        }
      }
      topic := None;
    }

    /** `_dispatch`. */
    method Deliver(message: Message, reactions: Reactions)
      modifies this
      ensures View() == TcpDo(matches, old(View()), Send(message, reactions))
      decreases reactions
    {
      var snapshot, todo := subscribers, reactions;
      for i := 0 to |snapshot|
        invariant todo == reactions || todo < reactions
        invariant TcpDeliver(matches, View(), message, snapshot[i..], todo)
               == TcpDeliver(matches, old(View()), message, snapshot, reactions)
      {
        var item := snapshot[i];
        assert snapshot[i..][1..] == snapshot[i + 1..];
        var topic := FindTopic(item.id);
        if topic.Some? && topic.value != "" && matches(message.topic, topic.value) {
          calls := calls + [Call(item.id, item.callback, message)];
          match todo
          case Quiet =>
          case React(script, rest) =>
            Perform(script);
            todo := rest;
        }
      }
    }

    method Perform(p: Script)
      modifies this
      ensures View() == TcpPerform(matches, old(View()), p)
      decreases p
    {
      match p
      case Done =>
      case Then(a, rest) =>
        match a {
          case Subscribe(pattern, callback) => var _ := Register(pattern, callback);
          case Unsubscribe(id) => var _ := Cancel(id);
          case Send(message, reactions) => Deliver(message, reactions);
        }
        Perform(rest);
    }
  }
}
