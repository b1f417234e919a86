/** The in-memory transport as an object; callbacks are played from a script. */
module MemoryTransportObject {
  import opened SubscriptionTables

  class MemoryTransport {
    const matches: Matcher
    var subscribers: seq<Item>
    var topicSubs: seq<Bucket>
    var subTopic: map<SubId, Topic>
    var nextId: SubId
    var calls: seq<Call>

    ghost function View(): Memory
      reads this
    {
      Memory(Tables(subscribers, topicSubs, nextId, calls), subTopic)
    }

    constructor (matches: Matcher)
      ensures this.matches == matches && View() == EMPTY
    {
      this.matches, subscribers, topicSubs, subTopic, nextId, calls := matches, [], [], map[], 0, [];
    }

    /** `subscribe`: returns an id never used before. */
    method Register(pattern: Topic, callback: Callback) returns (id: SubId)
      modifies this
      ensures View() == MemorySubscribe(old(View()), pattern, callback) && id == old(nextId)
    {
      id := nextId;
      nextId := nextId + 1;
      subscribers := subscribers + [Item(id, callback)];
      topicSubs := Append(topicSubs, pattern, id);
      subTopic := subTopic[id := pattern];
    }

    /** `unsubscribe`. */
    method Cancel(id: SubId) returns (ok: bool)
      modifies this
      ensures View() == MemoryUnsubscribe(old(View()), id) && (ok <==> Has(old(subscribers), id))
    {
      if !Has(subscribers, id) {
        return false;
      }
      subscribers := Delete(subscribers, id);
      if id in subTopic {
        var topic := subTopic[id];
        subTopic := subTopic - {id};
        topicSubs := RemoveAt(topicSubs, topic, id);
      }
      ok := true;
    }

    /** The subscriber loop of `send`, over a snapshot. */
    method Publish(message: Message, reactions: Reactions)
      modifies this
      ensures View() == MemoryDo(matches, old(View()), Send(message, reactions))
      decreases reactions
    {
      var snapshot, todo := subscribers, reactions;
      for i := 0 to |snapshot|
        invariant todo == reactions || todo < reactions
        invariant MemoryDeliver(matches, View(), message, snapshot[i..], todo)
               == MemoryDeliver(matches, old(View()), message, snapshot, reactions)
      {
        var item := snapshot[i];
        assert snapshot[i..][1..] == snapshot[i + 1..];
        if item.id in subTopic && matches(message.topic, subTopic[item.id]) {
          calls := calls + [Call(item.id, item.callback, message)];
          match todo
          case Quiet =>
          case React(script, rest) =>
            Perform(script);
            todo := rest;
        }
      }
    }

    method Perform(p: Script)
      modifies this
      ensures View() == MemoryPerform(matches, old(View()), p)
      decreases p
    {
      match p
      case Done =>
      case Then(a, rest) =>
        match a {
          case Subscribe(pattern, callback) => var _ := Register(pattern, callback);
          case Unsubscribe(id) => var _ := Cancel(id);
          case Send(message, reactions) => Publish(message, reactions);
        }
        Perform(rest);
    }
  }
}
