/**
 The subscriber dictionaries of the in-memory transport, which looks a subscription's pattern up in
 a reverse index, and of the TCP transport, which scans for it.  The topic matcher is a parameter.
 */
module SubscriptionTables {
  import opened Options

  type SubId = nat
  type Topic = string
  type Callback = nat
  type Matcher = (Topic, Topic) -> bool  // topic, pattern

  datatype Message = Message(topic: Topic, payload: int)
  datatype Item = Item(id: SubId, callback: Callback)
  datatype Bucket = Bucket(topic: Topic, subs: seq<SubId>)
  datatype Call = Call(id: SubId, callback: Callback, message: Message)

  /** Both dictionaries in insertion order, the next unused id, and every callback invocation so far. */
  datatype Tables = Tables(subscribers: seq<Item>, topicSubs: seq<Bucket>, nextId: SubId, calls: seq<Call>)

  datatype Memory = Memory(tables: Tables, subTopic: map<SubId, Topic>)

  /**
   What one thread does.  The lock is re-entrant, so a callback may itself subscribe, unsubscribe
   and send: the n-th callback that a send invokes performs the n-th reaction, then returns or raises.
   */
  datatype Act = Subscribe(pattern: Topic, callback: Callback) | Unsubscribe(id: SubId) | Send(message: Message, reactions: Reactions)
  datatype Script = Done | Then(act: Act, rest: Script)
  datatype Reactions = Quiet | React(script: Script, rest: Reactions)

  // ---- Dictionary operations --------------------------------------------------------

  predicate Has(items: seq<Item>, id: SubId)
  {
    exists i :: 0 <= i < |items| && items[i].id == id
  }

  function Delete(items: seq<Item>, id: SubId): seq<Item>
  {
    if items == [] then [] else if items[0].id == id then items[1..] else [items[0]] + Delete(items[1..], id)
  }

  /** `list.remove` of an element that may be absent. */
  function Without(subs: seq<SubId>, id: SubId): seq<SubId>
  {
    if subs == [] then [] else if subs[0] == id then subs[1..] else [subs[0]] + Without(subs[1..], id)
  }

  /** `topic_subs[topic].append(id)` on a defaultdict. */
  function Append(buckets: seq<Bucket>, topic: Topic, id: SubId): seq<Bucket>
  {
    if buckets == [] then [Bucket(topic, [id])]
    else if buckets[0].topic == topic then [Bucket(topic, buckets[0].subs + [id])] + buckets[1..]
    else [buckets[0]] + Append(buckets[1..], topic, id)
  }

  function SubsOf(buckets: seq<Bucket>, topic: Topic): seq<SubId>
  {
    if buckets == [] then [] else if buckets[0].topic == topic then buckets[0].subs else SubsOf(buckets[1..], topic)
  }

  /** Removal through the reverse index: only the bucket of `topic` is looked at. */
  function RemoveAt(buckets: seq<Bucket>, topic: Topic, id: SubId): seq<Bucket>
  {
    if buckets == [] then []
    else if buckets[0].topic == topic then [Bucket(topic, Without(buckets[0].subs, id))] + buckets[1..]
    else [buckets[0]] + RemoveAt(buckets[1..], topic, id)
  }

  /** Removal by scanning: the first bucket that lists `id`. */
  function RemoveFirst(buckets: seq<Bucket>, id: SubId): seq<Bucket>
  {
    if buckets == [] then []
    else if id in buckets[0].subs then [Bucket(buckets[0].topic, Without(buckets[0].subs, id))] + buckets[1..]
    else [buckets[0]] + RemoveFirst(buckets[1..], id)
  }

  lemma RemoveFirstUnfolds(buckets: seq<Bucket>, i: nat, id: SubId)
    requires i < |buckets|
    ensures RemoveFirst(buckets[i..], id)
         == if id in buckets[i].subs then [Bucket(buckets[i].topic, Without(buckets[i].subs, id))] + buckets[i + 1..]
            else [buckets[i]] + RemoveFirst(buckets[i + 1..], id)
  {
    assert buckets[i..][1..] == buckets[i + 1..];
  }

  lemma RemoveFromNone(buckets: seq<Bucket>, id: SubId)
    requires buckets == []
    ensures RemoveFirst(buckets, id) == []
  {
  }

  /** The topic of the first bucket that lists `id`. */
  function Scan(buckets: seq<Bucket>, id: SubId): Option<Topic>
  {
    if buckets == [] then None else if id in buckets[0].subs then Some(buckets[0].topic) else Scan(buckets[1..], id)
  }

  function Lookup(subTopic: map<SubId, Topic>, id: SubId): Option<Topic>
  {
    if id in subTopic then Some(subTopic[id]) else None
  }

  // ---- The in-memory transport -------------------------------------------------------

  function MemorySubscribe(m: Memory, pattern: Topic, callback: Callback): Memory
  {
    var t := m.tables;
    Memory(TcpSubscribe(t, pattern, callback), m.subTopic[t.nextId := pattern])
  }

  function MemoryUnsubscribe(m: Memory, id: SubId): Memory
  {
    var t := m.tables;
    if !Has(t.subscribers, id) then m
    else
      Memory(t.(subscribers := Delete(t.subscribers, id),
                topicSubs := if id in m.subTopic then RemoveAt(t.topicSubs, m.subTopic[id], id) else t.topicSubs),
             m.subTopic - {id})
  }

  function Invoked(t: Tables, item: Item, message: Message): Tables
  {
    t.(calls := t.calls + [Call(item.id, item.callback, message)])
  }

  function MemoryPerform(matches: Matcher, m: Memory, p: Script): Memory
    decreases p
  {
    match p
    case Done => m
    case Then(a, rest) => MemoryPerform(matches, MemoryDo(matches, m, a), rest)
  }

  function MemoryDo(matches: Matcher, m: Memory, a: Act): Memory
    decreases a
  {
    match a
    case Subscribe(pattern, callback) => MemorySubscribe(m, pattern, callback)
    case Unsubscribe(id) => MemoryUnsubscribe(m, id)
    case Send(message, reactions) => MemoryDeliver(matches, m, message, m.tables.subscribers, reactions)
  }

  predicate MemoryWants(matches: Matcher, m: Memory, id: SubId, topic: Topic)
  {
    id in m.subTopic && matches(topic, m.subTopic[id])
  }

  /** `left` is the rest of the snapshot that the send took of its subscribers. */
  function MemoryDeliver(matches: Matcher, m: Memory, message: Message, left: seq<Item>, reactions: Reactions): Memory
    decreases reactions, |left|
  {
    if left == [] then m
    else if !MemoryWants(matches, m, left[0].id, message.topic) then MemoryDeliver(matches, m, message, left[1..], reactions)
    else
      var called := m.(tables := Invoked(m.tables, left[0], message));
      match reactions
      case Quiet => MemoryDeliver(matches, called, message, left[1..], Quiet)
      case React(script, rest) => MemoryDeliver(matches, MemoryPerform(matches, called, script), message, left[1..], rest)
  }

  // ---- The TCP transport ---------------------------------------------------------------

  function TcpSubscribe(t: Tables, pattern: Topic, callback: Callback): Tables
  {
    Tables(t.subscribers + [Item(t.nextId, callback)], Append(t.topicSubs, pattern, t.nextId), t.nextId + 1, t.calls)
  }

  function TcpUnsubscribe(t: Tables, id: SubId): Tables
  {
    if !Has(t.subscribers, id) then t
    else t.(subscribers := Delete(t.subscribers, id), topicSubs := RemoveFirst(t.topicSubs, id))
  }

  function TcpPerform(matches: Matcher, t: Tables, p: Script): Tables
    decreases p
  {
    match p
    case Done => t
    case Then(a, rest) => TcpPerform(matches, TcpDo(matches, t, a), rest)
  }

  function TcpDo(matches: Matcher, t: Tables, a: Act): Tables
    decreases a
  {
    match a
    case Subscribe(pattern, callback) => TcpSubscribe(t, pattern, callback)
    case Unsubscribe(id) => TcpUnsubscribe(t, id)
    case Send(message, reactions) => TcpDeliver(matches, t, message, t.subscribers, reactions)
  }

  /** The empty pattern is falsy, so it counts as no pattern. */
  predicate TcpWants(matches: Matcher, t: Tables, id: SubId, topic: Topic)
  {
    var pattern := Scan(t.topicSubs, id);
    pattern.Some? && pattern.value != "" && matches(topic, pattern.value)
  }

  function TcpDeliver(matches: Matcher, t: Tables, message: Message, left: seq<Item>, reactions: Reactions): Tables
    decreases reactions, |left|
  {
    if left == [] then t
    else if !TcpWants(matches, t, left[0].id, message.topic) then TcpDeliver(matches, t, message, left[1..], reactions)
    else
      var called := Invoked(t, left[0], message);
      match reactions
      case Quiet => TcpDeliver(matches, called, message, left[1..], Quiet)
      case React(script, rest) => TcpDeliver(matches, TcpPerform(matches, called, script), message, left[1..], rest)
  }

  const NO_TABLES := Tables([], [], 0, [])
  const EMPTY := Memory(NO_TABLES, map[])

  // ---- The three maps are mutually inverse ----------------------------------------------

  /** Ids rise: subscriptions stand in the order they were made. */
  ghost predicate Ascending(items: seq<Item>)
  {
    forall i, j :: 0 <= i < j < |items| ==> items[i].id < items[j].id
  }

  ghost predicate DistinctTopics(buckets: seq<Bucket>)
  {
    forall i, j :: 0 <= i < j < |buckets| ==> buckets[i].topic != buckets[j].topic
  }

  ghost predicate NoRepeats(subs: seq<SubId>)
  {
    forall i, j :: 0 <= i < j < |subs| ==> subs[i] != subs[j]
  }

  ghost predicate SubscribersOk(items: seq<Item>, subTopic: map<SubId, Topic>, nextId: SubId)
  {
    && Ascending(items)
    && (forall id :: Has(items, id) <==> id in subTopic)
    && (forall id :: id in subTopic ==> id < nextId)
  }

  ghost predicate BucketOk(buckets: seq<Bucket>, subTopic: map<SubId, Topic>, topic: Topic)
  {
    && NoRepeats(SubsOf(buckets, topic))
    && forall id :: id in SubsOf(buckets, topic) <==> id in subTopic && subTopic[id] == topic
  }

  ghost predicate BucketsOk(buckets: seq<Bucket>, subTopic: map<SubId, Topic>)
  {
    DistinctTopics(buckets) && forall topic :: BucketOk(buckets, subTopic, topic)
  }

  ghost predicate Inverse(m: Memory)
  {
    && SubscribersOk(m.tables.subscribers, m.subTopic, m.tables.nextId)
    && BucketsOk(m.tables.topicSubs, m.subTopic)
  }

  lemma {:induction false} DeleteDeletes(items: seq<Item>, id: SubId)
    requires Ascending(items)
    ensures Ascending(Delete(items, id))
    ensures forall x :: Has(Delete(items, id), x) <==> Has(items, x) && x != id
  {
    if items != [] {
      var rest := items[1..];
      assert forall x :: Has(items, x) <==> x == items[0].id || Has(rest, x) by {
        HasUnfolds(items);
      }
      DeleteDeletes(rest, id);
      if items[0].id == id {
        assert !Has(rest, id);
      } else {
        HasUnfolds([items[0]] + Delete(rest, id));
        assert forall x :: Has(rest, x) ==> items[0].id < x;
        PrependAscends(items[0], Delete(rest, id));
      }
    }
  }

  lemma HasUnfolds(items: seq<Item>)
    requires items != []
    ensures forall x :: Has(items, x) <==> x == items[0].id || Has(items[1..], x)
  {
    forall x | Has(items, x) ensures x == items[0].id || Has(items[1..], x) {
      var i :| 0 <= i < |items| && items[i].id == x;
      assert i > 0 ==> items[1..][i - 1].id == x;
    }
    forall x | x == items[0].id || Has(items[1..], x) ensures Has(items, x) {
      if Has(items[1..], x) {
        var i :| 0 <= i < |items[1..]| && items[1..][i].id == x;
        assert items[i + 1].id == x;
      }
    }
  }

  lemma PrependAscends(item: Item, rest: seq<Item>)
    requires Ascending(rest) && forall x :: Has(rest, x) ==> item.id < x
    ensures Ascending([item] + rest)
  {
    forall i | 0 <= i < |rest| ensures item.id < rest[i].id {
      assert Has(rest, rest[i].id);
    }
  }

  lemma {:induction false} WithoutRemoves(subs: seq<SubId>, id: SubId)
    requires NoRepeats(subs)
    ensures NoRepeats(Without(subs, id))
    ensures forall x :: x in Without(subs, id) <==> x in subs && x != id
  {
    if subs != [] {
      var rest := subs[1..];
      assert subs == [subs[0]] + rest && subs[0] !in rest;
      WithoutRemoves(rest, id);
      assert NoRepeats([subs[0]] + Without(rest, id));
    }
  }

  lemma {:induction false} AppendAppends(buckets: seq<Bucket>, topic: Topic, id: SubId, u: Topic)
    ensures SubsOf(Append(buckets, topic, id), u) == SubsOf(buckets, u) + (if u == topic then [id] else [])
  {
    if buckets != [] {
      AppendAppends(buckets[1..], topic, id, u);
    }
  }

  lemma {:induction false} RemoveAtRemoves(buckets: seq<Bucket>, topic: Topic, id: SubId, u: Topic)
    ensures SubsOf(RemoveAt(buckets, topic, id), u) == if u == topic then Without(SubsOf(buckets, u), id) else SubsOf(buckets, u)
  {
    if buckets != [] {
      RemoveAtRemoves(buckets[1..], topic, id, u);
    }
  }

  ghost predicate HasTopic(buckets: seq<Bucket>, topic: Topic)
  {
    exists i :: 0 <= i < |buckets| && buckets[i].topic == topic
  }

  lemma PrependHas(b: Bucket, rest: seq<Bucket>)
    ensures forall u :: HasTopic([b] + rest, u) <==> u == b.topic || HasTopic(rest, u)
  {
    var all := [b] + rest;
    assert all[0] == b;
    forall u | HasTopic(rest, u) ensures HasTopic(all, u) {
      var i :| 0 <= i < |rest| && rest[i].topic == u;
      assert all[i + 1].topic == u;
    }
  }

  lemma PrependTopic(b: Bucket, rest: seq<Bucket>)
    ensures DistinctTopics([b] + rest) <==> DistinctTopics(rest) && !HasTopic(rest, b.topic)
    ensures forall u :: HasTopic([b] + rest, u) <==> u == b.topic || HasTopic(rest, u)
  {
    PrependHas(b, rest);
    var all := [b] + rest;
    if DistinctTopics(all) {
      forall i, j | 0 <= i < j < |rest| ensures rest[i].topic != rest[j].topic {
        assert all[i + 1].topic != all[j + 1].topic;
      }
      forall i | 0 <= i < |rest| ensures rest[i].topic != b.topic {
        assert all[0].topic != all[i + 1].topic;
      }
    }
  }

  lemma {:induction false} AppendTopics(buckets: seq<Bucket>, topic: Topic, id: SubId)
    requires DistinctTopics(buckets)
    ensures DistinctTopics(Append(buckets, topic, id))
    ensures forall u :: HasTopic(Append(buckets, topic, id), u) <==> HasTopic(buckets, u) || u == topic
  {
    if buckets == [] {
      PrependTopic(Bucket(topic, [id]), []);
    } else {
      assert buckets == [buckets[0]] + buckets[1..];
      PrependTopic(buckets[0], buckets[1..]);
      if buckets[0].topic == topic {
        PrependTopic(Bucket(topic, buckets[0].subs + [id]), buckets[1..]);
      } else {
        AppendTopics(buckets[1..], topic, id);
        PrependTopic(buckets[0], Append(buckets[1..], topic, id));
      }
    }
  }

  lemma {:induction false} RemoveAtTopics(buckets: seq<Bucket>, topic: Topic, id: SubId)
    ensures |RemoveAt(buckets, topic, id)| == |buckets|
    ensures forall i :: 0 <= i < |buckets| ==> RemoveAt(buckets, topic, id)[i].topic == buckets[i].topic
  {
    if buckets != [] {
      RemoveAtTopics(buckets[1..], topic, id);
    }
  }

  lemma {:induction false} ScanFinds(buckets: seq<Bucket>, id: SubId)
    requires DistinctTopics(buckets)
    ensures Scan(buckets, id).Some? ==> HasTopic(buckets, Scan(buckets, id).value) && id in SubsOf(buckets, Scan(buckets, id).value)
    ensures Scan(buckets, id).None? ==> forall topic :: id !in SubsOf(buckets, topic)
  {
    if buckets != [] {
      assert buckets == [buckets[0]] + buckets[1..];
      PrependTopic(buckets[0], buckets[1..]);
      ScanFinds(buckets[1..], id);
    }
  }

  lemma ScanIsLookup(buckets: seq<Bucket>, subTopic: map<SubId, Topic>, id: SubId)
    requires BucketsOk(buckets, subTopic)
    ensures Scan(buckets, id) == Lookup(subTopic, id)
  {
    ScanFinds(buckets, id);
    var topic := if Scan(buckets, id).Some? then Scan(buckets, id).value else if id in subTopic then subTopic[id] else "";
    assert BucketOk(buckets, subTopic, topic);
  }

  lemma {:induction false} RemoveFirstIsRemoveAt(buckets: seq<Bucket>, id: SubId)
    requires DistinctTopics(buckets)
    ensures RemoveFirst(buckets, id)
         == match Scan(buckets, id) case None => buckets case Some(topic) => RemoveAt(buckets, topic, id)
  {
    if buckets != [] {
      assert buckets == [buckets[0]] + buckets[1..];
      PrependTopic(buckets[0], buckets[1..]);
      RemoveFirstIsRemoveAt(buckets[1..], id);
      ScanFinds(buckets[1..], id);
    }
  }

  // ---- Every operation keeps them inverse --------------------------------------------------

  lemma SubscribeKeepsInverse(m: Memory, pattern: Topic, callback: Callback)
    requires Inverse(m)
    ensures Inverse(MemorySubscribe(m, pattern, callback))
  {
    var m' := MemorySubscribe(m, pattern, callback);
    SubscribedItems(m.tables.subscribers, m.subTopic, m.tables.nextId, pattern, callback);
    SubscribedBuckets(m.tables.topicSubs, m.subTopic, m.tables.nextId, pattern);
  }

  lemma SubscribedItems(items: seq<Item>, subTopic: map<SubId, Topic>, id: SubId, pattern: Topic, callback: Callback)
    requires SubscribersOk(items, subTopic, id)
    ensures SubscribersOk(items + [Item(id, callback)], subTopic[id := pattern], id + 1)
  {
    var items' := items + [Item(id, callback)];
    forall x ensures Has(items', x) <==> Has(items, x) || x == id {
      assert items'[|items|].id == id;
      if Has(items, x) {
        var i :| 0 <= i < |items| && items[i].id == x;
        assert items'[i].id == x;
      }
    }
    forall i, j | 0 <= i < j < |items'| ensures items'[i].id < items'[j].id {
      assert Has(items, items[i].id);
    }
  }

  lemma SubscribedBuckets(buckets: seq<Bucket>, subTopic: map<SubId, Topic>, id: SubId, pattern: Topic)
    requires BucketsOk(buckets, subTopic) && id !in subTopic
    ensures BucketsOk(Append(buckets, pattern, id), subTopic[id := pattern])
  {
    AppendTopics(buckets, pattern, id);
    var subTopic' := subTopic[id := pattern];
    forall u ensures BucketOk(Append(buckets, pattern, id), subTopic', u) {
      assert BucketOk(buckets, subTopic, u);
      AppendAppends(buckets, pattern, id, u);
    }
  }

  lemma UnsubscribedBuckets(buckets: seq<Bucket>, subTopic: map<SubId, Topic>, id: SubId)
    requires BucketsOk(buckets, subTopic) && id in subTopic
    ensures BucketsOk(RemoveAt(buckets, subTopic[id], id), subTopic - {id})
  {
    RemoveAtTopics(buckets, subTopic[id], id);
    forall u ensures BucketOk(RemoveAt(buckets, subTopic[id], id), subTopic - {id}, u) {
      assert BucketOk(buckets, subTopic, u);
      RemoveAtRemoves(buckets, subTopic[id], id, u);
      WithoutRemoves(SubsOf(buckets, u), id);
    }
  }

  lemma UnsubscribeKeepsInverse(m: Memory, id: SubId)
    requires Inverse(m)
    ensures Inverse(MemoryUnsubscribe(m, id))
  {
    if Has(m.tables.subscribers, id) {
      DeleteDeletes(m.tables.subscribers, id);
      UnsubscribedBuckets(m.tables.topicSubs, m.subTopic, id);
    }
  }

  /** A new subscription is the last in line, under an id nobody has, with its own pattern and callback; the others are as before. */
  lemma SubscribeStarts(m: Memory, pattern: Topic, callback: Callback, other: SubId)
    requires Inverse(m)
    ensures var id, m' := m.tables.nextId, MemorySubscribe(m, pattern, callback);
            && !Has(m.tables.subscribers, id)
            && m'.tables.subscribers == m.tables.subscribers + [Item(id, callback)]
            && Scan(m'.tables.topicSubs, id) == Some(pattern) == Lookup(m'.subTopic, id)
            && (other != id ==> Scan(m'.tables.topicSubs, other) == Lookup(m.subTopic, other))
  {
    var id, m' := m.tables.nextId, MemorySubscribe(m, pattern, callback);
    assert id !in m.subTopic;
    SubscribeKeepsInverse(m, pattern, callback);
    ScanIsLookup(m'.tables.topicSubs, m'.subTopic, id);
    ScanIsLookup(m'.tables.topicSubs, m'.subTopic, other);
    hide Inverse, Scan, Append, BucketsOk;
  }

  /** A cancelled subscription is in none of the maps, and no other is touched. */
  lemma UnsubscribeEnds(m: Memory, id: SubId, other: SubId)
    requires Inverse(m)
    ensures var m' := MemoryUnsubscribe(m, id);
            && !Has(m'.tables.subscribers, id) && Lookup(m'.subTopic, id) == None == Scan(m'.tables.topicSubs, id)
            && (other != id ==>
                  && (Has(m'.tables.subscribers, other) <==> Has(m.tables.subscribers, other))
                  && Scan(m'.tables.topicSubs, other) == Lookup(m.subTopic, other) == Lookup(m'.subTopic, other))
  {
    var m' := MemoryUnsubscribe(m, id);
    UnsubscribeKeepsInverse(m, id);
    DeleteDeletes(m.tables.subscribers, id);
    ScanIsLookup(m'.tables.topicSubs, m'.subTopic, id);
    ScanIsLookup(m'.tables.topicSubs, m'.subTopic, other);
    hide BucketsOk, Scan, Delete, RemoveAt, Ascending;
  }

  lemma UnsubscribeAgrees(m: Memory, id: SubId)
    requires Inverse(m)
    ensures MemoryUnsubscribe(m, id).tables == TcpUnsubscribe(m.tables, id)
  {
    ScanIsLookup(m.tables.topicSubs, m.subTopic, id);
    RemoveFirstIsRemoveAt(m.tables.topicSubs, id);
  }

  // ---- Whole runs ------------------------------------------------------------------------

  predicate NonEmptyPatterns(p: Script)
  {
    p.Then? ==> NonEmptyAct(p.act) && NonEmptyPatterns(p.rest)
  }

  predicate NonEmptyAct(a: Act)
  {
    match a
    case Subscribe(pattern, _) => pattern != ""
    case Unsubscribe(_) => true
    case Send(_, reactions) => NonEmptyReactions(reactions)
  }

  predicate NonEmptyReactions(reactions: Reactions)
  {
    reactions.React? ==> NonEmptyPatterns(reactions.script) && NonEmptyReactions(reactions.rest)
  }

  ghost predicate NoEmpty(subTopic: map<SubId, Topic>)
  {
    forall id :: id in subTopic ==> subTopic[id] != ""
  }

  function CallsTo(calls: seq<Call>, id: SubId): nat
  {
    if calls == [] then 0 else CallsTo(calls[..|calls| - 1], id) + (if calls[|calls| - 1].id == id then 1 else 0)
  }

  /** A subscription that has ended stays ended and is never called again. */
  ghost predicate LeavesGoneAlone(m: Memory, m': Memory)
  {
    m.tables.nextId <= m'.tables.nextId &&
    forall id: SubId :: id < m.tables.nextId && id !in m.subTopic ==>
      id !in m'.subTopic && CallsTo(m'.tables.calls, id) == CallsTo(m.tables.calls, id)
  }

  lemma InvokedLeavesGoneAlone(m: Memory, item: Item, message: Message)
    requires item.id in m.subTopic
    ensures LeavesGoneAlone(m, m.(tables := Invoked(m.tables, item, message)))
  {
    var calls' := m.tables.calls + [Call(item.id, item.callback, message)];
    assert calls'[..|calls'| - 1] == m.tables.calls;
  }

  lemma GoneAloneTrans(a: Memory, b: Memory, c: Memory)
    requires LeavesGoneAlone(a, b) && LeavesGoneAlone(b, c)
    ensures LeavesGoneAlone(a, c)
  {
  }

  /** What is proved of every piece of a run: `t'` is what the scanning transport did in the same place. */
  ghost predicate Outcome(m: Memory, m': Memory, nonEmpty: bool, t': Tables)
  {
    Inverse(m') && LeavesGoneAlone(m, m') && (nonEmpty && NoEmpty(m.subTopic) ==> m'.tables == t' && NoEmpty(m'.subTopic))
  }

  lemma OutcomeTrans(a: Memory, b: Memory, c: Memory, first: bool, second: bool, tb: Tables, tc: Tables)
    requires Outcome(a, b, first, tb)
    requires first && NoEmpty(a.subTopic) ==> b.tables == tb
    requires Inverse(c) && LeavesGoneAlone(b, c)
    requires first && second && NoEmpty(a.subTopic) && NoEmpty(b.subTopic) ==> c.tables == tc && NoEmpty(c.subTopic)
    ensures Outcome(a, c, first && second, tc)
  {
    hide Inverse, LeavesGoneAlone;
    GoneAloneTrans(a, b, c);
  }

  lemma {:induction false} PerformOutcome(matches: Matcher, m: Memory, p: Script)
    requires Inverse(m)
    ensures Outcome(m, MemoryPerform(matches, m, p), NonEmptyPatterns(p), TcpPerform(matches, m.tables, p))
    decreases p
  {
    hide Inverse, LeavesGoneAlone, NoEmpty;
    match p
    case Done => SelfOutcome(m);
    case Then(a, rest) =>
      var m1 := MemoryDo(matches, m, a);
      DoOutcome(matches, m, a);
      PerformOutcome(matches, m1, rest);
      OutcomeTrans(m, m1, MemoryPerform(matches, m1, rest), NonEmptyAct(a), NonEmptyPatterns(rest),
        TcpDo(matches, m.tables, a), TcpPerform(matches, TcpDo(matches, m.tables, a), rest));
  }

  lemma SelfOutcome(m: Memory)
    requires Inverse(m)
    ensures Outcome(m, m, true, m.tables)
  {
    hide Inverse;
  }

  lemma {:induction false} DoOutcome(matches: Matcher, m: Memory, a: Act)
    requires Inverse(m)
    ensures Outcome(m, MemoryDo(matches, m, a), NonEmptyAct(a), TcpDo(matches, m.tables, a))
    decreases a
  {
    match a
    case Subscribe(pattern, callback) => SubscribeOutcome(m, pattern, callback);
    case Unsubscribe(id) => UnsubscribeOutcome(m, id);
    case Send(message, reactions) =>
      hide Inverse, Outcome;
      DeliverOutcome(matches, m, message, m.tables.subscribers, reactions);
  }

  lemma SubscribeOutcome(m: Memory, pattern: Topic, callback: Callback)
    requires Inverse(m)
    ensures Outcome(m, MemorySubscribe(m, pattern, callback), pattern != "", TcpSubscribe(m.tables, pattern, callback))
  {
    SubscribeKeepsInverse(m, pattern, callback);
    hide Inverse;
  }

  lemma UnsubscribeOutcome(m: Memory, id: SubId)
    requires Inverse(m)
    ensures Outcome(m, MemoryUnsubscribe(m, id), true, TcpUnsubscribe(m.tables, id))
  {
    UnsubscribeKeepsInverse(m, id);
    UnsubscribeAgrees(m, id);
    hide Inverse, TcpUnsubscribe;
  }

  lemma WantsAgree(matches: Matcher, m: Memory, id: SubId, topic: Topic)
    requires Inverse(m)
    ensures TcpWants(matches, m.tables, id, topic) <==> MemoryWants(matches, m, id, topic) && m.subTopic[id] != ""
  {
    ScanIsLookup(m.tables.topicSubs, m.subTopic, id);
  }

  lemma CallOutcome(m: Memory, item: Item, message: Message)
    requires Inverse(m) && item.id in m.subTopic
    ensures Outcome(m, m.(tables := Invoked(m.tables, item, message)), true, Invoked(m.tables, item, message))
  {
    InvokedLeavesGoneAlone(m, item, message);
    hide LeavesGoneAlone;
  }

  lemma {:induction false} DeliverOutcome(matches: Matcher, m: Memory, message: Message, left: seq<Item>, reactions: Reactions)
    requires Inverse(m)
    ensures Outcome(m, MemoryDeliver(matches, m, message, left, reactions), NonEmptyReactions(reactions),
                    TcpDeliver(matches, m.tables, message, left, reactions))
    decreases reactions, |left|
  {
    hide Inverse, LeavesGoneAlone;
    if left == [] {
      SelfOutcome(m);
      return;
    }
    var item, rest := left[0], left[1..];
    WantsAgree(matches, m, item.id, message.topic);
    if !MemoryWants(matches, m, item.id, message.topic) {
      DeliverOutcome(matches, m, message, rest, reactions);
      return;
    }
    var m1 := m.(tables := Invoked(m.tables, item, message));
    CallOutcome(m, item, message);
    hide Invoked, TcpWants;
    match reactions
    case Quiet =>
      DeliverOutcome(matches, m1, message, rest, Quiet);
      OutcomeTrans(m, m1, MemoryDeliver(matches, m1, message, rest, Quiet), true, true,
        m1.tables, TcpDeliver(matches, m1.tables, message, rest, Quiet));
    case React(script, others) =>
      PerformOutcome(matches, m1, script);
      var m2, t2 := MemoryPerform(matches, m1, script), TcpPerform(matches, m1.tables, script);
      DeliverOutcome(matches, m2, message, rest, others);
      OutcomeTrans(m, m1, m2, true, NonEmptyPatterns(script), m1.tables, t2);
      OutcomeTrans(m, m2, MemoryDeliver(matches, m2, message, rest, others), NonEmptyPatterns(script), NonEmptyReactions(others),
        t2, TcpDeliver(matches, t2, message, rest, others));
  }

  /** After any run, however its callbacks subscribe, unsubscribe and send, the three maps are mutually inverse. */
  lemma MapsStayInverse(matches: Matcher, p: Script)
    ensures Inverse(MemoryPerform(matches, EMPTY, p))
  {
    EmptyInverse();
    hide Inverse, LeavesGoneAlone;
    PerformOutcome(matches, EMPTY, p);
  }

  lemma EmptyInverse()
    ensures Inverse(EMPTY) && NoEmpty(EMPTY.subTopic)
  {
  }

  /**
   The indexed transport refines the scanning one: with non-empty patterns, any run makes the same
   calls in the same order and leaves the same tables, whatever callbacks do in the middle of a send.
   */
  lemma IndexAgreesWithScan(matches: Matcher, p: Script)
    requires NonEmptyPatterns(p)
    ensures MemoryPerform(matches, EMPTY, p).tables == TcpPerform(matches, NO_TABLES, p)
  {
    EmptyInverse();
    hide Inverse, LeavesGoneAlone, NoEmpty;
    PerformOutcome(matches, EMPTY, p);
  }

  /** An ended subscription is called no more: not by anything done later, nor by a send already under way. */
  lemma TheGoneAreNotCalled(matches: Matcher, m: Memory, id: SubId, more: Script, message: Message, left: seq<Item>, reactions: Reactions)
    requires Inverse(m) && id < m.tables.nextId && !Has(m.tables.subscribers, id)
    ensures CallsTo(MemoryPerform(matches, m, more).tables.calls, id) == CallsTo(m.tables.calls, id)
    ensures CallsTo(MemoryDeliver(matches, m, message, left, reactions).tables.calls, id) == CallsTo(m.tables.calls, id)
  {
    assert id !in m.subTopic;
    hide Inverse, MemoryPerform, MemoryDeliver;
    PerformOutcome(matches, m, more);
    DeliverOutcome(matches, m, message, left, reactions);
  }

  // ---- One send whose callbacks leave the tables alone -----------------------------------------

  /** The live subscriptions that match, in the order they were made. */
  function Matching(matches: Matcher, subTopic: map<SubId, Topic>, message: Message, items: seq<Item>): seq<Call>
  {
    if items == [] then []
    else
      (if items[0].id in subTopic && matches(message.topic, subTopic[items[0].id])
       then [Call(items[0].id, items[0].callback, message)] else [])
      + Matching(matches, subTopic, message, items[1..])
  }

  lemma {:induction false} QuietSend(matches: Matcher, m: Memory, message: Message, left: seq<Item>)
    ensures MemoryDeliver(matches, m, message, left, Quiet)
         == m.(tables := m.tables.(calls := m.tables.calls + Matching(matches, m.subTopic, message, left)))
    decreases |left|
  {
    if left != [] {
      var m1 := if MemoryWants(matches, m, left[0].id, message.topic) then m.(tables := Invoked(m.tables, left[0], message)) else m;
      QuietSend(matches, m1, message, left[1..]);
    }
  }

  /** A live subscription with the empty pattern that the matcher says matches this topic. */
  ghost predicate HasEmptyMatch(matches: Matcher, subTopic: map<SubId, Topic>, message: Message, items: seq<Item>)
  {
    exists i :: 0 <= i < |items| && items[i].id in subTopic && subTopic[items[i].id] == "" && matches(message.topic, "")
  }

  lemma {:induction false} QuietScan(matches: Matcher, m: Memory, message: Message, left: seq<Item>)
    requires Inverse(m)
    ensures var made := Matching(matches, m.subTopic, message, left);
            var scanned := TcpDeliver(matches, m.tables, message, left, Quiet);
            && |scanned.calls| <= |m.tables.calls| + |made|
            && scanned == m.tables.(calls := scanned.calls)
            && (HasEmptyMatch(matches, m.subTopic, message, left) ==> |scanned.calls| < |m.tables.calls| + |made|)
            && (!HasEmptyMatch(matches, m.subTopic, message, left) ==> scanned.calls == m.tables.calls + made)
    decreases |left|
  {
    if left != [] {
      var item, rest := left[0], left[1..];
      WantsAgree(matches, m, item.id, message.topic);
      EmptyMatchUnfolds(matches, m.subTopic, message, left);
      var m1 := if TcpWants(matches, m.tables, item.id, message.topic) then m.(tables := Invoked(m.tables, item, message)) else m;
      hide TcpWants, HasEmptyMatch;
      QuietScan(matches, m1, message, rest);
    }
  }

  lemma EmptyMatchUnfolds(matches: Matcher, subTopic: map<SubId, Topic>, message: Message, items: seq<Item>)
    requires items != []
    ensures HasEmptyMatch(matches, subTopic, message, items) <==>
            ((items[0].id in subTopic && subTopic[items[0].id] == "" && matches(message.topic, ""))
             || HasEmptyMatch(matches, subTopic, message, items[1..]))
  {
    var rest := items[1..];
    if HasEmptyMatch(matches, subTopic, message, rest) {
      var i :| 0 <= i < |rest| && rest[i].id in subTopic && subTopic[rest[i].id] == "" && matches(message.topic, "");
      assert items[i + 1] == rest[i];
    }
  }

  /**
   From every reachable state, a send with quiet callbacks calls the live matching subscriptions once
   each in the order they were made; the scan agrees unless the empty pattern matches, and only then.
   */
  lemma SendsAgreeExactly(matches: Matcher, p: Script, message: Message)
    ensures var m := MemoryPerform(matches, EMPTY, p);
            var sent := MemoryDo(matches, m, Send(message, Quiet));
            var scanned := TcpDo(matches, m.tables, Send(message, Quiet));
            && sent.tables.calls == m.tables.calls + Matching(matches, m.subTopic, message, m.tables.subscribers)
            && (scanned == sent.tables <==> !HasEmptyMatch(matches, m.subTopic, message, m.tables.subscribers))
  {
    var m := MemoryPerform(matches, EMPTY, p);
    MapsStayInverse(matches, p);
    hide Inverse, MemoryPerform, HasEmptyMatch;
    QuietSend(matches, m, message, m.tables.subscribers);
    QuietScan(matches, m, message, m.tables.subscribers);
  }

  /** A run in which the two differ: a subscription to the empty pattern is called by one and not the other. */
  lemma EmptyPatternMakesTheDifference(matches: Matcher, message: Message, callback: Callback)
    requires matches(message.topic, "")
    ensures var p := Then(Subscribe("", callback), Then(Send(message, Quiet), Done));
            && MemoryPerform(matches, EMPTY, p).tables.calls == [Call(0, callback, message)]
            && TcpPerform(matches, NO_TABLES, p).calls == []
  {
    var m, item := MemorySubscribe(EMPTY, "", callback), Item(0, callback);
    EmptyInverse();
    SubscribeKeepsInverse(EMPTY, "", callback);
    WantsAgree(matches, m, 0, message.topic);
    assert m.tables.subscribers == [item];
    hide Inverse, TcpWants;
    SendToOne(matches, m, message, item);
    var send := Send(message, Quiet);
    assert MemoryPerform(matches, m, Then(send, Done)) == MemoryDo(matches, m, send);
    assert TcpPerform(matches, m.tables, Then(send, Done)) == TcpDo(matches, m.tables, send);
  }

  lemma SendToOne(matches: Matcher, m: Memory, message: Message, item: Item)
    requires MemoryWants(matches, m, item.id, message.topic) && !TcpWants(matches, m.tables, item.id, message.topic)
    ensures MemoryDeliver(matches, m, message, [item], Quiet) == m.(tables := Invoked(m.tables, item, message))
    ensures TcpDeliver(matches, m.tables, message, [item], Quiet) == m.tables
  {
    assert [item][1..] == [];
  }
}
