/**
 The subscription tables of the Redis transport.  `broker` is the set of globs this connection is
 pattern-subscribed to; the broker is taken to obey every PSUBSCRIBE and PUNSUBSCRIBE.
 */
module RedisTransport {
  import opened TopicPattern

  type Id = nat

  /** The live subscriptions and receive queues that use glob `g`. */
  ghost function Users(subPattern: map<Id, string>, queuePatterns: map<string, string>, g: string): nat
  {
    |SubscriptionsUsing(subPattern, g)| + |QueuesUsing(queuePatterns, g)|
  }

  ghost function SubscriptionsUsing(subPattern: map<Id, string>, g: string): set<Id>
  {
    set id | id in subPattern && subPattern[id] == g
  }

  ghost function QueuesUsing(queuePatterns: map<string, string>, g: string): set<string>
  {
    set t | t in queuePatterns && queuePatterns[t] == g
  }

  /** The reference counts are exact, and the broker holds exactly the globs that are in use. */
  ghost predicate Counted(refs: map<string, nat>, broker: set<string>, subPattern: map<Id, string>, queuePatterns: map<string, string>)
  {
    && broker == refs.Keys
    && (forall g :: g in refs ==> refs[g] > 0)
    && (forall g :: Users(subPattern, queuePatterns, g) == if g in refs then refs[g] else 0)
  }

  lemma UsersAfterSubscribe(subPattern: map<Id, string>, queuePatterns: map<string, string>, id: Id, p: string, g: string)
    requires id !in subPattern
    ensures Users(subPattern[id := p], queuePatterns, g) == Users(subPattern, queuePatterns, g) + (if g == p then 1 else 0)
  {
    if g == p {
      assert SubscriptionsUsing(subPattern[id := p], g) == SubscriptionsUsing(subPattern, g) + {id};
    } else {
      assert SubscriptionsUsing(subPattern[id := p], g) == SubscriptionsUsing(subPattern, g);
    }
  }

  lemma UsersAfterUnsubscribe(subPattern: map<Id, string>, queuePatterns: map<string, string>, id: Id, g: string)
    requires id in subPattern
    ensures Users(subPattern, queuePatterns, g) == Users(subPattern - {id}, queuePatterns, g) + (if g == subPattern[id] then 1 else 0)
  {
    if g == subPattern[id] {
      assert SubscriptionsUsing(subPattern, g) == SubscriptionsUsing(subPattern - {id}, g) + {id};
    } else {
      assert SubscriptionsUsing(subPattern - {id}, g) == SubscriptionsUsing(subPattern, g);
    }
  }

  lemma UsersAfterQueue(subPattern: map<Id, string>, queuePatterns: map<string, string>, t: string, p: string, g: string)
    requires t !in queuePatterns
    ensures Users(subPattern, queuePatterns[t := p], g) == Users(subPattern, queuePatterns, g) + (if g == p then 1 else 0)
  {
    if g == p {
      assert QueuesUsing(queuePatterns[t := p], g) == QueuesUsing(queuePatterns, g) + {t};
    } else {
      assert QueuesUsing(queuePatterns[t := p], g) == QueuesUsing(queuePatterns, g);
    }
  }

  function Bump(refs: map<string, nat>, p: string): map<string, nat>
  {
    refs[p := (if p in refs then refs[p] else 0) + 1]
  }

  function Drop(refs: map<string, nat>, p: string): map<string, nat>
  {
    if p !in refs || refs[p] == 0 then refs else if refs[p] == 1 then refs - {p} else refs[p := refs[p] - 1]
  }

  lemma CountedAfterSubscribe(refs: map<string, nat>, broker: set<string>, subPattern: map<Id, string>, queuePatterns: map<string, string>, id: Id, p: string)
    requires Counted(refs, broker, subPattern, queuePatterns) && id !in subPattern
    ensures broker + {p} == (if p in refs && refs[p] > 0 then broker else broker + {p})
    ensures Counted(Bump(refs, p), broker + {p}, subPattern[id := p], queuePatterns)
  {
    hide Users;
    forall g ensures Users(subPattern[id := p], queuePatterns, g) == if g in Bump(refs, p) then Bump(refs, p)[g] else 0 {
      UsersAfterSubscribe(subPattern, queuePatterns, id, p, g);
    }
  }

  lemma CountedAfterQueue(refs: map<string, nat>, broker: set<string>, subPattern: map<Id, string>, queuePatterns: map<string, string>, t: string, p: string)
    requires Counted(refs, broker, subPattern, queuePatterns) && t !in queuePatterns
    ensures broker + {p} == (if p in refs && refs[p] > 0 then broker else broker + {p})
    ensures Counted(Bump(refs, p), broker + {p}, subPattern, queuePatterns[t := p])
  {
    hide Users;
    forall g ensures Users(subPattern, queuePatterns[t := p], g) == if g in Bump(refs, p) then Bump(refs, p)[g] else 0 {
      UsersAfterQueue(subPattern, queuePatterns, t, p, g);
    }
  }

  lemma CountedAfterUnsubscribe(refs: map<string, nat>, broker: set<string>, subPattern: map<Id, string>, queuePatterns: map<string, string>, id: Id)
    requires Counted(refs, broker, subPattern, queuePatterns) && id in subPattern
    ensures var p := subPattern[id];
            p in refs && Counted(Drop(refs, p), if refs[p] == 1 then broker - {p} else broker, subPattern - {id}, queuePatterns)
  {
    hide Users;
    var p := subPattern[id];
    UsersAfterUnsubscribe(subPattern, queuePatterns, id, p);
    var refs' := Drop(refs, p);
    forall g ensures Users(subPattern - {id}, queuePatterns, g) == if g in refs' then refs'[g] else 0 {
      UsersAfterUnsubscribe(subPattern, queuePatterns, id, g);
    }
  }

  /** Sequences used as insertion-ordered dictionaries have no key twice. */
  predicate Distinct(ids: seq<Id>)
  {
    forall i, j :: 0 <= i < j < |ids| ==> ids[i] != ids[j]
  }

  function Position(ids: seq<Id>, id: Id): (i: nat)
    requires id in ids
    ensures i < |ids| && ids[i] == id
  {
    if ids[0] == id then 0 else 1 + Position(ids[1..], id)
  }

  /** The three subscription tables list the same ids, each with the glob of its topic. */
  ghost predicate Agree(subscribers: seq<Id>, subTopic: map<Id, string>, subPattern: map<Id, string>,
                        queuePatterns: map<string, string>, nextId: Id)
  {
    && Distinct(subscribers)
    && (forall id :: id in subscribers <==> id in subTopic)
    && (forall id :: id in subTopic <==> id in subPattern)
    && (forall id :: id in subTopic ==> id < nextId && subPattern[id] == ToBrokerGlob(subTopic[id]))
    && (forall t :: t in queuePatterns ==> queuePatterns[t] == ToBrokerGlob(t))
  }

  lemma SameIds(subscribers: seq<Id>, subTopic: map<Id, string>, subPattern: map<Id, string>,
                queuePatterns: map<string, string>, nextId: Id, id: Id)
    requires Agree(subscribers, subTopic, subPattern, queuePatterns, nextId)
    ensures Distinct(subscribers) && (id in subscribers <==> id in subTopic) && (id in subTopic <==> id in subPattern)
  {
  }

  lemma AgreeAfterSubscribe(subscribers: seq<Id>, subTopic: map<Id, string>, subPattern: map<Id, string>,
                            queuePatterns: map<string, string>, id: Id, topic: string)
    requires Agree(subscribers, subTopic, subPattern, queuePatterns, id)
    ensures id !in subTopic && id !in subPattern
    ensures Agree(subscribers + [id], subTopic[id := topic], subPattern[id := ToBrokerGlob(topic)], queuePatterns, id + 1)
  {
    hide ToBrokerGlob;
  }

  lemma AgreeAfterUnsubscribe(subscribers: seq<Id>, subTopic: map<Id, string>, subPattern: map<Id, string>,
                              queuePatterns: map<string, string>, nextId: Id, at: nat)
    requires Agree(subscribers, subTopic, subPattern, queuePatterns, nextId) && at < |subscribers|
    ensures var id := subscribers[at];
            Agree(subscribers[..at] + subscribers[at + 1..], subTopic - {id}, subPattern - {id}, queuePatterns, nextId)
  {
    hide ToBrokerGlob;
    RemovedFrom(subscribers, at);
    hide Distinct;
  }

  lemma QueueUsesGlob(subscribers: seq<Id>, subTopic: map<Id, string>, subPattern: map<Id, string>,
                      queuePatterns: map<string, string>, nextId: Id, t: string)
    requires Agree(subscribers, subTopic, subPattern, queuePatterns, nextId) && t in queuePatterns
    ensures queuePatterns == queuePatterns[t := ToBrokerGlob(t)]
  {
    hide ToBrokerGlob;
  }

  lemma NothingSubscribed(nextId: Id)
    ensures Agree([], map[], map[], map[], nextId) && Counted(map[], {}, map[], map[])
  {
  }

  lemma AgreeAfterQueue(subscribers: seq<Id>, subTopic: map<Id, string>, subPattern: map<Id, string>,
                        queuePatterns: map<string, string>, nextId: Id, t: string)
    requires Agree(subscribers, subTopic, subPattern, queuePatterns, nextId)
    ensures Agree(subscribers, subTopic, subPattern, queuePatterns[t := ToBrokerGlob(t)], nextId)
  {
    hide ToBrokerGlob, Distinct;
  }

  class Transport {
    var running: bool
    var subscribers: seq<Id>
    var subTopic: map<Id, string>
    var subPattern: map<Id, string>
    var refs: map<string, nat>
    var queuePatterns: map<string, string>
    var nextId: Id
    var broker: set<string>

    ghost predicate Valid()
      reads this
    {
      Agree(subscribers, subTopic, subPattern, queuePatterns, nextId) && Counted(refs, broker, subPattern, queuePatterns)
    }

    constructor ()
      ensures Valid() && running && subscribers == [] && queuePatterns == map[] && broker == {}
    {
      running, subscribers, subTopic, subPattern := true, [], map[], map[];
      refs, queuePatterns, nextId, broker := map[], map[], 0, {};
    }

    /** `_psubscribe`. */
    method Psubscribe(p: string)
      modifies this`refs, this`broker
      ensures refs == Bump(old(refs), p)
      ensures broker == if p in old(refs) && old(refs)[p] > 0 then old(broker) else old(broker) + {p}
    {
      var count := if p in refs then refs[p] else 0;
      if count == 0 {
        broker := broker + {p};
      }
      refs := refs[p := count + 1];
    }

    /** `_punsubscribe`. */
    method Punsubscribe(p: string)
      modifies this`refs, this`broker
      ensures refs == Drop(old(refs), p)
      ensures broker == if p in old(refs) && old(refs)[p] == 1 then old(broker) - {p} else old(broker)
    {
      if p !in refs || refs[p] == 0 {
        return;
      }
      refs := refs[p := refs[p] - 1];
      if refs[p] == 0 {
        refs := refs - {p};
        broker := broker - {p};
        assert refs == old(refs) - {p};
      }
    }

    /** `subscribe`; raises when the transport is closed. */
    method Subscribe(topic: string) returns (ok: bool, id: Id)
      requires Valid()
      modifies this
      ensures Valid() && ok == old(running) && running == old(running) && queuePatterns == old(queuePatterns)
      ensures ok ==> id !in old(subTopic) && subscribers == old(subscribers) + [id]
                     && subTopic == old(subTopic)[id := topic]
      ensures !ok ==> subscribers == old(subscribers) && subTopic == old(subTopic)
    {
      hide ToBrokerGlob, Agree, Counted, Bump;
      id := nextId;
      if !running {
        return false, id;
      }
      nextId := nextId + 1;
      var pattern := ToBrokerGlob(topic);
      AgreeAfterSubscribe(subscribers, subTopic, subPattern, queuePatterns, id, topic);
      CountedAfterSubscribe(refs, broker, subPattern, queuePatterns, id, pattern);
      subscribers := subscribers + [id];
      subTopic := subTopic[id := topic];
      subPattern := subPattern[id := pattern];
      Psubscribe(pattern);
      ok := true;
    }

    /** `unsubscribe`. */
    method Unsubscribe(id: Id) returns (found: bool)
      requires Valid()
      modifies this
      ensures Valid() && running == old(running) && queuePatterns == old(queuePatterns)
      ensures found <==> id in old(subscribers)
      ensures subTopic == old(subTopic) - {id}
      ensures subscribers == Others(old(subscribers), id)
    {
      hide Agree, Counted, Drop, Distinct, Position;
      SameIds(subscribers, subTopic, subPattern, queuePatterns, nextId, id);
      if id !in subscribers {
        assert subTopic == subTopic - {id};
        OthersAreAll(subscribers, id);
        return false;
      }
      var at := Position(subscribers, id);
      var pattern := subPattern[id];
      OthersSkipOne(subscribers, at);
      AgreeAfterUnsubscribe(subscribers, subTopic, subPattern, queuePatterns, nextId, at);
      CountedAfterUnsubscribe(refs, broker, subPattern, queuePatterns, id);
      subscribers := subscribers[..at] + subscribers[at + 1..];
      subTopic := subTopic - {id};
      subPattern := subPattern - {id};
      Punsubscribe(pattern);
      found := true;
    }

    /** `_ensure_queue_subscription`, the first step of every receive. */
    method EnsureQueue(topic: string)
      requires Valid()
      modifies this`queuePatterns, this`refs, this`broker
      ensures Valid()
      ensures queuePatterns == old(queuePatterns)[topic := ToBrokerGlob(topic)]
    {
      hide ToBrokerGlob, Agree, Counted, Bump;
      if topic in queuePatterns {
        QueueUsesGlob(subscribers, subTopic, subPattern, queuePatterns, nextId, topic);
        return;
      }
      var pattern := ToBrokerGlob(topic);
      AgreeAfterQueue(subscribers, subTopic, subPattern, queuePatterns, nextId, topic);
      CountedAfterQueue(refs, broker, subPattern, queuePatterns, topic, pattern);
      queuePatterns := queuePatterns[topic := pattern];
      Psubscribe(pattern);
    }

    /** `_dispatch`: the subscribers whose callbacks run for a message on `topic`, in order. */
    method Dispatch(topic: string) returns (called: seq<Id>)
      requires Agree(subscribers, subTopic, subPattern, queuePatterns, nextId)
      ensures forall id :: id in called <==> id in subTopic && Matches(topic, subTopic[id])
      ensures Distinct(called) && Subsequence(called, subscribers)
    {
      called := [];
      for i := 0 to |subscribers|
        invariant Subsequence(called, subscribers[..i])
        invariant forall id :: id in called <==> id in subscribers[..i] && Matches(topic, subTopic[id])
        invariant Distinct(called)
      {
        var id := subscribers[i];
        assert subscribers[..i + 1] == subscribers[..i] + [id];
        assert id !in subscribers[..i];
        SubsequenceGrows(called, subscribers[..i], id);
        var matched := TopicMatches(topic, subTopic[id]);
        if matched {
          called := called + [id];
        }
      }
      assert subscribers[..|subscribers|] == subscribers;
    }

    /** The tables of `close`. */
    method Close()
      requires Valid()
      modifies this
      ensures Valid() && !running && subTopic == map[] && broker == {}
    {
      hide Agree, Counted;
      NothingSubscribed(nextId);
      running, subscribers, subTopic, subPattern := false, [], map[], map[];
      refs, queuePatterns, broker := map[], map[], {};
    }

    /**
     No matching subscriber is missed: whenever a message's topic matches a live subscription, the
     broker holds the subscription's glob and the glob matches, so the message is delivered to this
     connection.  The pattern has no character but `*` that is special to the broker; and the topic does
     not end in a newline, or the pattern is one of those for which that does not matter.
     */
    lemma NoSubscriberIsMissed(id: Id, topic: string)
      requires Valid() && id in subTopic && Ordinary(subTopic[id])
      requires Matches(topic, subTopic[id]) && (!EndsInNewline(topic) || EndsInStar(Stripped(subTopic[id])))
      ensures Ordinary(subPattern[id]) && subPattern[id] in broker && BrokerMatches(subPattern[id], topic)
    {
      var g := subPattern[id];
      if EndsInNewline(topic) {
        PrefilterIsCompleteExactly(subTopic[id]);
      } else {
        PrefilterIsComplete(topic, subTopic[id]);
      }
      assert id in SubscriptionsUsing(subPattern, g);
      assert Users(subPattern, queuePatterns, g) > 0;
    }

    /** A glob is subscribed at the broker exactly while somebody uses it. */
    lemma SubscribedWhileUsed(g: string)
      requires Valid()
      ensures g in broker <==>
              (exists id :: id in subTopic && ToBrokerGlob(subTopic[id]) == g) || (exists t :: t in queuePatterns && ToBrokerGlob(t) == g)
    {
      var subs, queues := SubscriptionsUsing(subPattern, g), QueuesUsing(queuePatterns, g);
      assert Users(subPattern, queuePatterns, g) == |subs| + |queues|;
      if g in broker {
        if subs != {} {
          var id :| id in subs;
          assert ToBrokerGlob(subTopic[id]) == g;
        } else {
          assert queues != {};
          var t :| t in queues;
          assert ToBrokerGlob(t) == g;
        }
      } else {
        assert subs == {} && queues == {};
        forall id | id in subTopic ensures ToBrokerGlob(subTopic[id]) != g {
          assert id !in subs;
        }
        forall t | t in queuePatterns ensures ToBrokerGlob(t) != g {
          assert t !in queues;
        }
      }
    }
  }

  /** The ids other than `id`, in their order. */
  function Others(ids: seq<Id>, id: Id): seq<Id>
  {
    if ids == [] then [] else (if ids[0] == id then [] else [ids[0]]) + Others(ids[1..], id)
  }

  lemma {:induction false} OthersAreAll(ids: seq<Id>, id: Id)
    requires id !in ids
    ensures Others(ids, id) == ids
  {
    if ids != [] {
      OthersAreAll(ids[1..], id);
    }
  }

  lemma {:induction false} OthersSkipOne(ids: seq<Id>, at: nat)
    requires Distinct(ids) && at < |ids|
    ensures Others(ids, ids[at]) == ids[..at] + ids[at + 1..]
  {
    var rest := ids[1..];
    if at == 0 {
      OthersAreAll(rest, ids[0]);
    } else {
      assert Others(ids, ids[at]) == [ids[0]] + Others(rest, ids[at]);
      assert Distinct(rest) && rest[at - 1] == ids[at];
      OthersSkipOne(rest, at - 1);
      hide Others, Distinct;
      assert ids[..at] == [ids[0]] + rest[..at - 1];
      assert ids[at + 1..] == rest[at..];
    }
  }

  /** `part` is what is left of `whole` after taking some elements out. */
  ghost predicate Subsequence(part: seq<Id>, whole: seq<Id>)
    decreases |whole|
  {
    if whole == [] then part == []
    else
      var init, last := whole[..|whole| - 1], whole[|whole| - 1];
      Subsequence(part, init) || (part != [] && part[|part| - 1] == last && Subsequence(part[..|part| - 1], init))
  }

  lemma SubsequenceGrows(part: seq<Id>, whole: seq<Id>, id: Id)
    requires Subsequence(part, whole)
    ensures Subsequence(part, whole + [id]) && Subsequence(part + [id], whole + [id])
  {
    assert (whole + [id])[..|whole|] == whole && (part + [id])[..|part|] == part;
  }

  lemma RemovedFrom(ids: seq<Id>, at: nat)
    requires Distinct(ids) && at < |ids|
    ensures Distinct(ids[..at] + ids[at + 1..])
    ensures forall id :: id in ids[..at] + ids[at + 1..] <==> id in ids && id != ids[at]
  {
    var rest := ids[..at] + ids[at + 1..];
    assert forall i :: 0 <= i < |rest| ==> rest[i] == ids[if i < at then i else i + 1];
    forall id | id in ids && id != ids[at] ensures id in rest {
      var i :| 0 <= i < |ids| && ids[i] == id;
      assert rest[if i < at then i else i - 1] == id;
    }
  }
}
