/** No pending message with a consumer is forgotten, except on dead-letter topics. */
module WorkQueueDispatch {
  import opened Options
  import opened WorkQueueModel
  import opened WorkQueueInvariants
  import opened WorkQueueConservation

  // ---- Who listens -----------------------------------------------------------

  ghost predicate Listens(gs: seq<Group>, t: Topic)
  {
    exists i :: 0 <= i < |gs| && gs[i].key.topic == t
  }

  lemma {:induction false} KeysOnListens(gs: seq<Group>, t: Topic)
    ensures KeysOn(gs, t) != [] <==> Listens(gs, t)
  {
    if gs != [] {
      KeysOnListens(gs[1..], t);
      if Listens(gs[1..], t) {
        var i :| 0 <= i < |gs[1..]| && gs[1..][i].key.topic == t;
        assert gs[i + 1].key.topic == t;
      }
      if Listens(gs, t) && gs[0].key.topic != t {
        var i :| 0 <= i < |gs| && gs[i].key.topic == t;
        assert gs[1..][i - 1].key.topic == t;
      }
    }
  }

  lemma ListensAfterDrop(gs: seq<Group>, k: Key, c: Id, t: Topic)
    requires Listens(DropFromGroups(gs, k, c), t)
    ensures Listens(gs, t)
  {
    var gs', j := DropFromGroups(gs, k, c), GroupIndex(gs, k);
    var i :| 0 <= i < |gs'| && gs'[i].key.topic == t;
    var i' := if |gs'| < |gs| && i >= j then i + 1 else i;
    assert gs[i'].key.topic == t;
  }

  lemma ListensAfterAdd(gs: seq<Group>, k: Key, c: Id, t: Topic)
    requires Listens(AddMember(gs, k, c), t) && k.topic != t
    ensures Listens(gs, t)
  {
    var gs' := AddMember(gs, k, c);
    var i :| 0 <= i < |gs'| && gs'[i].key.topic == t;
    assert gs[i].key.topic == t;
  }

  // ---- What a block does to the queue of t ---------------------------------------

  /** A dispatch empties its own topic, whatever is on it, and touches no other queue and no group. */
  lemma {:induction false} DispatchLoopDrains<P>(cfg: Config, s: State<P>, t: Topic, keys: seq<Key>)
    requires keys != [] && Served(s.groups, keys)
    ensures var s' := DispatchLoop(cfg, s, t, keys);
            && s'.groups == s.groups && Pend(s', t) == []
            && forall u :: u != t ==> Pend(s', u) == Pend(s, u)
    decreases |Pend(s, t)|
  {
    if Pend(s, t) != [] {
      HeadIsTaken(cfg, s, t, keys);
      DispatchLoopDrains(cfg, AfterHead(cfg, s, t, keys), t, keys);
    }
  }

  lemma DispatchDrains<P>(cfg: Config, s: State<P>, t: Topic)
    requires NoneEmpty(s.groups)
    ensures var s' := Dispatch(cfg, s, t);
            && s'.groups == s.groups
            && (Listens(s.groups, t) ==> Pend(s', t) == [])
            && (!Listens(s.groups, t) ==> s' == s)
            && forall u :: u != t ==> Pend(s', u) == Pend(s, u)
  {
    KeysOnListens(s.groups, t);
    GroupsAreServed(s.groups, t);
    if KeysOn(s.groups, t) != [] {
      DispatchLoopDrains(cfg, s, t, KeysOn(s.groups, t));
    }
  }

  /** Dead letters land on dead-letter topics; only a retry puts a message back on its own. */
  lemma {:induction false} ExpireAllOnTopic<P>(cfg: Config, s: State<P>, es: seq<Entry<P>>, t: Topic)
    requires !IsDeadLetterTopic(t)
    ensures ExpireAll(cfg, s, es).groups == s.groups
    ensures t !in RetriedTopics(cfg, es) ==> Pend(ExpireAll(cfg, s, es), t) == Pend(s, t)
    decreases |es|
  {
    if es != [] {
      DeadLetterTopicsEndSo(es[0].topic);
      ExpireAllOnTopic(cfg, Expire(cfg, s, es[0]), es[1..], t);
      if t in RetriedTopics(cfg, es[1..]) {
        var i :| 0 <= i < |es[1..]| && CanRetry(cfg, es[1..][i]) && es[1..][i].topic == t;
        assert es[i + 1] == es[1..][i];
      }
      if CanRetry(cfg, es[0]) {
        assert es[0].topic in RetriedTopics(cfg, es);
      }
    }
  }

  // ---- No lost dispatch ------------------------------------------------------------

  /** If topic `t` has a consumer and a pending message, some thread still owes it a dispatch. */
  ghost predicate Promised<P>(m: Machine<P>, t: Topic)
  {
    Listens(m.q.groups, t) && Pend(m.q, t) != [] ==> t in m.owed
  }

  lemma RemovePromised<P>(cfg: Config, m: Machine<P>, c: Id, t: Topic)
    requires Promised(m, t)
    ensures Promised(Step(cfg, m, DoRemove(c)), t)
  {
    if c in m.q.registry && MembersIn(m.q.groups, m.q.registry[c]) != [] && Listens(RemoveConsumer(m.q, c).groups, t) {
      ListensAfterDrop(m.q.groups, m.q.registry[c], c, t);
    }
  }

  lemma ConsumePromised<P>(cfg: Config, m: Machine<P>, u: Topic, g: Option<string>, t: Topic)
    requires Promised(m, t)
    ensures Promised(Step(cfg, m, DoConsume(u, g)), t)
  {
    if u != t && Listens(Consume(m.q, u, g).groups, t) {
      ListensAfterAdd(m.q.groups, Key(u, GroupName(u, g)), m.q.nextId, t);
    }
  }

  lemma NackPromised<P>(cfg: Config, m: Machine<P>, d: Id, r: bool, t: Topic)
    requires Promised(m, t) && !IsDeadLetterTopic(t)
    ensures Promised(Step(cfg, m, DoNack(d, r)), t)
  {
    var i := EntryIndex(m.q.inFlight, d);
    if i < |m.q.inFlight| {
      DeadLetterTopicsEndSo(m.q.inFlight[i].topic);
    }
  }

  lemma SweepPromised<P>(cfg: Config, m: Machine<P>, now: real, t: Topic)
    requires Promised(m, t) && !IsDeadLetterTopic(t)
    ensures Promised(Step(cfg, m, DoSweep(now)), t)
  {
    hide ExpireAll, RetriedTopics;
    var s, es := m.q.(inFlight := NotOverdue(m.q.inFlight, now)), Overdue(m.q.inFlight, now);
    ExpireAllOnTopic(cfg, s, es, t);
  }

  lemma DispatchPromised<P>(cfg: Config, m: Machine<P>, u: Topic, t: Topic)
    requires Promised(m, t) && NoneEmpty(m.q.groups)
    ensures Promised(Step(cfg, m, DoDispatch(u)), t)
  {
    hide Dispatch;
    DispatchDrains(cfg, m.q, u);
  }

  lemma StepPromised<P>(cfg: Config, m: Machine<P>, a: Action<P>, t: Topic)
    requires Promised(m, t) && NoneEmpty(m.q.groups) && !IsDeadLetterTopic(t)
    ensures Promised(Step(cfg, m, a), t)
  {
    hide Listens, Full;
    match a
    case DoConsume(u, g) => ConsumePromised(cfg, m, u, g, t);
    case DoRemove(c) => RemovePromised(cfg, m, c, t);
    case DoNack(d, r) => NackPromised(cfg, m, d, r, t);
    case DoSweep(now) => SweepPromised(cfg, m, now, t);
    case DoDispatch(u) => DispatchPromised(cfg, m, u, t);
    case DoClear => NobodyListens(t);
    case _ =>
  }

  lemma NobodyListens(t: Topic)
    ensures !Listens([], t)
  {
  }

  /** In every interleaving, for every ordinary topic: a waiting message with a consumer has a dispatcher. */
  lemma {:induction false} NoLostDispatch<P>(cfg: Config, acts: seq<Action<P>>, t: Topic)
    requires !IsDeadLetterTopic(t)
    ensures Promised(Run(cfg, acts), t)
  {
    hide Shape, Step, Promised;
    if acts == [] {
      InitPromised<P>(t);
    } else {
      var init := acts[..|acts| - 1];
      NoLostDispatch(cfg, init, t);
      RunShape(cfg, init);
      ShapeHasGroups(cfg, Run(cfg, init).q);
      StepPromised(cfg, Run(cfg, init), acts[|acts| - 1], t);
    }
  }

  lemma InitPromised<P>(t: Topic)
    ensures Promised(Machine(Init<P>(), multiset{}), t)
  {
  }

  /** Once every owed dispatch has been made, ordinary topics with consumers have nothing waiting. */
  lemma QuiescentMeansDrained<P>(cfg: Config, acts: seq<Action<P>>, t: Topic)
    requires !IsDeadLetterTopic(t) && Run(cfg, acts).owed == multiset{}
    ensures Listens(Run(cfg, acts).q.groups, t) ==> Pend(Run(cfg, acts).q, t) == []
  {
    hide Run;
    NoLostDispatch(cfg, acts, t);
  }

  // ---- Dead-letter topics are the exception -------------------------------------------

  /** A consumer waits on u.dead_letter; a message of `u` is then rejected for good. */
  function Forgotten<P>(u: Topic, p: P): seq<Action<P>>
  {
    [DoConsume(DeadLetterTopic(u), None), DoDispatch(DeadLetterTopic(u)),
     DoEnqueue(u, p, None), DoDequeue(u), DoNack(2, false)]
  }

  lemma RunNone<P>(cfg: Config)
    ensures Run<P>(cfg, []) == Machine(Init<P>(), multiset{}) && Legal<P>(cfg, [])
  {
  }

  lemma LegalSnoc<P>(cfg: Config, acts: seq<Action<P>>, a: Action<P>)
    requires Legal(cfg, acts) && Enabled(Run(cfg, acts), a)
    ensures Legal(cfg, acts + [a])
    ensures Run(cfg, acts + [a]) == Step(cfg, Run(cfg, acts), a)
  {
    assert (acts + [a])[..|acts|] == acts;
  }

  /** The consumer registers, and its dispatch finds nothing to do. */
  lemma ForgottenBefore<P>(cfg: Config, t: Topic)
    ensures var m1 := Step(cfg, Machine(Init<P>(), multiset{}), DoConsume(t, None));
            var m2 := Step(cfg, m1, DoDispatch(t));
            && t in m1.owed && m2.owed == multiset{} && m2.q.pending == map[] && m2.q.inFlight == []
            && !m2.q.closed && m2.q.nextId == 1 && Listens(m2.q.groups, t)
  {
    var m1 := Step(cfg, Machine(Init<P>(), multiset{}), DoConsume(t, None));
    assert m1.q.groups == [Group(Key(t, GroupName(t, None)), [0])];
    assert m1.q.groups[0].key.topic == t;
    assert Dispatch(cfg, m1.q, t) == m1.q;
  }

  /** The message is enqueued, pulled and buried; nobody is told. */
  lemma ForgottenAfter<P>(cfg: Config, m2: Machine<P>, u: Topic, p: P)
    requires m2.owed == multiset{} && m2.q.pending == map[] && m2.q.inFlight == [] && !m2.q.closed && m2.q.nextId == 1
    requires Listens(m2.q.groups, DeadLetterTopic(u))
    ensures var m3 := Step(cfg, m2, DoEnqueue(u, p, None));
            var m4 := Step(cfg, m3, DoDequeue(u));
            !Promised(Step(cfg, m4, DoNack(2, false)), DeadLetterTopic(u))
  {
    hide Listens;
    var m3 := Step(cfg, m2, DoEnqueue(u, p, None));
    var m4 := Step(cfg, m3, DoDequeue(u));
    assert m3.owed == multiset{u} && m3.q.nextId == 2 && |Pend(m3.q, u)| == 1;
    assert |m4.q.inFlight| == 1 && m4.q.inFlight[0].deliveryId == 2 && m4.q.inFlight[0].topic == u;
    assert u != DeadLetterTopic(u);
    assert |Pend(Step(cfg, m4, DoNack(2, false)).q, DeadLetterTopic(u))| >= 1;
  }

  lemma ForgottenState<P>(cfg: Config, u: Topic, p: P)
    ensures Legal(cfg, Forgotten(u, p)) && !Promised(Run(cfg, Forgotten(u, p)), DeadLetterTopic(u))
  {
    hide Run, Legal, Step, Promised;
    var acts := Forgotten(u, p);
    RunNone<P>(cfg);
    ForgottenBefore<P>(cfg, DeadLetterTopic(u));
    LegalSnoc(cfg, [], acts[0]);
    LegalSnoc(cfg, [] + [acts[0]], acts[1]);
    LegalSnoc(cfg, [] + [acts[0]] + [acts[1]], acts[2]);
    LegalSnoc(cfg, [] + [acts[0]] + [acts[1]] + [acts[2]], acts[3]);
    LegalSnoc(cfg, [] + [acts[0]] + [acts[1]] + [acts[2]] + [acts[3]], acts[4]);
    assert acts == [] + [acts[0]] + [acts[1]] + [acts[2]] + [acts[3]] + [acts[4]];
    ForgottenAfter(cfg, Run(cfg, [] + [acts[0]] + [acts[1]]), u, p);
  }

  /**
   The exact scope of the guarantee: it holds of a topic in every legal interleaving if and only
   if the topic's name does not end in ".dead_letter".
   */
  lemma NoLostDispatchExactly<P(!new)>(cfg: Config, t: Topic, p: P)
    ensures (forall acts: seq<Action<P>> :: Legal(cfg, acts) ==> Promised(Run(cfg, acts), t)) <==> !IsDeadLetterTopic(t)
  {
    hide Run, Legal, Promised;
    if IsDeadLetterTopic(t) {
      var u := t[..|t| - |DEAD_LETTER|];
      assert t == DeadLetterTopic(u);
      ForgottenState(cfg, u, p);
      assert Legal(cfg, Forgotten(u, p));
    } else {
      forall acts: seq<Action<P>> | Legal(cfg, acts) ensures Promised(Run(cfg, acts), t) {
        NoLostDispatch(cfg, acts, t);
      }
    }
  }
}
