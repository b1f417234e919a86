/** Who is in a consumer group, and whose turn it is. */
module WorkQueueRotation {
  import opened Options
  import opened WorkQueueModel
  import opened WorkQueueInvariants
  import opened WorkQueueConservation
  import Rotation

  // ---- Rosters ----------------------------------------------------------------

  /** Every consumer ever registered under key `k`, in registration order. */
  ghost function RegisteredUnder<P>(log: seq<Event<P>>, k: Key): seq<Id>
  {
    if log == [] then []
    else
      var ev := log[|log| - 1];
      RegisteredUnder(log[..|log| - 1], k) + (if ev.Registered? && ev.key == k then [ev.consumer] else [])
  }

  lemma RegisteredSnoc<P>(log: seq<Event<P>>, ev: Event<P>, k: Key)
    ensures RegisteredUnder(log + [ev], k) ==
            if ev.Registered? && ev.key == k then RegisteredUnder(log, k) + [ev.consumer] else RegisteredUnder(log, k)
  {
    assert (log + [ev])[..|log|] == log;
  }

  /** The ids among `xs` that the registry still knows, in order. */
  function Live(xs: seq<Id>, registry: map<Id, Key>): seq<Id>
  {
    if xs == [] then []
    else Live(xs[..|xs| - 1], registry) + (if xs[|xs| - 1] in registry then [xs[|xs| - 1]] else [])
  }

  /** Ids were drawn in increasing order below `bound`; in particular nobody registered twice. */
  ghost predicate Drawn(xs: seq<Id>, bound: Id)
  {
    && (forall i :: 0 <= i < |xs| ==> xs[i] < bound)
    && (forall i, j :: 0 <= i < j < |xs| ==> xs[i] < xs[j])
  }

  lemma {:induction false} LiveAfterRegister(xs: seq<Id>, registry: map<Id, Key>, c: Id, k: Key)
    requires forall i :: 0 <= i < |xs| ==> xs[i] != c
    ensures Live(xs, registry[c := k]) == Live(xs, registry)
  {
    if xs != [] {
      LiveAfterRegister(xs[..|xs| - 1], registry, c, k);
    }
  }

  lemma {:induction false} LiveIsAmong(xs: seq<Id>, registry: map<Id, Key>)
    ensures forall i :: 0 <= i < |Live(xs, registry)| ==> Live(xs, registry)[i] in xs
  {
    if xs != [] {
      LiveIsAmong(xs[..|xs| - 1], registry);
    }
  }

  lemma IndexOfSnoc(xs: seq<Id>, x: Id, c: Id)
    ensures IndexOf(xs + [x], c) == if c in xs then IndexOf(xs, c) else if x == c then |xs| else |xs| + 1
  {
    var ys, i := xs + [x], IndexOf(xs + [x], c);
    assert forall j :: 0 <= j < |xs| ==> ys[j] == xs[j];
    assert ys[|xs|] == x;
  }

  lemma DropFromSnoc(xs: seq<Id>, x: Id, c: Id)
    requires x != c || c !in xs
    ensures DropMember(xs + [x], c) == if x == c then xs else DropMember(xs, c) + [x]
  {
    IndexOfSnoc(xs, x, c);
    hide IndexOf;
    if c in xs {
      var i := IndexOf(xs, c);
      assert (xs + [x])[..i] == xs[..i];
      assert (xs + [x])[i + 1..] == xs[i + 1..] + [x];
      assert xs[..i] + (xs[i + 1..] + [x]) == (xs[..i] + xs[i + 1..]) + [x];
    } else if x == c {
      assert (xs + [x])[..|xs|] == xs && (xs + [x])[|xs| + 1..] == [];
    }
  }

  lemma LiveSnoc(xs: seq<Id>, x: Id, registry: map<Id, Key>)
    ensures Live(xs + [x], registry) == if x in registry then Live(xs, registry) + [x] else Live(xs, registry)
  {
    assert (xs + [x])[..|xs|] == xs;
  }

  lemma {:induction false} LiveAfterRemove(xs: seq<Id>, registry: map<Id, Key>, c: Id, bound: Id)
    requires Drawn(xs, bound)
    ensures Live(xs, registry - {c}) == DropMember(Live(xs, registry), c)
  {
    if xs != [] {
      var init, last := xs[..|xs| - 1], xs[|xs| - 1];
      assert xs == init + [last];
      LiveAfterRemove(init, registry, c, bound);
      LiveSnoc(init, last, registry);
      LiveSnoc(init, last, registry - {c});
      LiveIsAmong(init, registry);
      hide Live, DropMember;
      if last in registry {
        if last == c {
          assert forall i :: 0 <= i < |Live(init, registry)| ==> Live(init, registry)[i] in init;
          AbsentMember(Live(init, registry), c);
        }
        DropFromSnoc(Live(init, registry), last, c);
      }
    }
  }

  lemma {:induction false} NobodyLive(xs: seq<Id>)
    ensures Live(xs, map[]) == []
  {
    if xs != [] {
      NobodyLive(xs[..|xs| - 1]);
    }
  }

  ghost predicate RosterIs<P>(s: State<P>, k: Key)
  {
    && Drawn(RegisteredUnder(s.log, k), s.nextId)
    && MembersIn(s.groups, k) == Live(RegisteredUnder(s.log, k), s.registry)
  }

  /** Blocks that log no registration and keep groups and registry keep the roster. */
  lemma {:induction false} SameRoster<P>(log: seq<Event<P>>, log': seq<Event<P>>, k: Key)
    requires log <= log' && forall i :: |log| <= i < |log'| ==> !log'[i].Registered?
    ensures RegisteredUnder(log', k) == RegisteredUnder(log, k)
    decreases |log'|
  {
    if |log'| == |log| {
      assert log' == log;
    } else {
      SameRoster(log, log'[..|log'| - 1], k);
    }
  }

  lemma {:induction false} DispatchLoopQuiet<P>(cfg: Config, s: State<P>, t: Topic, keys: seq<Key>)
    ensures var s' := DispatchLoop(cfg, s, t, keys);
            && s.log <= s'.log && s'.groups == s.groups && s'.registry == s.registry && s.nextId <= s'.nextId
            && forall i :: |s.log| <= i < |s'.log| ==> !s'.log[i].Registered?
    decreases |Pend(s, t)|
  {
    if Pend(s, t) != [] {
      var m := Pend(s, t)[0];
      var s0 := s.(pending := s.pending[t := Pend(s, t)[1..]]);
      var (s1, calls) := DeliverTo(cfg, s0, m, t, keys, |keys| > 1);
      if calls != [] {
        DispatchLoopQuiet(cfg, LogDispatch(s, s1, t, m, calls), t, keys);
      }
    }
  }

  lemma QuietRoster<P>(s: State<P>, s': State<P>, k: Key)
    requires RosterIs(s, k) && Quiet(s, s')
    ensures RosterIs(s', k)
  {
    SameRoster(s.log, s'.log, k);
  }

  lemma DispatchRoster<P>(cfg: Config, s: State<P>, t: Topic, k: Key)
    requires RosterIs(s, k)
    ensures RosterIs(Dispatch(cfg, s, t), k)
  {
    hide DispatchLoop;
    DispatchLoopQuiet(cfg, s, t, KeysOn(s.groups, t));
    SameRoster(s.log, Dispatch(cfg, s, t).log, k);
  }

  lemma ConsumeRoster<P>(s: State<P>, t: Topic, g: Option<string>, k: Key)
    requires RosterIs(s, k) && DistinctKeys(s.groups)
    ensures RosterIs(Consume(s, t, g), k)
  {
    hide AddMember, MembersIn, Live, RegisteredUnder;
    var own, c, xs := Key(t, GroupName(t, g)), s.nextId, RegisteredUnder(s.log, k);
    RegisteredSnoc(s.log, Registered(own, c), k);
    MembersAfterAdd(s.groups, own, c, k);
    LiveAfterRegister(xs, s.registry, c, own);
    LiveSnoc(xs, c, s.registry[c := own]);
  }

  lemma RemoveRoster<P>(cfg: Config, s: State<P>, c: Id, k: Key)
    requires RosterIs(s, k) && GroupsOk(s)
    ensures RosterIs(RemoveConsumer(s, c), k)
  {
    if c in s.registry {
      var own := s.registry[c];
      assert RosterOk(MembersIn(s.groups, k), s.registry, k);
      assert c in MembersIn(s.groups, own);
      hide GroupTableOk, RosterOk, DropFromGroups, DropMember, Live, MembersIn;
      RegisteredSnoc(s.log, Removed(c), k);
      MembersAfterDrop(s.groups, own, c, k);
      LiveAfterRemove(RegisteredUnder(s.log, k), s.registry, c, s.nextId);
    }
  }

  lemma ApplyRoster<P>(cfg: Config, s: State<P>, a: Action<P>, k: Key)
    requires RosterIs(s, k) && GroupsOk(s)
    ensures RosterIs(Apply(cfg, s, a), k)
  {
    hide RosterIs, Enqueue, Dequeue, Ack, Nack, Sweep, Consume, RemoveConsumer, Dispatch, Clear, GroupTableOk, Quiet;
    match a
    case DoConsume(t, g) => GroupsDistinct(s); ConsumeRoster(s, t, g, k);
    case DoRemove(c) => RemoveRoster(cfg, s, c, k);
    case DoDispatch(t) => DispatchRoster(cfg, s, t, k);
    case DoClear => ClearRoster(s, k);
    case _ =>
      BlockIsQuiet(cfg, s, a);
      QuietRoster(s, Apply(cfg, s, a), k);
  }

  lemma GroupsDistinct<P>(s: State<P>)
    requires GroupsOk(s)
    ensures DistinctKeys(s.groups)
  {
  }

  lemma ClearRoster<P>(s: State<P>, k: Key)
    requires RosterIs(s, k)
    ensures RosterIs(Clear(s), k)
  {
    RegisteredSnoc(s.log, Dropped(s.pending, s.inFlight), k);
    NobodyLive(RegisteredUnder(s.log, k));
  }

  /**
   At every point of every run, each group lists exactly the ids registered under its key that are
   still in the registry: each once, and in registration order.
   */
  lemma {:induction false} RosterIsLiveInOrder<P>(cfg: Config, acts: seq<Action<P>>, k: Key)
    ensures RosterIs(Run(cfg, acts).q, k)
  {
    hide Apply, Shape;
    if acts != [] {
      var init := acts[..|acts| - 1];
      RosterIsLiveInOrder(cfg, init, k);
      RunShape(cfg, init);
      ShapeGroupsOk(cfg, Run(cfg, init).q);
      ApplyRoster(cfg, Run(cfg, init).q, acts[|acts| - 1], k);
    }
  }

  lemma ShapeGroupsOk<P>(cfg: Config, s: State<P>)
    requires Shape(cfg, s)
    ensures GroupsOk(s)
  {
  }

  /** In every run, a consumer that registers becomes the last of the group it names; no other group changes. */
  lemma RegisteredJoins<P>(cfg: Config, acts: seq<Action<P>>, t: Topic, g: Option<string>, k: Key)
    ensures var s := Run(cfg, acts).q;
            var s' := Consume(s, t, g);
            var name := if g.None? || g.value == "" then t + ".default" else g.value;
            && s'.registry == s.registry[s.nextId := Key(t, name)] && s.nextId !in s.registry
            && MembersIn(s'.groups, k) == MembersIn(s.groups, k) + (if k == Key(t, name) then [s.nextId] else [])
  {
    RunShape(cfg, acts);
    hide Run;
    var s := Run(cfg, acts).q;
    ShapeGroupsOk(cfg, s);
    GroupsDistinct(s);
    MembersAfterAdd(s.groups, Key(t, GroupName(t, g)), s.nextId, k);
    hide Shape, MembersIn, AddMember;
  }

  /** In every run, a consumer that is removed is in no group and not in the registry; everybody else stays where he was. */
  lemma RemovedIsGone<P>(cfg: Config, acts: seq<Action<P>>, c: Id, k: Key, other: Id)
    ensures var s := Run(cfg, acts).q;
            var s' := RemoveConsumer(s, c);
            && s'.registry == s.registry - {c} && c !in MembersIn(s'.groups, k)
            && (other != c ==> (other in MembersIn(s'.groups, k) <==> other in MembersIn(s.groups, k)))
  {
    RunShape(cfg, acts);
    hide Run, Shape, MembersIn, GroupsOk, RemoveConsumer;
    ShapeGroupsOk(cfg, Run(cfg, acts).q);
    RemovedFromGroups(Run(cfg, acts).q, c, k, other);
  }

  lemma RemovedFromGroups<P>(s: State<P>, c: Id, k: Key, other: Id)
    requires GroupsOk(s)
    ensures var s' := RemoveConsumer(s, c);
            && s'.registry == s.registry - {c} && c !in MembersIn(s'.groups, k)
            && (other != c ==> (other in MembersIn(s'.groups, k) <==> other in MembersIn(s.groups, k)))
  {
    var own := if c in s.registry then s.registry[c] else k;
    OnRoster(s, c, k);
    GroupsDistinct(s);
    hide GroupTableOk, DistinctKeys, MembersIn, DropFromGroups, DropMember;
    if c in s.registry {
      MembersAfterDrop(s.groups, own, c, k);
      DropMemberFacts(MembersIn(s.groups, k), c);
    }
  }

  lemma OnRoster<P>(s: State<P>, c: Id, k: Key)
    requires GroupsOk(s)
    ensures forall i, j :: 0 <= i < j < |MembersIn(s.groups, k)| ==> MembersIn(s.groups, k)[i] != MembersIn(s.groups, k)[j]
    ensures c in MembersIn(s.groups, k) <==> c in s.registry && s.registry[c] == k
    ensures c in s.registry ==> c in MembersIn(s.groups, s.registry[c])
  {
    assert RosterOk(MembersIn(s.groups, k), s.registry, k);
    hide MembersIn;
  }

  // ---- Turns --------------------------------------------------------------------------

  /** The consumers called, in order, among `calls` to group `k`. */
  ghost function CalledBy(calls: seq<Call>, k: Key): seq<Id>
  {
    if calls == [] then []
    else CalledBy(calls[..|calls| - 1], k) + (if calls[|calls| - 1].key == k then [calls[|calls| - 1].consumer] else [])
  }

  /** The consumers of group `k` whose handlers were called, in order. */
  ghost function Called<P>(log: seq<Event<P>>, k: Key): seq<Id>
  {
    if log == [] then []
    else
      var ev := log[|log| - 1];
      Called(log[..|log| - 1], k) + (if ev.Dispatched? then CalledBy(ev.calls, k) else [])
  }

  lemma CalledSnoc<P>(log: seq<Event<P>>, ev: Event<P>, k: Key)
    ensures Called(log + [ev], k) == Called(log, k) + (if ev.Dispatched? then CalledBy(ev.calls, k) else [])
  {
    assert (log + [ev])[..|log|] == log;
  }

  lemma {:induction false} CalledByCons(c: Call, calls: seq<Call>, k: Key)
    ensures CalledBy([c] + calls, k) == (if c.key == k then [c.consumer] else []) + CalledBy(calls, k)
  {
    if calls == [] {
      assert [c] + calls == [c] && [c][..0] == [];
    } else {
      CalledByCons(c, calls[..|calls| - 1], k);
      assert ([c] + calls)[..|calls|] == [c] + calls[..|calls| - 1];
    }
  }

  lemma {:induction false} OneCall(gs: seq<Group>, rr: map<Key, nat>, keys: seq<Key>, k: Key)
    requires Served(gs, keys) && forall i, j :: 0 <= i < j < |keys| ==> keys[i] != keys[j]
    requires MembersIn(gs, k) != []
    ensures CalledBy(TurnsOf(gs, rr, keys), k) ==
            if k in keys then [MembersIn(gs, k)[IndexFor(rr, k) % |MembersIn(gs, k)|]] else []
    decreases |keys|
  {
    hide MembersIn, CalledBy;
    if keys == [] {
      NoCalls(k);
    } else {
      var members := MembersIn(gs, keys[0]);
      assert members != [];
      var idx := IndexFor(rr, keys[0]) % |members|;
      var rr' := rr[keys[0] := idx + 1];
      OneCall(gs, rr', keys[1..], k);
      CalledByCons(Call(keys[0], members[idx]), TurnsOf(gs, rr', keys[1..]), k);
      assert keys == [keys[0]] + keys[1..];
    }
  }

  lemma NoCalls(k: Key)
    ensures CalledBy([], k) == []
  {
  }

  lemma {:induction false} OneTurnOver(gs: seq<Group>, rr: map<Key, nat>, keys: seq<Key>, k: Key)
    requires Served(gs, keys) && forall i, j :: 0 <= i < j < |keys| ==> keys[i] != keys[j]
    requires MembersIn(gs, k) != []
    ensures IndexFor(TurnedOver(gs, rr, keys), k) ==
            if k in keys then IndexFor(rr, k) % |MembersIn(gs, k)| + 1 else IndexFor(rr, k)
    decreases |keys|
  {
    hide MembersIn;
    if keys != [] {
      var members := MembersIn(gs, keys[0]);
      assert members != [];
      OneTurnOver(gs, rr[keys[0] := IndexFor(rr, keys[0]) % |members| + 1], keys[1..], k);
      assert keys == [keys[0]] + keys[1..];
    }
  }

  /** Since the log was `log0` and the index `start`, group `k` has been served in rotation. */
  ghost predicate InRotation<P>(s: State<P>, log0: seq<Event<P>>, members: seq<Id>, start: nat, k: Key)
  {
    && members != [] && MembersIn(s.groups, k) == members
    && var done := Called(s.log, k);
       var before := Called(log0, k);
       && before <= done
       && (forall i :: |before| <= i < |done| ==>
             done[i] == members[Rotation.Turn(start, i - |before|, |members|)])
       && IndexFor(s.rr, k) == Rotation.QueueIndex(start, |done| - |before|, |members|)
  }

  lemma CalledOnce<P>(s: State<P>, s': State<P>, log0: seq<Event<P>>, members: seq<Id>, start: nat, k: Key)
    requires InRotation(s, log0, members, start, k) && s'.groups == s.groups
    requires Called(s'.log, k) == Called(s.log, k) + [members[IndexFor(s.rr, k) % |members|]]
    requires IndexFor(s'.rr, k) == IndexFor(s.rr, k) % |members| + 1
    ensures InRotation(s', log0, members, start, k)
  {
    Rotation.QueueTakesTurns(start, |Called(s.log, k)| - |Called(log0, k)|, |members|);
  }

  lemma NotCalled<P>(s: State<P>, s': State<P>, log0: seq<Event<P>>, members: seq<Id>, start: nat, k: Key)
    requires InRotation(s, log0, members, start, k) && MembersIn(s'.groups, k) == members
    requires Called(s'.log, k) == Called(s.log, k) && IndexFor(s'.rr, k) == IndexFor(s.rr, k)
    ensures InRotation(s', log0, members, start, k)
  {
  }

  lemma {:induction false} KeysOnDistinct(gs: seq<Group>, t: Topic)
    requires DistinctKeys(gs)
    ensures forall i, j :: 0 <= i < j < |KeysOn(gs, t)| ==> KeysOn(gs, t)[i] != KeysOn(gs, t)[j]
  {
    if gs != [] {
      KeysOnDistinct(gs[1..], t);
      forall i | 0 <= i < |KeysOn(gs[1..], t)| ensures KeysOn(gs[1..], t)[i] != gs[0].key {
        KeysOnAreKeys(gs[1..], t, KeysOn(gs[1..], t)[i]);
      }
    }
  }

  lemma HeadInRotation<P>(cfg: Config, s: State<P>, t: Topic, keys: seq<Key>,
                          log0: seq<Event<P>>, members: seq<Id>, start: nat, k: Key)
    requires InRotation(s, log0, members, start, k) && Pend(s, t) != []
    requires Served(s.groups, keys) && forall i, j :: 0 <= i < j < |keys| ==> keys[i] != keys[j]
    ensures InRotation(AfterHead(cfg, s, t, keys), log0, members, start, k)
  {
    var s' := AfterHead(cfg, s, t, keys);
    CalledSnoc(s.log, HeadEvent(cfg, s, t, keys), k);
    OneCall(s.groups, s.rr, keys, k);
    OneTurnOver(s.groups, s.rr, keys, k);
    hide InRotation;
    if k in keys {
      CalledOnce(s, s', log0, members, start, k);
    } else {
      NotCalled(s, s', log0, members, start, k);
    }
  }

  lemma {:induction false} DispatchLoopInRotation<P>(cfg: Config, s: State<P>, t: Topic, keys: seq<Key>,
                                                     log0: seq<Event<P>>, members: seq<Id>, start: nat, k: Key)
    requires InRotation(s, log0, members, start, k) && keys != []
    requires Served(s.groups, keys) && forall i, j :: 0 <= i < j < |keys| ==> keys[i] != keys[j]
    ensures InRotation(DispatchLoop(cfg, s, t, keys), log0, members, start, k)
    decreases |Pend(s, t)|
  {
    hide InRotation;
    if Pend(s, t) != [] {
      HeadIsTaken(cfg, s, t, keys);
      HeadInRotation(cfg, s, t, keys, log0, members, start, k);
      DispatchLoopInRotation(cfg, AfterHead(cfg, s, t, keys), t, keys, log0, members, start, k);
    }
  }

  lemma {:induction false} SameCalled<P>(log: seq<Event<P>>, log': seq<Event<P>>, k: Key)
    requires log <= log' && forall i :: |log| <= i < |log'| ==> log'[i].Dispatched? ==> log'[i].calls == []
    ensures Called(log', k) == Called(log, k)
    decreases |log'|
  {
    if |log'| == |log| {
      assert log' == log;
    } else {
      SameCalled(log, log'[..|log'| - 1], k);
    }
  }

  lemma QuietInRotation<P>(s: State<P>, s': State<P>, log0: seq<Event<P>>, members: seq<Id>, start: nat, k: Key)
    requires InRotation(s, log0, members, start, k) && Quiet(s, s')
    ensures InRotation(s', log0, members, start, k)
  {
    SameCalled(s.log, s'.log, k);
  }

  lemma MembersOf<P>(s: State<P>, log0: seq<Event<P>>, members: seq<Id>, start: nat, k: Key)
    requires InRotation(s, log0, members, start, k)
    ensures members != [] && MembersIn(s.groups, k) == members
  {
  }

  /** A registration that leaves group `k` as it is leaves its turns as they are. */
  lemma ConsumeInRotation<P>(s: State<P>, t: Topic, g: Option<string>,
                             log0: seq<Event<P>>, members: seq<Id>, start: nat, k: Key)
    requires InRotation(s, log0, members, start, k) && MembersIn(Consume(s, t, g).groups, k) == members
    ensures InRotation(Consume(s, t, g), log0, members, start, k)
  {
    hide InRotation, MembersIn, AddMember;
    SameCalled(s.log, Consume(s, t, g).log, k);
    NotCalled(s, Consume(s, t, g), log0, members, start, k);
  }

  /** So does a removal: it takes nobody out of `k`, so it is from another group or of nobody. */
  lemma RemoveInRotation<P>(s: State<P>, c: Id, log0: seq<Event<P>>, members: seq<Id>, start: nat, k: Key)
    requires InRotation(s, log0, members, start, k) && GroupsOk(s) && MembersIn(RemoveConsumer(s, c).groups, k) == members
    ensures InRotation(RemoveConsumer(s, c), log0, members, start, k)
  {
    hide InRotation, MembersIn, GroupTableOk, DropFromGroups, DropMember;
    if c in s.registry {
      MembersOf(s, log0, members, start, k);
      FromAnother(s, c, k);
      SameCalled(s.log, RemoveConsumer(s, c).log, k);
      NotCalled(s, RemoveConsumer(s, c), log0, members, start, k);
    }
  }

  lemma FromAnother<P>(s: State<P>, c: Id, k: Key)
    requires GroupsOk(s) && c in s.registry && MembersIn(RemoveConsumer(s, c).groups, k) == MembersIn(s.groups, k)
    ensures s.registry[c] != k
  {
    var own := s.registry[c];
    assert RosterOk(MembersIn(s.groups, k), s.registry, k) && c in MembersIn(s.groups, own);
    GroupsDistinct(s);
    hide GroupTableOk, RosterOk, DistinctKeys, MembersIn, DropFromGroups;
    if own == k {
      MembersAfterDrop(s.groups, own, c, k);
      DropMemberFacts(MembersIn(s.groups, k), c);
      hide DropMember;
      assert false;
    }
  }

  lemma DispatchInRotation<P>(cfg: Config, s: State<P>, t: Topic,
                              log0: seq<Event<P>>, members: seq<Id>, start: nat, k: Key)
    requires InRotation(s, log0, members, start, k) && DistinctKeys(s.groups) && NoneEmpty(s.groups)
    ensures InRotation(Dispatch(cfg, s, t), log0, members, start, k)
  {
    hide InRotation;
    GroupsAreServed(s.groups, t);
    KeysOnDistinct(s.groups, t);
    if KeysOn(s.groups, t) != [] {
      DispatchLoopInRotation(cfg, s, t, KeysOn(s.groups, t), log0, members, start, k);
    }
  }

  lemma ApplyInRotation<P>(cfg: Config, s: State<P>, a: Action<P>,
                           log0: seq<Event<P>>, members: seq<Id>, start: nat, k: Key)
    requires InRotation(s, log0, members, start, k) && GroupsOk(s) && MembersIn(Apply(cfg, s, a).groups, k) == members
    ensures InRotation(Apply(cfg, s, a), log0, members, start, k)
  {
    hide InRotation, Quiet, GroupTableOk, MembersIn, Enqueue, Dequeue, Ack, Nack, Sweep, Consume, RemoveConsumer, Dispatch;
    match a
    case DoConsume(t, g) => ConsumeInRotation(s, t, g, log0, members, start, k);
    case DoRemove(c) => RemoveInRotation(s, c, log0, members, start, k);
    case DoDispatch(t) =>
      GroupsFormed(s);
      DispatchInRotation(cfg, s, t, log0, members, start, k);
    case DoClear =>
      MembersOf(s, log0, members, start, k);
      ClearedGroups(s, k);
      assert false;
    case _ =>
      BlockIsQuiet(cfg, s, a);
      QuietInRotation(s, Apply(cfg, s, a), log0, members, start, k);
  }

  lemma GroupsFormed<P>(s: State<P>)
    requires GroupsOk(s)
    ensures DistinctKeys(s.groups) && NoneEmpty(s.groups)
  {
  }

  lemma ClearedGroups<P>(s: State<P>, k: Key)
    ensures MembersIn(Clear(s).groups, k) == []
  {
  }

  /** The members of group `k` after `acts` and the first `n` steps of `more`. */
  ghost function MembersAfter<P>(cfg: Config, acts: seq<Action<P>>, more: seq<Action<P>>, n: nat, k: Key): seq<Id>
    requires n <= |more|
  {
    MembersIn(Run(cfg, acts + more[..n]).q.groups, k)
  }

  /** At every point of `more`, when that follows `acts`, group `k` has the members it had after `acts`. */
  ghost predicate MembersStay<P>(cfg: Config, acts: seq<Action<P>>, more: seq<Action<P>>, k: Key)
  {
    forall n :: 0 <= n <= |more| ==> MembersAfter(cfg, acts, more, n, k) == MembersIn(Run(cfg, acts).q.groups, k)
  }

  lemma MembersStayed<P>(cfg: Config, acts: seq<Action<P>>, more: seq<Action<P>>, k: Key)
    requires more != [] && MembersStay(cfg, acts, more, k)
    ensures MembersStay(cfg, acts, more[..|more| - 1], k)
    ensures MembersIn(Run(cfg, acts + more).q.groups, k) == MembersIn(Run(cfg, acts).q.groups, k)
  {
    hide Run, MembersIn;
    var init := more[..|more| - 1];
    forall n | 0 <= n <= |init| ensures MembersAfter(cfg, acts, init, n, k) == MembersIn(Run(cfg, acts).q.groups, k) {
      assert init[..n] == more[..n];
      assert MembersAfter(cfg, acts, more, n, k) == MembersIn(Run(cfg, acts).q.groups, k);
    }
    assert more[..|more|] == more;
    assert MembersAfter(cfg, acts, more, |more|, k) == MembersIn(Run(cfg, acts).q.groups, k);
  }

  /**
   While the members of a group stay the same, whatever happens to other groups, the calls to it go
   round them in order: the i-th call since then is to member (start + i) mod n, where start is the
   index stored at that point.
   */
  lemma {:induction false} CallsRotate<P>(cfg: Config, acts: seq<Action<P>>, more: seq<Action<P>>, k: Key)
    requires MembersIn(Run(cfg, acts).q.groups, k) != [] && MembersStay(cfg, acts, more, k)
    ensures var s := Run(cfg, acts).q;
            InRotation(Run(cfg, acts + more).q, s.log, MembersIn(s.groups, k), IndexFor(s.rr, k), k)
  {
    hide Run, Apply, Shape, InRotation, MembersIn;
    var s := Run(cfg, acts).q;
    if more == [] {
      assert acts + more == acts;
      StartsInRotation(s, k);
    } else {
      var init, last := more[..|more| - 1], more[|more| - 1];
      MembersStayed(cfg, acts, more, k);
      CallsRotate(cfg, acts, init, k);
      assert acts + more == (acts + init) + [last];
      RunSnoc(cfg, acts + init, last);
      RunShape(cfg, acts + init);
      ShapeGroupsOk(cfg, Run(cfg, acts + init).q);
      hide MembersStay, GroupTableOk;
      ApplyInRotation(cfg, Run(cfg, acts + init).q, last, s.log, MembersIn(s.groups, k), IndexFor(s.rr, k), k);
    }
  }

  lemma StartsInRotation<P>(s: State<P>, k: Key)
    requires MembersIn(s.groups, k) != []
    ensures InRotation(s, s.log, MembersIn(s.groups, k), IndexFor(s.rr, k), k)
  {
  }

  // ---- Fairness -----------------------------------------------------------------------

  function Occurrences(xs: seq<Id>, x: Id): nat
  {
    if xs == [] then 0 else Occurrences(xs[..|xs| - 1], x) + (if xs[|xs| - 1] == x then 1 else 0)
  }

  lemma {:induction false} OccurrencesAreShares(calls: seq<Id>, members: seq<Id>, start: nat, place: nat)
    requires place < |members|
    requires forall i, j :: 0 <= i < j < |members| ==> members[i] != members[j]
    requires forall i :: 0 <= i < |calls| ==> calls[i] == members[Rotation.Turn(start, i, |members|)]
    ensures Occurrences(calls, members[place]) == Rotation.Share(start, |members|, place, |calls|)
  {
    if calls != [] {
      OccurrencesAreShares(calls[..|calls| - 1], members, start, place);
    }
  }

  lemma RotationIsFair<P>(s: State<P>, log0: seq<Event<P>>, members: seq<Id>, start: nat, k: Key, place: nat)
    requires InRotation(s, log0, members, start, k) && place < |members|
    requires forall i, j :: 0 <= i < j < |members| ==> members[i] != members[j]
    ensures var before, after := Called(log0, k), Called(s.log, k);
            && before <= after
            && var calls, n := after[|before|..], |members|;
               |calls| / n <= Occurrences(calls, members[place]) <= (|calls| + n - 1) / n
  {
    hide Called;
    var calls := Called(s.log, k)[|Called(log0, k)|..];
    OccurrencesAreShares(calls, members, start, place);
    Rotation.FairShare(start, |members|, place, |calls|);
  }

  /** While the members of a group stay the same, k calls give each of the n members floor(k/n) or ceiling(k/n). */
  lemma CallsAreFair<P>(cfg: Config, acts: seq<Action<P>>, more: seq<Action<P>>, k: Key, place: nat)
    requires place < |MembersIn(Run(cfg, acts).q.groups, k)|
    requires MembersStay(cfg, acts, more, k)
    ensures var members := MembersIn(Run(cfg, acts).q.groups, k);
            var before, after := Called(Run(cfg, acts).q.log, k), Called(Run(cfg, acts + more).q.log, k);
            && before <= after
            && var calls, n := after[|before|..], |members|;
               |calls| / n <= Occurrences(calls, members[place]) <= (|calls| + n - 1) / n
  {
    hide Run, Shape, InRotation, Called;
    var s := Run(cfg, acts).q;
    var members := MembersIn(s.groups, k);
    CallsRotate(cfg, acts, more, k);
    RunShape(cfg, acts);
    ShapeGroupsOk(cfg, s);
    assert RosterOk(members, s.registry, k);
    hide GroupTableOk, MembersIn, Occurrences;
    RotationIsFair(Run(cfg, acts + more).q, s.log, members, IndexFor(s.rr, k), k, place);
  }
}
