/**
 One task execution in SEQUENTIAL mode, with observers that may change the context they are given
 and may raise.  An exception is a value: try, except, else and finally are written out.
 */
module TaskLifecycle {
  import opened Options

  type Value = int
  type Exc = nat

  datatype Context = Context(result: Option<Value>, error: Option<Exc>, ended: bool)
  datatype Reaction = Reaction(ctx: Context, raised: Option<Exc>)
  type Observer = Context -> Reaction

  datatype Channel = Start | Success | Failure | Complete
  datatype Body = Gives(value: Value) | Throws(exc: Exc)

  /** In the order they happen; `Sends` is the attempt to publish the result. */
  datatype Event =
    | Fires(channel: Channel)
    | Calls(channel: Channel, i: nat, seen: Context)
    | Sends(channel: Channel)

  datatype Outcome = Returned(value: Option<Value>) | Raised(exc: Exc)

  datatype Firing = Firing(events: seq<Event>, ctx: Context, raised: Option<Exc>)

  /** Broadcasting to the observers from the i-th on: the first exception ends it. */
  function Broadcast(channel: Channel, observers: seq<Observer>, i: nat, ctx: Context): Firing
    requires i <= |observers|
    decreases |observers| - i
  {
    if i == |observers| then Firing([], ctx, None)
    else
      var reaction := observers[i](ctx);
      if reaction.raised.Some? then Firing([Calls(channel, i, ctx)], reaction.ctx, reaction.raised)
      else
        var rest := Broadcast(channel, observers, i + 1, reaction.ctx);
        rest.(events := [Calls(channel, i, ctx)] + rest.events)
  }

  datatype Observers = Observers(start: seq<Observer>, success: seq<Observer>, failure: seq<Observer>, complete: seq<Observer>)

  function On(o: Observers, channel: Channel): seq<Observer>
  {
    match channel case Start => o.start case Success => o.success case Failure => o.failure case Complete => o.complete
  }

  const FRESH := Context(None, None, false)

  class TaskRunner {
    const observers: Observers
    const publishes: bool  // publish_result is set and there is a queue
    var ctx: Context
    var trace: seq<Event>

    constructor (observers: Observers, publishes: bool)
      ensures this.observers == observers && this.publishes == publishes && ctx == FRESH && trace == []
    {
      this.observers, this.publishes, ctx, trace := observers, publishes, FRESH, [];
    }

    /** `Eventful.fire`. */
    method Fire(channel: Channel) returns (raised: Option<Exc>)
      modifies this
      ensures var firing := Broadcast(channel, On(observers, channel), 0, old(ctx));
              trace == old(trace) + [Fires(channel)] + firing.events && ctx == firing.ctx && raised == firing.raised
    {
      trace := trace + [Fires(channel)];
      var subscribers := On(observers, channel);
      ghost var firing := Broadcast(channel, subscribers, 0, ctx);
      ghost var before := trace;
      for i := 0 to |subscribers|
        invariant var rest := Broadcast(channel, subscribers, i, ctx);
                  trace + rest.events == before + firing.events && rest.ctx == firing.ctx && rest.raised == firing.raised
      {
        trace := trace + [Calls(channel, i, ctx)];
        var reaction := subscribers[i](ctx);
        ctx := reaction.ctx;
        if reaction.raised.Some? {
          return reaction.raised;
        }
      }
      raised := None;
    }

    /** The try statement of `_execute` without its finally: what it would return or raise. */
    method RunBody(body: Body) returns (outcome: Outcome)
      modifies this
      ensures var firing := Broadcast(Verdict(body), On(observers, Verdict(body)), 0, AfterBody(old(ctx), body));
              && trace == old(trace) + ([Fires(Verdict(body))] + firing.events + Sending(publishes, body, firing))
              && ctx == firing.ctx
              && outcome == Tried(body, firing)
    {
      hide Broadcast;
      var raised;
      match body
      case Throws(exc) =>
        ctx := ctx.(error := Some(exc), ended := true);
        raised := Fire(Failure);
        if raised.Some? {
          return Raised(raised.value);
        }
        if publishes {
          trace := trace + [Sends(Failure)];
        }
        outcome := Raised(exc);
      case Gives(value) =>
        ctx := ctx.(result := Some(value));
        ctx := ctx.(ended := true);
        raised := Fire(Success);
        if raised.Some? {
          return Raised(raised.value);
        }
        if publishes {
          trace := trace + [Sends(Success)];
        }
        outcome := Returned(ctx.result);
    }

    /** `_execute`. */
    method Execute(body: Body) returns (outcome: Outcome)
      modifies this
      ensures trace == old(trace) + Events(observers, publishes, body)
      ensures outcome == Ending(observers, body)
    {
      hide Broadcast, Verdict, AfterBody, Sending;
      ctx := FRESH;
      var raised := Fire(Start);
      if raised.Some? {
        return Raised(raised.value);
      }
      outcome := RunBody(body);
      raised := Fire(Complete);
      Assemble(old(trace), StartFiring(observers).events,
        [Fires(Verdict(body))] + VerdictFiring(observers, body).events + Sending(publishes, body, VerdictFiring(observers, body)),
        CompleteFiring(observers, body).events);
      if raised.Some? {
        outcome := Raised(raised.value);
      }
    }
  }

  lemma Assemble(before: seq<Event>, started: seq<Event>, tried: seq<Event>, completed: seq<Event>)
    ensures before + [Fires(Start)] + started + tried + [Fires(Complete)] + completed
         == before + ([Fires(Start)] + started + (tried + [Fires(Complete)] + completed))
  {
  }

  // ---- The specification ------------------------------------------------------------------

  function Verdict(body: Body): Channel
  {
    if body.Gives? then Success else Failure
  }

  function AfterBody(ctx: Context, body: Body): Context
  {
    match body
    case Gives(value) => ctx.(result := Some(value), ended := true)
    case Throws(exc) => ctx.(error := Some(exc), ended := true)
  }

  /** The three firings, as they would follow each other. */
  function StartFiring(o: Observers): Firing { Broadcast(Start, o.start, 0, FRESH) }
  function VerdictFiring(o: Observers, body: Body): Firing { Broadcast(Verdict(body), On(o, Verdict(body)), 0, AfterBody(StartFiring(o).ctx, body)) }
  function CompleteFiring(o: Observers, body: Body): Firing { Broadcast(Complete, o.complete, 0, VerdictFiring(o, body).ctx) }

  /** The result is sent if it is to be and no observer of the verdict raised; a failure to send is swallowed. */
  function Sending(publishes: bool, body: Body, verdict: Firing): seq<Event>
  {
    if publishes && verdict.raised.None? then [Sends(Verdict(body))] else []
  }

  function Tried(body: Body, verdict: Firing): Outcome
  {
    if verdict.raised.Some? then Raised(verdict.raised.value)
    else if body.Throws? then Raised(body.exc)
    else Returned(verdict.ctx.result)
  }

  function Events(o: Observers, publishes: bool, body: Body): seq<Event>
  {
    [Fires(Start)] + StartFiring(o).events +
    if StartFiring(o).raised.Some? then []
    else
      [Fires(Verdict(body))] + VerdictFiring(o, body).events
      + Sending(publishes, body, VerdictFiring(o, body))
      + [Fires(Complete)] + CompleteFiring(o, body).events
  }

  /** Every exception that observers or the body raise, in order. */
  function Exceptions(o: Observers, body: Body): seq<Exc>
  {
    if StartFiring(o).raised.Some? then [StartFiring(o).raised.value]
    else
      (if body.Throws? then [body.exc] else [])
      + (if VerdictFiring(o, body).raised.Some? then [VerdictFiring(o, body).raised.value] else [])
      + (if CompleteFiring(o, body).raised.Some? then [CompleteFiring(o, body).raised.value] else [])
  }

  /** The last exception comes out; with none, the result as the success observers left it. */
  function Ending(o: Observers, body: Body): Outcome
  {
    var all := Exceptions(o, body);
    if all != [] then Raised(all[|all| - 1]) else Returned(VerdictFiring(o, body).ctx.result)
  }

  // ---- What follows for every choice of observers and body ---------------------------------

  /** The channels fired, in order. */
  function Fired(events: seq<Event>): seq<Channel>
  {
    if events == [] then []
    else
      (if events[0].Fires? then [events[0].channel] else []) + Fired(events[1..])
  }

  lemma {:induction false} FiredConcat(a: seq<Event>, b: seq<Event>)
    ensures Fired(a + b) == Fired(a) + Fired(b)
  {
    if a == [] {
      assert a + b == b;
    } else {
      assert (a + b)[1..] == a[1..] + b;
      FiredConcat(a[1..], b);
      Reassociate(if a[0].Fires? then [a[0].channel] else [], Fired(a[1..]), Fired(b));
    }
  }

  lemma Reassociate(a: seq<Channel>, b: seq<Channel>, c: seq<Channel>)
    ensures (a + b) + c == a + (b + c)
  {
  }

  lemma FiredOne(event: Event)
    ensures Fired([event]) == if event.Fires? then [event.channel] else []
  {
    assert [event][1..] == [];
  }

  lemma {:induction false} BroadcastFiresNothing(channel: Channel, observers: seq<Observer>, i: nat, ctx: Context)
    requires i <= |observers|
    ensures Fired(Broadcast(channel, observers, i, ctx).events) == []
    decreases |observers| - i
  {
    if i < |observers| {
      BroadcastFiresNothing(channel, observers, i + 1, observers[i](ctx).ctx);
      var rest := Broadcast(channel, observers, i + 1, observers[i](ctx).ctx).events;
      assert ([Calls(channel, i, ctx)] + rest)[1..] == rest;
    }
  }

  /** Some observer raises when the broadcast gets to it. */
  ghost predicate SomeoneRaises(firing: Firing)
  {
    firing.raised.Some?
  }

  /**
   Whatever raises: `start` alone if one of its observers raised, and otherwise `start`, the one of
   `success` and `failure` that the body decided, and `complete`, each once.
   */
  lemma ChannelsFired(o: Observers, publishes: bool, body: Body)
    ensures Fired(Events(o, publishes, body))
         == if SomeoneRaises(StartFiring(o)) then [Start] else [Start, if body.Gives? then Success else Failure, Complete]
  {
    BroadcastFiresNothing(Start, o.start, 0, FRESH);
    BroadcastFiresNothing(Verdict(body), On(o, Verdict(body)), 0, AfterBody(StartFiring(o).ctx, body));
    BroadcastFiresNothing(Complete, o.complete, 0, VerdictFiring(o, body).ctx);
    var a, v, c := StartFiring(o), VerdictFiring(o, body), CompleteFiring(o, body);
    hide Broadcast, StartFiring, VerdictFiring, CompleteFiring, On, AfterBody;
    var sent := Sending(publishes, body, v);
    var rest := if a.raised.Some? then [] else [Fires(Verdict(body))] + v.events + sent + [Fires(Complete)] + c.events;
    assert Events(o, publishes, body) == [Fires(Start)] + a.events + rest;
    FirstPart(a.events, rest);
    if a.raised.None? {
      hide Fired;
      SecondPart(Verdict(body), v.events, sent, c.events);
    }
  }

  lemma FirstPart(observed: seq<Event>, rest: seq<Event>)
    requires Fired(observed) == []
    ensures Fired([Fires(Start)] + observed + rest) == [Start] + Fired(rest)
  {
    FiredOne(Fires(Start));
    hide Fired;
    FiredConcat([Fires(Start)], observed);
    FiredConcat([Fires(Start)] + observed, rest);
  }

  lemma SecondPart(verdict: Channel, observed: seq<Event>, sent: seq<Event>, completed: seq<Event>)
    requires Fired(observed) == [] && Fired(completed) == [] && sent <= [Sends(verdict)]
    ensures Fired([Fires(verdict)] + observed + sent + [Fires(Complete)] + completed) == [verdict, Complete]
  {
    FiredOne(Fires(verdict));
    FiredOne(Sends(verdict));
    FiredOne(Fires(Complete));
    assert Fired(sent) == [];
    hide Fired;
    FiredConcat([Fires(verdict)], observed);
    FiredConcat([Fires(verdict)] + observed, sent);
    FiredConcat([Fires(verdict)] + observed + sent, [Fires(Complete)]);
    FiredConcat([Fires(verdict)] + observed + sent + [Fires(Complete)], completed);
  }

  /** A broadcast calls a prefix of the observers in order, all of them if nobody raises. */
  lemma {:induction false} BroadcastIsOrdered(channel: Channel, observers: seq<Observer>, i: nat, ctx: Context)
    requires i <= |observers|
    ensures var f := Broadcast(channel, observers, i, ctx);
            && |f.events| <= |observers| - i
            && (f.raised.None? ==> |f.events| == |observers| - i)
            && (forall k :: 0 <= k < |f.events| ==> f.events[k].Calls? && f.events[k].channel == channel && f.events[k].i == i + k)
    decreases |observers| - i
  {
    if i < |observers| {
      BroadcastIsOrdered(channel, observers, i + 1, observers[i](ctx).ctx);
    }
  }

  /** The k-th call of a broadcast found `seen`, and made of it what the next call found, or the broadcast's end. */
  ghost predicate PassedOn(observers: seq<Observer>, i: nat, f: Firing, k: nat)
    requires k < |f.events| <= |observers| - i && forall j :: 0 <= j < |f.events| ==> f.events[j].Calls?
  {
    var reaction := observers[i + k](f.events[k].seen);
    if k == |f.events| - 1 then reaction == Reaction(f.ctx, f.raised)
    else reaction == Reaction(f.events[k + 1].seen, None)
  }

  lemma {:induction false} BroadcastPassesOn(channel: Channel, observers: seq<Observer>, i: nat, ctx: Context, k: nat)
    requires i <= |observers| && k < |Broadcast(channel, observers, i, ctx).events|
    ensures var f := Broadcast(channel, observers, i, ctx);
            && |f.events| <= |observers| - i
            && (forall j :: 0 <= j < |f.events| ==> f.events[j].Calls?)
            && f.events[0].seen == ctx
            && PassedOn(observers, i, f, k)
    decreases |observers| - i
  {
    BroadcastIsOrdered(channel, observers, i, ctx);
    var reaction := observers[i](ctx);
    if reaction.raised.None? && i + 1 < |observers| {
      BroadcastIsOrdered(channel, observers, i + 1, reaction.ctx);
      BroadcastPassesOn(channel, observers, i + 1, reaction.ctx, if k > 0 then k - 1 else 0);
    }
  }

  /** A value is returned exactly if nothing raised; then the body gave one and every observer of the three channels ran. */
  lemma ValueOnlyIfNothingRaised(o: Observers, body: Body)
    ensures Ending(o, body).Returned? <==>
            (body.Gives? && !SomeoneRaises(StartFiring(o)) && !SomeoneRaises(VerdictFiring(o, body)) && !SomeoneRaises(CompleteFiring(o, body)))
    ensures Ending(o, body).Returned? ==>
            |StartFiring(o).events| == |o.start| && |VerdictFiring(o, body).events| == |o.success| && |CompleteFiring(o, body).events| == |o.complete|
  {
    BroadcastIsOrdered(Start, o.start, 0, FRESH);
    BroadcastIsOrdered(Verdict(body), On(o, Verdict(body)), 0, AfterBody(StartFiring(o).ctx, body));
    BroadcastIsOrdered(Complete, o.complete, 0, VerdictFiring(o, body).ctx);
    hide Broadcast;
  }

  /** The exception that comes out is the last one raised: of complete, else of the verdict's observers, else the body's; or of start. */
  lemma LastExceptionComesOut(o: Observers, body: Body)
    ensures var a, v, c := StartFiring(o).raised, VerdictFiring(o, body).raised, CompleteFiring(o, body).raised;
            && (a.Some? ==> Ending(o, body) == Raised(a.value))
            && (a.None? && c.Some? ==> Ending(o, body) == Raised(c.value))
            && (a.None? && c.None? && v.Some? ==> Ending(o, body) == Raised(v.value))
            && (a.None? && c.None? && v.None? && body.Throws? ==> Ending(o, body) == Raised(body.exc))
  {
    hide Broadcast, StartFiring, VerdictFiring, CompleteFiring;
  }

  ghost predicate KeepsResult(observer: Observer)
  {
    forall ctx :: observer(ctx).ctx.result == ctx.result
  }

  lemma {:induction false} BroadcastKeepsResult(channel: Channel, observers: seq<Observer>, i: nat, ctx: Context)
    requires i <= |observers| && forall k :: 0 <= k < |observers| ==> KeepsResult(observers[k])
    ensures Broadcast(channel, observers, i, ctx).ctx.result == ctx.result
    decreases |observers| - i
  {
    if i < |observers| {
      assert KeepsResult(observers[i]);
      BroadcastKeepsResult(channel, observers, i + 1, observers[i](ctx).ctx);
    }
  }

  /** What is returned is what the body gave, unless a success observer replaced it; `complete` comes too late to. */
  lemma ReturnedIsBodysValue(o: Observers, body: Body)
    requires forall k :: 0 <= k < |o.success| ==> KeepsResult(o.success[k])
    ensures Ending(o, body).Returned? ==> body.Gives? && Ending(o, body) == Returned(Some(body.value))
  {
    ValueOnlyIfNothingRaised(o, body);
    if body.Gives? {
      BroadcastKeepsResult(Success, o.success, 0, AfterBody(StartFiring(o).ctx, body));
    }
    hide Broadcast;
  }

  // ---- What observers see -----------------------------------------------------------------

  /** Every observer call is one of the three firings', and the latter two happen only if no start observer raised. */
  lemma CallsComeFrom(o: Observers, publishes: bool, body: Body, ev: Event)
    requires ev in Events(o, publishes, body) && ev.Calls?
    ensures ev.channel == Start ==> ev in StartFiring(o).events
    ensures ev.channel == Success || ev.channel == Failure ==>
              ev.channel == Verdict(body) && !SomeoneRaises(StartFiring(o)) && ev in VerdictFiring(o, body).events
    ensures ev.channel == Complete ==> !SomeoneRaises(StartFiring(o)) && ev in CompleteFiring(o, body).events
  {
    BroadcastIsOrdered(Start, o.start, 0, FRESH);
    BroadcastIsOrdered(Verdict(body), On(o, Verdict(body)), 0, AfterBody(StartFiring(o).ctx, body));
    BroadcastIsOrdered(Complete, o.complete, 0, VerdictFiring(o, body).ctx);
    var a, v, c := StartFiring(o), VerdictFiring(o, body), CompleteFiring(o, body);
    hide Broadcast, StartFiring, VerdictFiring, CompleteFiring, AfterBody, On;
  }

  lemma FirstCall(channel: Channel, observers: seq<Observer>, ctx: Context, ev: Event)
    requires ev in Broadcast(channel, observers, 0, ctx).events && ev.Calls? && ev.i == 0
    ensures ev.seen == ctx
  {
    BroadcastIsOrdered(channel, observers, 0, ctx);
    BroadcastPassesOn(channel, observers, 0, ctx, 0);
    var f := Broadcast(channel, observers, 0, ctx);
    var k :| 0 <= k < |f.events| && f.events[k] == ev;
  }

  /**
   The first start observer finds an empty context.  The first observer of the verdict finds the task
   ended, with the body's value as its result and whatever error was there, or with the body's exception
   as its error and whatever result was there, as the start observers left it.
   */
  lemma FirstOnesSee(o: Observers, publishes: bool, body: Body, ev: Event)
    requires ev in Events(o, publishes, body) && ev.Calls? && ev.i == 0
    ensures ev.channel == Start ==> ev.seen == Context(None, None, false)
    ensures ev.channel == Success ==>
              body.Gives? && ev.seen == Context(Some(body.value), StartFiring(o).ctx.error, true)
    ensures ev.channel == Failure ==>
              body.Throws? && ev.seen == Context(StartFiring(o).ctx.result, Some(body.exc), true)
  {
    CallsComeFrom(o, publishes, body, ev);
    hide Broadcast, Events;
    if ev.channel == Start {
      FirstCall(Start, o.start, FRESH, ev);
    } else if ev.channel == Success || ev.channel == Failure {
      FirstCall(Verdict(body), On(o, Verdict(body)), AfterBody(StartFiring(o).ctx, body), ev);
    }
  }

  /** The first observers are called: the start observer always, that of the verdict unless a start observer raised. */
  lemma FirstOnesAreCalled(o: Observers, publishes: bool, body: Body)
    ensures o.start != [] ==> exists ev :: ev in Events(o, publishes, body) && ev.Calls? && ev.channel == Start && ev.i == 0
    ensures !SomeoneRaises(StartFiring(o)) && On(o, Verdict(body)) != [] ==>
              exists ev :: ev in Events(o, publishes, body) && ev.Calls? && ev.channel == Verdict(body) && ev.i == 0
  {
    if o.start != [] {
      CalledFirst(Start, o.start, FRESH);
      assert Calls(Start, 0, FRESH) in Events(o, publishes, body);
    }
    var ctx := AfterBody(StartFiring(o).ctx, body);
    if !SomeoneRaises(StartFiring(o)) && On(o, Verdict(body)) != [] {
      CalledFirst(Verdict(body), On(o, Verdict(body)), ctx);
      hide Broadcast, AfterBody;
      assert Calls(Verdict(body), 0, ctx) in VerdictFiring(o, body).events;
      assert Calls(Verdict(body), 0, ctx) in Events(o, publishes, body);
    }
  }

  lemma CalledFirst(channel: Channel, observers: seq<Observer>, ctx: Context)
    requires observers != []
    ensures Calls(channel, 0, ctx) in Broadcast(channel, observers, 0, ctx).events
  {
    var f := Broadcast(channel, observers, 0, ctx);
    assert f.events[0] == Calls(channel, 0, ctx);
  }

  ghost predicate KeepsError(observer: Observer)
  {
    forall ctx :: observer(ctx).ctx.error == ctx.error
  }

  lemma {:induction false} BroadcastKeepsError(channel: Channel, observers: seq<Observer>, i: nat, ctx: Context)
    requires i <= |observers| && forall k :: 0 <= k < |observers| ==> KeepsError(observers[k])
    ensures var f := Broadcast(channel, observers, i, ctx);
            f.ctx.error == ctx.error && forall ev :: ev in f.events && ev.Calls? ==> ev.seen.error == ctx.error
    decreases |observers| - i
  {
    if i < |observers| {
      assert KeepsError(observers[i]);
      BroadcastKeepsError(channel, observers, i + 1, observers[i](ctx).ctx);
    }
  }

  /** If failure observers leave the error alone, every failure and, if they do too, every complete observer sees the body's exception. */
  lemma EveryoneSeesTheError(o: Observers, publishes: bool, body: Body, ev: Event)
    requires body.Throws? && ev in Events(o, publishes, body) && ev.Calls?
    requires forall k :: 0 <= k < |o.failure| ==> KeepsError(o.failure[k])
    requires forall k :: 0 <= k < |o.complete| ==> KeepsError(o.complete[k])
    ensures ev.channel == Failure || ev.channel == Complete ==> ev.seen.error == Some(body.exc)
  {
    CallsComeFrom(o, publishes, body, ev);
    BroadcastKeepsError(Failure, o.failure, 0, AfterBody(StartFiring(o).ctx, body));
    BroadcastKeepsError(Complete, o.complete, 0, VerdictFiring(o, body).ctx);
    hide Broadcast, Events;
  }

  // ---- Publishing the result -----------------------------------------------------------------

  /**
   The result is sent at most once, on the verdict's topic, right after the verdict's observers and right
   before `complete` fires; and it is exactly if there is a queue to send it to and nobody has raised.
   */
  lemma SendsOnce(o: Observers, publishes: bool, body: Body)
    ensures var events, a, v := Events(o, publishes, body), StartFiring(o), VerdictFiring(o, body);
            var sends, at := publishes && !SomeoneRaises(a) && !SomeoneRaises(v), 2 + |a.events| + |v.events|;
            && (forall k :: 0 <= k < |events| ==> (events[k].Sends? <==> sends && k == at))
            && (sends ==>
                  && at + 1 < |events|
                  && events[at] == Sends(if body.Gives? then Success else Failure) && events[at + 1] == Fires(Complete)
                  && events[1 + |a.events|] == Fires(Verdict(body))
                  && (forall k :: 1 + |a.events| < k < at ==> events[k].Calls? && events[k].channel == Verdict(body)))
  {
    BroadcastIsOrdered(Start, o.start, 0, FRESH);
    BroadcastIsOrdered(Verdict(body), On(o, Verdict(body)), 0, AfterBody(StartFiring(o).ctx, body));
    BroadcastIsOrdered(Complete, o.complete, 0, VerdictFiring(o, body).ctx);
    var a, v, c := StartFiring(o), VerdictFiring(o, body), CompleteFiring(o, body);
    hide Broadcast, StartFiring, VerdictFiring, CompleteFiring, AfterBody, On;
    if a.raised.None? {
      SentBetween(a.events, Verdict(body), v.events, Sending(publishes, body, v), c.events);
    }
  }

  lemma SentBetween(a: seq<Event>, verdict: Channel, v: seq<Event>, sent: seq<Event>, c: seq<Event>)
    requires forall k :: 0 <= k < |a| ==> a[k].Calls?
    requires forall k :: 0 <= k < |v| ==> v[k].Calls? && v[k].channel == verdict
    requires forall k :: 0 <= k < |c| ==> c[k].Calls?
    requires sent <= [Sends(verdict)]
    ensures var all := [Fires(Start)] + a + ([Fires(verdict)] + v + sent + [Fires(Complete)] + c);
            var at := 2 + |a| + |v|;
            && (forall k :: 0 <= k < |all| ==> (all[k].Sends? <==> sent != [] && k == at))
            && all[1 + |a|] == Fires(verdict)
            && (forall k :: 1 + |a| < k < at ==> all[k].Calls? && all[k].channel == verdict)
            && (sent != [] ==> at + 1 < |all| && all[at] == Sends(verdict) && all[at + 1] == Fires(Complete))
  {
    var all := [Fires(Start)] + a + ([Fires(verdict)] + v + sent + [Fires(Complete)] + c);
    var before, after := [Fires(Start)] + a + ([Fires(verdict)] + v), [Fires(Complete)] + c;
    assert all == before + sent + after;
    OnlySend(before, sent, after);
    BeforeSending(a, verdict, v);
    assert forall k :: 0 <= k < |before| ==> all[k] == before[k];
  }

  lemma BeforeSending(a: seq<Event>, verdict: Channel, v: seq<Event>)
    requires forall k :: 0 <= k < |v| ==> v[k].Calls? && v[k].channel == verdict
    ensures var before := [Fires(Start)] + a + ([Fires(verdict)] + v);
            before[1 + |a|] == Fires(verdict) && forall k :: 1 + |a| < k < |before| ==> before[k].Calls? && before[k].channel == verdict
  {
  }

  lemma OnlySend(before: seq<Event>, sent: seq<Event>, after: seq<Event>)
    requires |sent| <= 1 && (forall k :: 0 <= k < |sent| ==> sent[k].Sends?)
    requires (forall k :: 0 <= k < |before| ==> !before[k].Sends?) && (forall k :: 0 <= k < |after| ==> !after[k].Sends?)
    ensures var all := before + sent + after;
            forall k :: 0 <= k < |all| ==> (all[k].Sends? <==> sent != [] && k == |before|)
  {
  }
}
