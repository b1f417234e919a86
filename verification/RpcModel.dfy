/**
 Request and reply over the queue: any number of clients and servers, interleaved step by step.
 Request ids are unused when drawn.  A request may reach any number of servers, at any time.
 */
module RpcModel {
  import opened Options

  type Id = string
  type Topic = string
  type Server = nat
  type HandlingId = nat

  datatype Value = Nothing | Thing(it: int)

  /** What a dictionary that is no valid request has under "id". */
  datatype LooseId = Absent | Text(id: Id) | NotText

  datatype Payload =
    | Request(id: Id, name: string, args: Value)
    | BadDict(looseId: LooseId, reason: string)
    | BadOther(reason: string)

  /** A message on the request topic; an empty `replyTo` is the same as none. */
  datatype Msg = Msg(payload: Payload, replyTo: Topic)

  /** What happened while a message was handled. */
  datatype Outcome = Rejected | NotFound | Returned(value: Value) | Raised(errorType: string, text: string)

  datatype Response = Response(requestId: Id, result: Value, error: Option<string>, errorType: string)

  datatype Reply = Reply(topic: Topic, response: Response, source: HandlingId)

  datatype Phase = Received | Prepared(outcome: Outcome) | Finished(outcome: Outcome)
  datatype Handling = Handling(msg: Msg, server: Server, phase: Phase)

  datatype Waiting = Pending | TimedOut | Answered(reply: Reply)
  datatype Call = Call(name: string, args: Value, waiting: Waiting)

  datatype Result = Value(value: Value) | Error(errorType: string, text: string)

  datatype State = State(
    calls: map<Id, Call>,
    sent: seq<Msg>,
    methods: map<Server, set<string>>,
    handlings: map<HandlingId, Handling>,
    published: seq<Reply>,
    queues: map<Topic, seq<Reply>>)

  datatype Step =
    | CallMethod(id: Id, name: string, args: Value)  // a client sends its request
    | SendOther(msg: Msg)                              // anybody else publishes on the request topic
    | AddMethod(server: Server, name: string)
    | Accept(h: HandlingId, server: Server, i: nat)    // a server's handler is called with the i-th message sent
    | Invoke(h: HandlingId, outcome: Outcome)
    | Publish(h: HandlingId)
    | Take(id: Id)                                     // the client receives a reply
    | GiveUp(id: Id)                                   // or its timeout passes

  const REPLY_PREFIX := "_rpc_reply."

  function ReplyTopic(id: Id): Topic
  {
    REPLY_PREFIX + id
  }

  /** The response to `payload`, or none where building it raises. */
  function ResponseTo(payload: Payload, outcome: Outcome): Option<Response>
  {
    match payload
    case BadDict(Text(id), reason) => Some(Response(id, Nothing, Some("Invalid request: " + reason), "ValidationError"))
    case BadDict(NotText, _) => None
    case BadDict(Absent, reason) => Some(Response("unknown", Nothing, Some("Invalid request: " + reason), "ValidationError"))
    case BadOther(reason) => Some(Response("unknown", Nothing, Some("Invalid request: " + reason), "ValidationError"))
    case Request(id, name, _) =>
      match outcome
      case Rejected => None
      case NotFound => Some(Response(id, Nothing, Some("Method not found: " + name), "MethodNotFound"))
      case Returned(value) => Some(Response(id, value, None, ""))
      case Raised(errorType, text) => Some(Response(id, Nothing, Some(text), errorType))
  }

  /** What the client makes of a response: an empty error text is falsy. */
  function Interpret(response: Response): Result
  {
    if response.error.Some? && response.error.value != "" then Error(response.errorType, response.error.value)
    else Value(response.result)
  }

  /** Which outcomes handling `payload` on a server with `methods` may have. */
  predicate CanHappen(payload: Payload, methods: set<string>, outcome: Outcome)
  {
    if !payload.Request? then outcome.Rejected?
    else if payload.name !in methods then outcome.NotFound?
    else outcome.Returned? || outcome.Raised?
  }

  function MethodsOf(s: State, server: Server): set<string>
  {
    if server in s.methods then s.methods[server] else {}
  }

  function QueueOf(queues: map<Topic, seq<Reply>>, topic: Topic): seq<Reply>
  {
    if topic in queues then queues[topic] else []
  }

  predicate Enabled(s: State, step: Step)
  {
    match step
    case CallMethod(id, _, _) => id !in s.calls
    case SendOther(_) => true
    case AddMethod(_, _) => true
    case Accept(h, _, i) => h !in s.handlings && i < |s.sent|
    case Invoke(h, outcome) =>
      h in s.handlings && s.handlings[h].phase.Received? && CanHappen(s.handlings[h].msg.payload, MethodsOf(s, s.handlings[h].server), outcome)
    case Publish(h) => h in s.handlings && s.handlings[h].phase.Prepared?
    case Take(id) => id in s.calls && s.calls[id].waiting.Pending? && QueueOf(s.queues, ReplyTopic(id)) != []
    case GiveUp(id) => id in s.calls && s.calls[id].waiting.Pending?
  }

  /** What handling `h` publishes: nothing without a reply topic, nor where building the response raised. */
  function RepliesOf(h: HandlingId, msg: Msg, outcome: Outcome): seq<Reply>
  {
    var response := ResponseTo(msg.payload, outcome);
    if msg.replyTo != "" && response.Some? then [Reply(msg.replyTo, response.value, h)] else []
  }

  function Posted(queues: map<Topic, seq<Reply>>, topic: Topic, replies: seq<Reply>): map<Topic, seq<Reply>>
  {
    queues[topic := QueueOf(queues, topic) + replies]
  }

  function Next(s: State, step: Step): State
    requires Enabled(s, step)
  {
    match step
    case CallMethod(id, name, args) =>
      s.(calls := s.calls[id := Call(name, args, Pending)], sent := s.sent + [Msg(Request(id, name, args), ReplyTopic(id))])
    case SendOther(msg) => s.(sent := s.sent + [msg])
    case AddMethod(server, name) => s.(methods := s.methods[server := MethodsOf(s, server) + {name}])
    case Accept(h, server, i) => s.(handlings := s.handlings[h := Handling(s.sent[i], server, Received)])
    case Invoke(h, outcome) => s.(handlings := s.handlings[h := s.handlings[h].(phase := Prepared(outcome))])
    case Publish(h) =>
      var hd := s.handlings[h];
      var replies := RepliesOf(h, hd.msg, hd.phase.outcome);
      s.(handlings := s.handlings[h := hd.(phase := Finished(hd.phase.outcome))],
         published := s.published + replies,
         queues := Posted(s.queues, hd.msg.replyTo, replies))
    case Take(id) =>
      var q := s.queues[ReplyTopic(id)];
      s.(calls := s.calls[id := s.calls[id].(waiting := Answered(q[0]))], queues := s.queues[ReplyTopic(id) := q[1..]])
    case GiveUp(id) => s.(calls := s.calls[id := s.calls[id].(waiting := TimedOut)])
  }

  const INIT := State(map[], [], map[], map[], [], map[])

  predicate Legal(s: State, steps: seq<Step>)
    decreases |steps|
  {
    steps == [] || (Enabled(s, steps[0]) && Legal(Next(s, steps[0]), steps[1..]))
  }

  function Run(s: State, steps: seq<Step>): State
    requires Legal(s, steps)
    decreases |steps|
  {
    if steps == [] then s else Run(Next(s, steps[0]), steps[1..])
  }

  // ---- Requests are what clients sent ---------------------------------------------------

  /** A message that asks for its reply on the topic of call `id` is the request of that call. */
  ghost predicate MsgOk(calls: map<Id, Call>, id: Id, msg: Msg)
  {
    msg.replyTo == ReplyTopic(id) ==> id in calls && msg.payload == Request(id, calls[id].name, calls[id].args)
  }

  ghost predicate MessagesOk(s: State, id: Id)
  {
    && (forall i :: 0 <= i < |s.sent| ==> MsgOk(s.calls, id, s.sent[i]))
    && (forall h :: h in s.handlings ==> MsgOk(s.calls, id, s.handlings[h].msg))
  }

  /** Somebody other than the client of call `id` asks for a reply on its topic. */
  predicate Forges(step: Step, id: Id)
  {
    step.SendOther? && step.msg.replyTo == ReplyTopic(id)
  }

  predicate Undisturbed(steps: seq<Step>, id: Id)
  {
    forall i :: 0 <= i < |steps| ==> !Forges(steps[i], id)
  }

  lemma StepMessages(s: State, step: Step, id: Id)
    requires MessagesOk(s, id) && Enabled(s, step) && !Forges(step, id)
    ensures MessagesOk(Next(s, step), id)
  {
    var s' := Next(s, step);
    assert forall msg :: MsgOk(s.calls, id, msg) ==> MsgOk(s'.calls, id, msg);
    if step.CallMethod? {
      if step.id != id {
        TopicsDiffer(step.id, id);
      }
      assert MsgOk(s'.calls, id, Msg(Request(step.id, step.name, step.args), ReplyTopic(step.id)));
    }
    hide MsgOk;
  }

  lemma {:induction false} RunMessages(s: State, steps: seq<Step>, id: Id)
    requires Legal(s, steps) && MessagesOk(s, id) && Undisturbed(steps, id)
    ensures MessagesOk(Run(s, steps), id)
    decreases |steps|
  {
    hide MessagesOk, Next, Enabled;
    if steps != [] {
      StepMessages(s, steps[0], id);
      RunMessages(Next(s, steps[0]), steps[1..], id);
    }
  }

  // ---- Every reply comes from one finished handling --------------------------------------

  ghost predicate Honest(handlings: map<HandlingId, Handling>, reply: Reply)
  {
    && reply.source in handlings
    && handlings[reply.source].phase.Finished?
    && RepliesOf(reply.source, handlings[reply.source].msg, handlings[reply.source].phase.outcome) == [reply]
  }

  /** Replies by handling `h`, in order. */
  function By(published: seq<Reply>, h: HandlingId): seq<Reply>
  {
    if published == [] then []
    else
      var last := published[|published| - 1];
      By(published[..|published| - 1], h) + (if last.source == h then [last] else [])
  }

  ghost function Due(handlings: map<HandlingId, Handling>, h: HandlingId): seq<Reply>
  {
    if h in handlings && handlings[h].phase.Finished? then RepliesOf(h, handlings[h].msg, handlings[h].phase.outcome) else []
  }

  /** A handling has published what is due from it: nothing until it finishes, then its one response. */
  ghost predicate RepliesOk(s: State)
  {
    && (forall i :: 0 <= i < |s.published| ==> Honest(s.handlings, s.published[i]))
    && (forall h :: By(s.published, h) == Due(s.handlings, h))
    && (forall h :: h in s.handlings && !s.handlings[h].phase.Received? ==> Happened(s.handlings[h].msg.payload, Done(s.handlings[h].phase)))
  }

  function Done(phase: Phase): Outcome
    requires !phase.Received?
  {
    phase.outcome
  }

  /** `outcome` is one that handling `payload` can have. */
  ghost predicate Happened(payload: Payload, outcome: Outcome)
  {
    payload.Request? <==> !outcome.Rejected?
  }

  lemma ByAppend(published: seq<Reply>, replies: seq<Reply>, h: HandlingId)
    requires |replies| <= 1
    ensures By(published + replies, h) == By(published, h) + (if replies != [] && replies[0].source == h then replies else [])
  {
    if replies == [] {
      assert published + replies == published;
    } else {
      assert (published + replies)[..|published|] == published;
      assert replies == [replies[0]];
    }
  }

  lemma RepliesShape(h: HandlingId, msg: Msg, outcome: Outcome)
    ensures |RepliesOf(h, msg, outcome)| <= 1
    ensures RepliesOf(h, msg, outcome) != [] ==> RepliesOf(h, msg, outcome)[0].source == h && RepliesOf(h, msg, outcome)[0].topic == msg.replyTo
  {
  }

  lemma PublishHonest(s: State, h: HandlingId, i: nat)
    requires RepliesOk(s) && Enabled(s, Publish(h)) && i < |Next(s, Publish(h)).published|
    ensures Honest(Next(s, Publish(h)).handlings, Next(s, Publish(h)).published[i])
  {
    var hd := s.handlings[h];
    RepliesShape(h, hd.msg, hd.phase.outcome);
    hide RepliesOf, By, Due, Posted;
    if i < |s.published| {
      assert Honest(s.handlings, s.published[i]);
    }
  }

  lemma DueAfterPublish(handlings: map<HandlingId, Handling>, h: HandlingId, g: HandlingId)
    requires h in handlings && handlings[h].phase.Prepared?
    ensures Due(handlings, h) == []
    ensures var hd := handlings[h];
            Due(handlings[h := hd.(phase := Finished(hd.phase.outcome))], g)
            == if g == h then RepliesOf(h, hd.msg, hd.phase.outcome) else Due(handlings, g)
  {
    hide RepliesOf;
  }

  lemma PublishBy(published: seq<Reply>, handlings: map<HandlingId, Handling>, h: HandlingId, g: HandlingId)
    requires h in handlings && handlings[h].phase.Prepared? && By(published, g) == Due(handlings, g)
    ensures var hd := handlings[h];
            By(published + RepliesOf(h, hd.msg, hd.phase.outcome), g) == Due(handlings[h := hd.(phase := Finished(hd.phase.outcome))], g)
  {
    var hd := handlings[h];
    RepliesShape(h, hd.msg, hd.phase.outcome);
    DueAfterPublish(handlings, h, g);
    hide RepliesOf, By, Due;
    ByAppend(published, RepliesOf(h, hd.msg, hd.phase.outcome), g);
  }

  lemma PublishReplies(s: State, h: HandlingId)
    requires RepliesOk(s) && Enabled(s, Publish(h))
    ensures RepliesOk(Next(s, Publish(h)))
  {
    var s' := Next(s, Publish(h));
    forall i | 0 <= i < |s'.published| ensures Honest(s'.handlings, s'.published[i]) {
      PublishHonest(s, h, i);
    }
    forall g ensures By(s'.published, g) == Due(s'.handlings, g) {
      assert By(s.published, g) == Due(s.handlings, g);
      PublishBy(s.published, s.handlings, h, g);
    }
    hide RepliesOf, By, Due, Honest, Posted;
  }

  lemma StepReplies(s: State, step: Step)
    requires RepliesOk(s) && Enabled(s, step)
    ensures RepliesOk(Next(s, step))
  {
    if step.Publish? {
      PublishReplies(s, step.h);
    } else {
      var s' := Next(s, step);
      forall g ensures Due(s'.handlings, g) == Due(s.handlings, g) {
      }
    }
  }

  // ---- Reply topics are first in, first out ------------------------------------------------

  /** Replies published to `topic`, in order. */
  function On(published: seq<Reply>, topic: Topic): seq<Reply>
  {
    if published == [] then []
    else
      var last := published[|published| - 1];
      On(published[..|published| - 1], topic) + (if last.topic == topic then [last] else [])
  }

  function TakenBy(calls: map<Id, Call>, id: Id): seq<Reply>
  {
    if id in calls && calls[id].waiting.Answered? then [calls[id].waiting.reply] else []
  }

  /** Of the replies published for a request its client has at most the first; the rest wait in order. */
  ghost predicate QueueOk(s: State, id: Id)
  {
    On(s.published, ReplyTopic(id)) == TakenBy(s.calls, id) + QueueOf(s.queues, ReplyTopic(id))
  }

  lemma OnAppend(published: seq<Reply>, replies: seq<Reply>, topic: Topic)
    requires |replies| <= 1
    ensures On(published + replies, topic) == On(published, topic) + (if replies != [] && replies[0].topic == topic then replies else [])
  {
    if replies == [] {
      assert published + replies == published;
    } else {
      assert (published + replies)[..|published|] == published;
      assert replies == [replies[0]];
    }
  }

  lemma TopicsDiffer(a: Id, b: Id)
    requires a != b
    ensures ReplyTopic(a) != ReplyTopic(b)
  {
    assert ReplyTopic(a)[|REPLY_PREFIX|..] == a && ReplyTopic(b)[|REPLY_PREFIX|..] == b;
  }

  lemma PostedOn(queues: map<Topic, seq<Reply>>, topic: Topic, replies: seq<Reply>, t: Topic)
    ensures QueueOf(Posted(queues, topic, replies), t) == QueueOf(queues, t) + (if t == topic then replies else [])
  {
  }

  lemma PublishQueue(s: State, h: HandlingId, id: Id)
    requires QueueOk(s, id) && Enabled(s, Publish(h))
    ensures QueueOk(Next(s, Publish(h)), id)
  {
    var hd, topic := s.handlings[h], ReplyTopic(id);
    var replies := RepliesOf(h, hd.msg, hd.phase.outcome);
    RepliesShape(h, hd.msg, hd.phase.outcome);
    hide RepliesOf;
    OnAppend(s.published, replies, topic);
    PostedOn(s.queues, hd.msg.replyTo, replies, topic);
    hide On, TakenBy, ReplyTopic, QueueOf, Posted;
    Reassociate(TakenBy(s.calls, id), QueueOf(s.queues, topic), if topic == hd.msg.replyTo then replies else []);
  }

  lemma Reassociate(a: seq<Reply>, b: seq<Reply>, c: seq<Reply>)
    ensures (a + b) + c == a + (b + c)
  {
  }

  lemma TakeQueue(s: State, other: Id, id: Id)
    requires QueueOk(s, id) && Enabled(s, Take(other))
    ensures QueueOk(Next(s, Take(other)), id)
  {
    hide On;
    if other != id {
      TopicsDiffer(other, id);
    }
    hide ReplyTopic;
  }

  lemma StepQueue(s: State, step: Step, id: Id)
    requires QueueOk(s, id) && Enabled(s, step)
    ensures QueueOk(Next(s, step), id)
  {
    hide On, ReplyTopic, RepliesOf, Posted;
    match step
    case Publish(h) => PublishQueue(s, h, id);
    case Take(other) => TakeQueue(s, other, id);
    case CallMethod(_, _, _) =>
    case SendOther(_) =>
    case AddMethod(_, _) =>
    case Accept(_, _, _) =>
    case Invoke(_, _) =>
    case GiveUp(_) =>
  }

  ghost predicate Ok(s: State)
  {
    RepliesOk(s) && forall id :: QueueOk(s, id)
  }

  lemma {:induction false} RunOk(s: State, steps: seq<Step>)
    requires Legal(s, steps) && Ok(s)
    ensures Ok(Run(s, steps))
    decreases |steps|
  {
    hide RepliesOk, QueueOk, Next, Enabled;
    if steps != [] {
      StepReplies(s, steps[0]);
      forall id ensures QueueOk(Next(s, steps[0]), id) {
        StepQueue(s, steps[0], id);
      }
      RunOk(Next(s, steps[0]), steps[1..]);
    }
  }

  lemma RunFromInit(steps: seq<Step>)
    requires Legal(INIT, steps)
    ensures Ok(Run(INIT, steps))
  {
    hide Legal, Run;
    RunOk(INIT, steps);
  }

  // ---- What clients get back -----------------------------------------------------------------

  /** `reply` answers the request of call `id` as handling `reply.source` of that very request went. */
  ghost predicate AnswersCall(s: State, id: Id, reply: Reply)
  {
    && reply.source in s.handlings
    && s.handlings[reply.source].phase.Finished?
    && id in s.calls
    && s.handlings[reply.source].msg.payload == Request(id, s.calls[id].name, s.calls[id].args)
    && reply.response.requestId == id
    && ResponseTo(s.handlings[reply.source].msg.payload, s.handlings[reply.source].phase.outcome) == Some(reply.response)
    && !s.handlings[reply.source].phase.outcome.Rejected?
  }

  lemma HonestReplyAnswers(s: State, id: Id, reply: Reply)
    requires Ok(s) && MessagesOk(s, id) && reply in s.published && reply.topic == ReplyTopic(id)
    ensures AnswersCall(s, id, reply)
  {
    assert Honest(s.handlings, reply);
    assert MsgOk(s.calls, id, s.handlings[reply.source].msg);
    hide By, Due, On, QueueOk, ReplyTopic;
  }

  lemma {:induction false} OnSelects(published: seq<Reply>, topic: Topic, reply: Reply)
    ensures reply in On(published, topic) <==> reply in published && reply.topic == topic
  {
    if published != [] {
      var init, last := published[..|published| - 1], published[|published| - 1];
      assert published == init + [last];
      OnSelects(init, topic, reply);
    }
  }

  /**
   In every run in which nobody else asks for replies on `_rpc_reply.<id>`: whatever was published there
   answers call `id`, carrying its id, and the reply its client took is the first of these, the others
   staying in the queue.
   */
  lemma RepliesAreCorrelated(steps: seq<Step>, id: Id)
    requires Legal(INIT, steps) && Undisturbed(steps, id)
    ensures var s := Run(INIT, steps);
            && (forall reply :: reply in s.published && reply.topic == ReplyTopic(id) ==> AnswersCall(s, id, reply))
            && On(s.published, ReplyTopic(id)) == TakenBy(s.calls, id) + QueueOf(s.queues, ReplyTopic(id))
  {
    var s := Run(INIT, steps);
    RunFromInit(steps);
    RunMessages(INIT, steps, id);
    hide Run, Legal, MessagesOk;
    forall reply | reply in s.published && reply.topic == ReplyTopic(id) ensures AnswersCall(s, id, reply) {
      HonestReplyAnswers(s, id, reply);
    }
    assert QueueOk(s, id);
  }

  /**
   In every run a handling publishes exactly one response once it has finished, provided the message
   names a reply topic and is not an invalid dictionary whose "id" is no string; otherwise none, ever.
   */
  lemma OneResponsePerHandling(steps: seq<Step>, h: HandlingId)
    requires Legal(INIT, steps)
    ensures var s := Run(INIT, steps);
            h in s.handlings ==>
              |By(s.published, h)|
              == (if s.handlings[h].phase.Finished? && s.handlings[h].msg.replyTo != ""
                     && !(s.handlings[h].msg.payload.BadDict? && s.handlings[h].msg.payload.looseId.NotText?)
                  then 1 else 0)
  {
    var s := Run(INIT, steps);
    RunFromInit(steps);
    hide Run, Legal, QueueOk, By;
    assert By(s.published, h) == Due(s.handlings, h);
  }

  /**
   In every run, an answered call was answered by a handling of its own request, and it returns a value
   exactly if the method returned, or raised an exception whose text is empty: then the value is None
   although nothing returned it.  Otherwise it raises what the server reported.
   */
  lemma ClientsGetTheirOwnResult(steps: seq<Step>, id: Id)
    requires Legal(INIT, steps) && Undisturbed(steps, id)
    ensures var s := Run(INIT, steps);
            id in s.calls && s.calls[id].waiting.Answered? ==>
              var reply := s.calls[id].waiting.reply;
              && AnswersCall(s, id, reply)
              && match s.handlings[reply.source].phase.outcome
                 case Rejected => false
                 case NotFound => Interpret(reply.response) == Error("MethodNotFound", "Method not found: " + s.calls[id].name)
                 case Returned(value) => Interpret(reply.response) == Value(value)
                 case Raised(errorType, text) => Interpret(reply.response) == if text == "" then Value(Nothing) else Error(errorType, text)
  {
    var s := Run(INIT, steps);
    RepliesAreCorrelated(steps, id);
    hide Run, Legal;
    if id in s.calls && s.calls[id].waiting.Answered? {
      var reply := s.calls[id].waiting.reply;
      assert reply in TakenBy(s.calls, id);
      OnSelects(s.published, ReplyTopic(id), reply);
      assert AnswersCall(s, id, reply);
    }
  }

  /**
   In every run, an invalid message that asks for a reply and was handled got one, unless it is a dictionary
   with a non-string id: under its own id if it has one and else as "unknown", read as a `ValidationError`.
   */
  lemma InvalidIsAnswered(steps: seq<Step>, h: HandlingId)
    requires Legal(INIT, steps)
    requires var s := Run(INIT, steps);
             && h in s.handlings && s.handlings[h].phase.Finished? && s.handlings[h].msg.replyTo != ""
             && var payload := s.handlings[h].msg.payload;
                !payload.Request? && !(payload.BadDict? && payload.looseId.NotText?)
    ensures var s := Run(INIT, steps);
            var msg, replies := s.handlings[h].msg, By(s.published, h);
            && |replies| == 1 && replies[0].topic == msg.replyTo
            && replies[0].response.requestId == (if msg.payload.BadDict? && msg.payload.looseId.Text? then msg.payload.looseId.id else "unknown")
            && Interpret(replies[0].response) == Error("ValidationError", "Invalid request: " + msg.payload.reason)
  {
    var s := Run(INIT, steps);
    RunFromInit(steps);
    hide Run, Legal, QueueOk, By;
    assert By(s.published, h) == Due(s.handlings, h);
  }

  lemma {:induction false} CallsAreKept(s: State, steps: seq<Step>, id: Id)
    requires Legal(s, steps) && id in s.calls
    ensures var s' := Run(s, steps); id in s'.calls && s'.calls[id].name == s.calls[id].name && s'.calls[id].args == s.calls[id].args
    decreases |steps|
  {
    if steps != [] {
      var s1 := Next(s, steps[0]);
      assert id in s1.calls && s1.calls[id].name == s.calls[id].name && s1.calls[id].args == s.calls[id].args;
      hide Next, Enabled;
      CallsAreKept(s1, steps[1..], id);
    }
  }

  /** The name and arguments on record for a call are those the client called with. */
  lemma {:induction false} CallsAreAsMade(s: State, steps: seq<Step>, i: nat)
    requires Legal(s, steps) && i < |steps| && steps[i].CallMethod?
    ensures var s' := Run(s, steps);
            steps[i].id in s'.calls && s'.calls[steps[i].id].name == steps[i].name && s'.calls[steps[i].id].args == steps[i].args
    decreases |steps|
  {
    if i == 0 {
      CallsAreKept(Next(s, steps[0]), steps[1..], steps[0].id);
    } else {
      CallsAreAsMade(Next(s, steps[0]), steps[1..], i - 1);
    }
  }

  /** A run in which a client gets None from a method that raised `ValueError("")`. */
  lemma EmptyErrorLooksLikeSuccess() returns (steps: seq<Step>)
    ensures Legal(INIT, steps)
    ensures var s := Run(INIT, steps);
            && "1" in s.calls && s.calls["1"].waiting.Answered?
            && Interpret(s.calls["1"].waiting.reply.response) == Value(Nothing)
            && 0 in s.handlings && s.handlings[0].phase == Finished(Raised("ValueError", ""))
            && forall h :: h in s.handlings ==> h == 0
  {
    var s4 := Next(ASKED, Invoke(0, Raised("ValueError", "")));
    var s5 := Next(s4, Publish(0));
    var s6 := Next(s5, Take("1"));
    steps := Stay(s6);
    hide Legal, Run;
    steps := Prepend(s5, Take("1"), steps);
    steps := Prepend(s4, Publish(0), steps);
    steps := Prepend(ASKED, Invoke(0, Raised("ValueError", "")), steps);
    steps := AskFirst(steps);
  }

  const QUESTION := Msg(Request("1", "f", Nothing), ReplyTopic("1"))
  const ASKED := State(map["1" := Call("f", Nothing, Pending)], [QUESTION], map[0 := {"f"}], map[0 := Handling(QUESTION, 0, Received)], [], map[])

  lemma AskFirst(rest: seq<Step>) returns (steps: seq<Step>)
    requires Legal(ASKED, rest)
    ensures Legal(INIT, steps) && Run(INIT, steps) == Run(ASKED, rest)
  {
    hide Legal, Run;
    var s1 := Next(INIT, AddMethod(0, "f"));
    var s2 := Next(s1, CallMethod("1", "f", Nothing));
    assert MethodsOf(INIT, 0) + {"f"} == {"f"};
    assert s2.calls == ASKED.calls && s2.sent == ASKED.sent && s2.methods == ASKED.methods;
    assert Next(s2, Accept(0, 0, 0)).handlings == ASKED.handlings;
    steps := Prepend(s2, Accept(0, 0, 0), rest);
    steps := Prepend(s1, CallMethod("1", "f", Nothing), steps);
    steps := Prepend(INIT, AddMethod(0, "f"), steps);
  }

  lemma Stay(s: State) returns (steps: seq<Step>)
    ensures Legal(s, steps) && Run(s, steps) == s
  {
    steps := [];
  }

  lemma Prepend(s: State, step: Step, rest: seq<Step>) returns (steps: seq<Step>)
    requires Enabled(s, step) && Legal(Next(s, step), rest)
    ensures Legal(s, steps) && Run(s, steps) == Run(Next(s, step), rest)
  {
    steps := [step] + rest;
    assert steps[1..] == rest;
  }

  /** Handling one message sent by somebody else, from start to end. */
  lemma HandleOther(msg: Msg, outcome: Outcome) returns (steps: seq<Step>)
    requires CanHappen(msg.payload, {}, outcome)
    ensures Legal(INIT, steps)
    ensures var s := Run(INIT, steps);
            s.handlings == map[0 := Handling(msg, 0, Finished(outcome))] && s.published == RepliesOf(0, msg, outcome)
  {
    hide RepliesOf, Posted;
    var s1 := Next(INIT, SendOther(msg));
    var s2 := Next(s1, Accept(0, 0, 0));
    var s3 := Next(s2, Invoke(0, outcome));
    var s4 := Next(s3, Publish(0));
    steps := Stay(s4);
    hide Legal, Run;
    steps := Prepend(s3, Publish(0), steps);
    steps := Prepend(s2, Invoke(0, outcome), steps);
    steps := Prepend(s1, Accept(0, 0, 0), steps);
    steps := Prepend(INIT, SendOther(msg), steps);
  }

  /** A run in which an invalid dictionary whose "id" is a number is handled and never answered. */
  lemma NumberAsIdGetsNoReply(replyTo: Topic) returns (steps: seq<Step>)
    requires replyTo != ""
    ensures Legal(INIT, steps)
    ensures var s := Run(INIT, steps);
            && 0 in s.handlings && s.handlings[0].phase.Finished? && s.handlings[0].msg.replyTo == replyTo
            && s.published == []
  {
    steps := HandleOther(Msg(BadDict(NotText, "id: not a string"), replyTo), Rejected);
  }

  /** A run in which a message by somebody else puts a reply with the wrong id on the topic of a call. */
  lemma ForgedReply(id: Id) returns (steps: seq<Step>)
    requires id != "unknown"
    ensures Legal(INIT, steps) && !Undisturbed(steps, id)
    ensures exists reply :: reply in Run(INIT, steps).published && reply.topic == ReplyTopic(id) && reply.response.requestId != id
  {
    var msg := Msg(BadOther("not a dictionary"), ReplyTopic(id));
    steps := HandleOther(msg, Rejected);
    var reply := Reply(ReplyTopic(id), ResponseTo(msg.payload, Rejected).value, 0);
    assert reply in Run(INIT, steps).published;
    if Undisturbed(steps, id) {
      RepliesAreCorrelated(steps, id);
      assert false;
    }
  }
}
