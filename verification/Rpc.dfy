/** The RPC server's request handler and the loop of the retrying client. */
module RpcObject {
  import opened Options
  import opened RpcModel

  datatype Ran = Gave(value: Value) | Threw(errorType: string, text: string)
  type Callable = Value -> Ran

  /** What handling `payload` comes to with these methods. */
  function OutcomeOf(methods: map<string, Callable>, payload: Payload): (outcome: Outcome)
    ensures CanHappen(payload, methods.Keys, outcome)
  {
    if !payload.Request? then Rejected
    else if payload.name !in methods then NotFound
    else match methods[payload.name](payload.args)
      case Gave(value) => Returned(value)
      case Threw(errorType, text) => Raised(errorType, text)
  }

  /** A reply on `topic` for request `id`, in which a client finds what the function did with the arguments. */
  ghost predicate AnswersLike(reply: Reply, topic: Topic, id: Id, ran: Ran)
  {
    && reply.topic == topic
    && reply.response.requestId == id
    && match ran
       case Gave(value) => Interpret(reply.response) == RpcModel.Value(value)
       case Threw(errorType, text) => Interpret(reply.response) == if text == "" then RpcModel.Value(Nothing) else Error(errorType, text)
  }

  class RPCServer {
    var methods: map<string, Callable>
    var published: seq<Reply>

    constructor ()
      ensures methods == map[] && published == []
    {
      methods, published := map[], [];
    }

    method Add(name: string, func: Callable)
      modifies this`methods
      ensures methods == old(methods)[name := func]
    {
      methods := methods[name := func];
    }

    /** `_handle_request`; `ok` is false where an exception leaves it. */
    method HandleRequest(msg: Msg, h: HandlingId) returns (ok: bool)
      modifies this`published
      ensures published == old(published) + RepliesOf(h, msg, OutcomeOf(methods, msg.payload))
      ensures ok <==> msg.replyTo == "" || ResponseTo(msg.payload, OutcomeOf(methods, msg.payload)).Some?
      ensures msg.replyTo == "" ==> published == old(published)
      ensures msg.replyTo != "" && msg.payload.Request? && msg.payload.name in methods ==>
                && |published| == |old(published)| + 1 && published[..|old(published)|] == old(published)
                && AnswersLike(published[|old(published)|], msg.replyTo, msg.payload.id, methods[msg.payload.name](msg.payload.args))
    {
      if !msg.payload.Request? {
        if msg.replyTo != "" {
          var requestId := "unknown";
          if msg.payload.BadDict? {
            match msg.payload.looseId
            case Absent =>
            case Text(id) => requestId := id;
            case NotText => return false;
          }
          var response := Response(requestId, Nothing, Some("Invalid request: " + msg.payload.reason), "ValidationError");
          published := published + [Reply(msg.replyTo, response, h)];
        }
        return true;
      }
      var request := msg.payload;
      if request.name !in methods {
        if msg.replyTo != "" {
          var response := Response(request.id, Nothing, Some("Method not found: " + request.name), "MethodNotFound");
          published := published + [Reply(msg.replyTo, response, h)];
        }
        return true;
      }
      var response;
      match methods[request.name](request.args) {
        case Gave(value) => response := Response(request.id, value, None, "");
        case Threw(errorType, text) => response := Response(request.id, Nothing, Some(text), errorType);
      }
      if msg.replyTo != "" {
        published := published + [Reply(msg.replyTo, response, h)];
      }
      ok := true;
    }
  }

  // ---- Retrying ------------------------------------------------------------------------

  datatype Attempt = Answer(value: Value) | Retryable(error: string) | Fatal(error: string)

  /** What a retrying call ends in; `Unset` is the assertion after a loop that never ran. */
  datatype Final = Success(value: Value) | Failure(error: string) | Unset

  /** `attempts(i)` is what the i-th try would do. */
  ghost predicate FirstDecisive(attempts: nat -> Attempt, maxRetries: nat, k: nat)
  {
    && k <= maxRetries
    && (forall i :: 0 <= i < k ==> attempts(i).Retryable?)
    && (k == maxRetries || !attempts(k).Retryable?)
  }

  /**
   The call of `with_retry`: it ends with the first try that is no retryable error, or with the try
   after the last retry, having slept once before each retry, each time `factor` times as long.
   */
  method CallWithRetry(attempts: nat -> Attempt, maxRetries: int, initial: real, factor: real)
    returns (final: Final, slept: seq<real>)
    ensures maxRetries < 0 ==> final == Unset && slept == []
    ensures maxRetries >= 0 ==>
              && FirstDecisive(attempts, maxRetries, |slept|)
              && (attempts(|slept|).Answer? ==> final == Success(attempts(|slept|).value))
              && (!attempts(|slept|).Answer? ==> final == Failure(attempts(|slept|).error))
    ensures slept != [] ==> slept[0] == initial
    ensures forall i :: 0 < i < |slept| ==> slept[i] == slept[i - 1] * factor
  {
    slept := [];
    var delay := initial;
    var attempt := 0;
    while attempt < maxRetries + 1
      invariant 0 <= attempt && |slept| == attempt
      invariant attempt == 0 || attempt <= maxRetries
      invariant forall i :: 0 <= i < attempt ==> attempts(i).Retryable?
      invariant delay == if slept == [] then initial else slept[|slept| - 1] * factor
      invariant slept != [] ==> slept[0] == initial
      invariant forall i :: 0 < i < |slept| ==> slept[i] == slept[i - 1] * factor
    {
      var tried := attempts(attempt);
      if !tried.Retryable? || attempt == maxRetries {
        return if tried.Answer? then Success(tried.value) else Failure(tried.error), slept;
      }
      slept := slept + [delay];
      delay := delay * factor;
      attempt := attempt + 1;
    }
    final := Unset;
  }
}
