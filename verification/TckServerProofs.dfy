/**
 What the server promises for every request, every batch and every handler: the form of its responses (JSON-RPC 2.0
 Specification, section 5), when a function is entered and how often, and what a batch is (section 6).
 */
module TckServerProofs {
  import opened Wrappers
  import opened Json
  import Rpc = JsonRpcException
  import opened HederaKeys
  import opened JsonTypeMapper
  import opened TckServer

  // Responses.

  /** The members of a response other than its version and ID: exactly one of result and error. */
  ghost predicate IsResponse(j: Json, id: Json) {
    && j.Obj?
    && HasKeyType(j, "jsonrpc", StringKind) && j.members["jsonrpc"] == Str("2.0")
    && HasKey(j, "id") && j.members["id"] == id
    && (j.members.Keys == {"jsonrpc", "id", "result"} || j.members.Keys == {"jsonrpc", "id", "error"})
  }

  lemma EnvelopeIsResponse(id: Json, key: string, value: Json)
    requires key in {"result", "error"}
    ensures IsResponse(Envelope(id, key, value), id)
    ensures HasKey(Envelope(id, key, value), key) && Envelope(id, key, value).members[key] == value
  {
    var m := Envelope(id, key, value).members;
    assert m.Keys == {"jsonrpc", "id", key};
  }

  /** A request that is a notification of a registered function. */
  predicate IsKnownNotification(r: Registry, request: Json) {
    && Validate(request).None?
    && RequestId(request).Null?
    && NameOf(request) in r.notifications
  }

  /** The function that a request names, and what becomes of the call. */
  function Execution(b: Backend, r: Registry, calls: seq<Call>, request: Json): Step<Result<Json, Rpc.Error>>
    requires Validate(request).None? && NameOf(request) in FunctionsOf(r, TableOf(request))
  {
    Execute(b, r, calls, TableOf(request), NameOf(request), FunctionsOf(r, TableOf(request))[NameOf(request)],
            ParamsOf(request))
  }

  /**
   The response to any request value, unless the behaviour is undefined: nothing exactly when the request is a valid
   notification of a registered function that succeeds; otherwise a response with the request's valid ID, or null.
   */
  lemma ResponseEnvelope(b: Backend, r: Registry, calls: seq<Call>, request: Json)
    ensures var outcome := HandleSingle(b, r, calls, request).result;
            outcome.Answer? ==>
              if IsKnownNotification(r, request) && Execution(b, r, calls, request).result.Ok? then outcome.json.Null?
              else IsResponse(outcome.json, RequestId(request))
  {
    ResponseForm(b, r, calls, request);
    var id := RequestId(request);
    forall key, value | key in {"result", "error"}
      ensures IsResponse(Envelope(id, key, value), id)
    {
      EnvelopeIsResponse(id, key, value);
    }
  }

  lemma ResponseForm(b: Backend, r: Registry, calls: seq<Call>, request: Json)
    ensures var outcome, id := HandleSingle(b, r, calls, request).result, RequestId(request);
            || outcome.NoBehaviour?
            || (exists e: Rpc.Error :: !e.Undefined? && outcome == ErrorOutcome(id, e) &&
                  !(IsKnownNotification(r, request) && Execution(b, r, calls, request).result.Ok?))
            || (outcome.json.Null? && IsKnownNotification(r, request) && Execution(b, r, calls, request).result.Ok?)
            || (exists value :: outcome.json == Envelope(id, "result", value) && !id.Null?)
  {
    if Validate(request).Some? {
      assert HandleSingle(b, r, calls, request).result == ErrorOutcome(RequestId(request), Validate(request).value.ToError());
    }
  }

  /** A response carries a result exactly when it is that of a registered method that succeeded. */
  lemma ResultExactly(b: Backend, r: Registry, calls: seq<Call>, request: Json)
    ensures var outcome := HandleSingle(b, r, calls, request).result;
            outcome.Answer? && HasKey(outcome.json, "result") <==>
            && Validate(request).None?
            && !RequestId(request).Null?
            && NameOf(request) in r.methods
            && Execution(b, r, calls, request).result.Ok?
    ensures var outcome := HandleSingle(b, r, calls, request).result;
            outcome.Answer? && HasKey(outcome.json, "result") ==>
              Execution(b, r, calls, request).result == Ok(outcome.json.members["result"])
  {
    forall e: Rpc.Error | !e.Undefined?
      ensures !HasKey(ErrorOutcome(RequestId(request), e).json, "result")
    {
      EnvelopeIsResponse(RequestId(request), "error", Rpc.ErrorObject(Reported(e)));
    }
  }

  /** The error that a client reads from the response is the one that was reported. */
  lemma ErrorReadBack(id: Json, e: Rpc.Error)
    requires !e.Undefined?
    ensures var outcome := ErrorOutcome(id, e);
            && outcome.Answer?
            && HasKey(outcome.json, "error")
            && Rpc.FromJson(outcome.json.members["error"]) == Reported(e)
  {
    Rpc.ErrorObjectInversion(Reported(e));
    EnvelopeIsResponse(id, "error", Rpc.ErrorObject(Reported(e)));
  }

  /** A value that is not an object is an invalid request without an ID, and does nothing. */
  lemma NotAnObject(b: Backend, r: Registry, calls: seq<Call>, request: Json)
    requires !request.Obj?
    ensures HandleSingle(b, r, calls, request)
         == Step(calls, Answer(Envelope(Null, "error", Rpc.ErrorObject(Reported(BadVersion.ToError())))))
    ensures Reported(BadVersion.ToError()).code == Rpc.INVALID_REQUEST
  {
  }

  // Entering a function.

  /** The one call that a request makes, if it makes one. */
  function CallOf(b: Backend, r: Registry, request: Json): Option<Call> {
    if Validate(request).Some? || NameOf(request) !in FunctionsOf(r, TableOf(request)) then None
    else
      var name, table := NameOf(request), TableOf(request);
      match Arguments(b, r, name, FunctionsOf(r, table)[name].signature, ParamsOf(request))
      case Ok(args) => Some(Call(table, name, args))
      case Err(_) => None
  }

  /** What becomes of a call that has its arguments. */
  lemma Entered(b: Backend, r: Registry, calls: seq<Call>, table: Table, name: string, handler: Handler, params: Json,
                args: seq<Arg>)
    requires Arguments(b, r, name, handler.signature, params) == Ok(args)
    ensures Execute(b, r, calls, table, name, handler, params)
         == Step(calls + [Call(table, name, args)],
                 match handler.body(calls, args)
                 case Ok(value) => Ok(value)
                 case Err(e) => Err(Rethrow(r.parameters, name, e)))
  {
  }

  lemma HandledExecution(b: Backend, r: Registry, calls: seq<Call>, request: Json)
    requires Validate(request).None? && !RequestId(request).Null? && NameOf(request) in r.methods
    ensures var step := Execute(b, r, calls, Methods, NameOf(request), r.methods[NameOf(request)], ParamsOf(request));
            HandleSingle(b, r, calls, request)
            == Step(step.calls, match step.result
                                case Ok(value) => Answer(Envelope(RequestId(request), "result", value))
                                case Err(e) => ErrorOutcome(RequestId(request), e))
  {
  }

  /**
   Run-once safety for one request: it enters a function at most once, and exactly when the request is valid, its name is
   registered in the table that its ID selects, and its parameters become arguments. In every other case the history is
   unchanged.
   */
  lemma RunOnce(b: Backend, r: Registry, calls: seq<Call>, request: Json)
    ensures HandleSingle(b, r, calls, request).calls
         == calls + OneCall(b, r, request)
  {
    assert calls + [] == calls;
  }

  /** The call of a request as a list. */
  function OneCall(b: Backend, r: Registry, request: Json): (calls: seq<Call>)
    ensures |calls| <= 1
  {
    if CallOf(b, r, request).Some? then [CallOf(b, r, request).value] else []
  }

  /** The calls of a batch: what is called does not depend on what came before. */
  function CallsOf(b: Backend, r: Registry, requests: seq<Json>): (calls: seq<Call>)
    ensures |calls| <= |requests|
  {
    if requests == [] then [] else OneCall(b, r, requests[0]) + CallsOf(b, r, requests[1..])
  }

  lemma BatchHead(b: Backend, r: Registry, calls: seq<Call>, requests: seq<Json>)
    requires requests != []
    ensures var first := HandleSingle(b, r, calls, requests[0]);
            var rest := HandleBatch(b, r, first.calls, requests[1..]);
            && first.calls == calls + OneCall(b, r, requests[0])
            && (HandleBatch(b, r, calls, requests).result.Some? <==> first.result.Answer? && rest.result.Some?)
            && (HandleBatch(b, r, calls, requests).result.Some? ==>
                  HandleBatch(b, r, calls, requests)
                  == Step(rest.calls, Some((if first.result.json.Null? then [] else [first.result.json]) + rest.result.value)))
  {
    RunOnce(b, r, calls, requests[0]);
  }

  lemma NoRequests(b: Backend, r: Registry, calls: seq<Call>)
    ensures HandleBatch(b, r, calls, []) == Step(calls + CallsOf(b, r, []), Some([]))
  {
    assert calls + [] == calls;
  }

  lemma MoreCalls(b: Backend, r: Registry, calls: seq<Call>, requests: seq<Json>)
    requires requests != []
    ensures calls + CallsOf(b, r, requests) == calls + OneCall(b, r, requests[0]) + CallsOf(b, r, requests[1..])
  {
    Associate(calls, OneCall(b, r, requests[0]), CallsOf(b, r, requests[1..]));
  }

  lemma Associate<T>(first: seq<T>, second: seq<T>, third: seq<T>)
    ensures first + second + third == first + (second + third)
  {
  }

  /** Over a whole batch: one call at most for each request, in order, whatever the functions do. */
  lemma {:induction false} BatchCalls(b: Backend, r: Registry, calls: seq<Call>, requests: seq<Json>)
    ensures HandleBatch(b, r, calls, requests).result.Some? ==>
              HandleBatch(b, r, calls, requests).calls == calls + CallsOf(b, r, requests)
    decreases requests
  {
    if requests == [] {
      NoRequests(b, r, calls);
    } else {
      BatchHead(b, r, calls, requests);
      BatchCalls(b, r, calls + OneCall(b, r, requests[0]), requests[1..]);
      MoreCalls(b, r, calls, requests);
    }
  }

  // Batches.

  /** The history before the i-th request of a batch. */
  function Before(b: Backend, r: Registry, calls: seq<Call>, requests: seq<Json>, i: nat): seq<Call>
    requires i <= |requests|
  {
    calls + CallsOf(b, r, requests[..i])
  }

  /** The answer to the i-th request, handled on its own after the ones before it. */
  function AnswerAt(b: Backend, r: Registry, calls: seq<Call>, requests: seq<Json>, i: nat): Outcome
    requires i < |requests|
  {
    HandleSingle(b, r, Before(b, r, calls, requests, i), requests[i]).result
  }

  /** The answers that are sent, in order, from the i-th on. */
  function Sent(outcomes: seq<Outcome>): seq<Json> {
    if outcomes == [] then []
    else (if outcomes[0].Answer? && !outcomes[0].json.Null? then [outcomes[0].json] else []) + Sent(outcomes[1..])
  }

  function Silent(outcomes: seq<Outcome>): (n: nat)
    ensures n <= |outcomes|
  {
    if outcomes == [] then 0
    else (if outcomes[0].Answer? && outcomes[0].json.Null? then 1 else 0) + Silent(outcomes[1..])
  }

  function Answers(b: Backend, r: Registry, calls: seq<Call>, requests: seq<Json>): (outcomes: seq<Outcome>)
    ensures |outcomes| == |requests|
    ensures forall i | 0 <= i < |requests| :: outcomes[i] == AnswerAt(b, r, calls, requests, i)
  {
    seq(|requests|, i requires 0 <= i < |requests| => AnswerAt(b, r, calls, requests, i))
  }

  lemma {:induction false} SentCount(outcomes: seq<Outcome>)
    requires forall o | o in outcomes :: o.Answer?
    ensures |Sent(outcomes)| == |outcomes| - Silent(outcomes)
  {
    if outcomes != [] {
      SentCount(outcomes[1..]);
    }
  }

  lemma BeforeTail(b: Backend, r: Registry, calls: seq<Call>, requests: seq<Json>, i: nat)
    requires i < |requests|
    ensures Before(b, r, calls, requests, i + 1)
         == Before(b, r, calls + OneCall(b, r, requests[0]), requests[1..], i)
    ensures Before(b, r, calls, requests, 0) == calls
  {
    assert requests[..0] == [] && calls + [] == calls;
    assert requests[..i + 1][0] == requests[0] && requests[..i + 1][1..] == requests[1..][..i];
    MoreCalls(b, r, calls, requests[..i + 1]);
  }

  lemma AnswersTail(b: Backend, r: Registry, calls: seq<Call>, requests: seq<Json>)
    requires requests != []
    ensures Answers(b, r, calls, requests)[0] == HandleSingle(b, r, calls, requests[0]).result
    ensures Answers(b, r, calls, requests)[1..]
         == Answers(b, r, calls + OneCall(b, r, requests[0]), requests[1..])
  {
    BeforeTail(b, r, calls, requests, 0);
    var later := calls + OneCall(b, r, requests[0]);
    forall i | 0 <= i < |requests| - 1
      ensures AnswerAt(b, r, calls, requests, i + 1) == AnswerAt(b, r, later, requests[1..], i)
    {
      BeforeTail(b, r, calls, requests, i);
      assert requests[1..][i] == requests[i + 1];
    }
  }

  /**
   A batch is the requests handled one by one: the reply is the list of their answers in order without the null ones, the
   final history is that of the last one, and there are as many replies as requests less the successful notifications.
   */
  lemma {:induction false} BatchRefinement(b: Backend, r: Registry, calls: seq<Call>, requests: seq<Json>)
    ensures var step, outcomes := HandleBatch(b, r, calls, requests), Answers(b, r, calls, requests);
            && (step.result.None? <==> NoBehaviour in outcomes)
            && (step.result.Some? ==>
                  && step.result.value == Sent(outcomes)
                  && |step.result.value| == |requests| - Silent(outcomes)
                  && step.calls == Before(b, r, calls, requests, |requests|))
    decreases requests
  {
    BatchAnswers(b, r, calls, requests);
    BatchCalls(b, r, calls, requests);
    assert requests[..|requests|] == requests;
    var outcomes := Answers(b, r, calls, requests);
    if NoBehaviour !in outcomes {
      SentCount(outcomes);
    }
  }

  /** An element of a batch that is not an object is answered as an invalid request without an ID. */
  lemma BatchNonObjects(b: Backend, r: Registry, calls: seq<Call>, requests: seq<Json>, i: nat)
    requires i < |requests| && !requests[i].Obj?
    ensures var outcome := Answers(b, r, calls, requests)[i];
            && outcome.Answer? && IsResponse(outcome.json, Null)
            && HasKey(outcome.json, "error")
            && Rpc.FromJson(outcome.json.members["error"]).code == Rpc.INVALID_REQUEST
  {
    NotAnObject(b, r, Before(b, r, calls, requests, i), requests[i]);
    ErrorReadBack(Null, BadVersion.ToError());
    EnvelopeIsResponse(Null, "error", Rpc.ErrorObject(Reported(BadVersion.ToError())));
  }

  lemma {:induction false} BatchAnswers(b: Backend, r: Registry, calls: seq<Call>, requests: seq<Json>)
    ensures var step, outcomes := HandleBatch(b, r, calls, requests), Answers(b, r, calls, requests);
            && (step.result.None? <==> NoBehaviour in outcomes)
            && (step.result.Some? ==> step.result.value == Sent(outcomes))
    decreases requests
  {
    if requests == [] {
      NoRequests(b, r, calls);
    } else {
      var outcomes := Answers(b, r, calls, requests);
      AnswersTail(b, r, calls, requests);
      BatchHead(b, r, calls, requests);
      BatchAnswers(b, r, calls + OneCall(b, r, requests[0]), requests[1..]);
      assert outcomes == [outcomes[0]] + outcomes[1..];
    }
  }

  /** HTTP: no content is sent exactly for a single request object whose result is null; a batch always gets a list. */
  lemma NoContent(b: Backend, r: Registry, calls: seq<Call>, input: Input)
    ensures HandleInput(b, r, calls, input).result.Silence? <==>
            && input.Parsed? && input.json.Obj?
            && HandleSingle(b, r, calls, input.json).result == Answer(Null)
    ensures input.Parsed? && input.json.Arr? && !HandleInput(b, r, calls, input).result.Crash? ==>
              HandleInput(b, r, calls, input).result.Text? && HandleInput(b, r, calls, input).result.json.Arr?
  {
  }
}
