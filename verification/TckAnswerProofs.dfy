/**
 The server's answers as JSON, by value: which requests are valid and which IDs come back, what a client is told for each
 exception, and what it is told for a text that holds no request.
 */
module TckAnswerProofs {
  import opened Wrappers
  import opened Json
  import Rpc = JsonRpcException
  import opened HederaKeys
  import opened JsonTypeMapper
  import opened TckServer
  import opened TckServerProofs
  import opened TckParameterProofs

  // Requests.

  /** The four rules for a request, in the order in which they are applied. */
  predicate KeepsRule(request: Json, rule: nat) {
    match rule
    case 0 => request.Obj? && "jsonrpc" in request.members && request.members["jsonrpc"] == Str("2.0")
    case 1 => request.Obj? && "method" in request.members && request.members["method"].Str?
    case 2 => request.Obj? && "id" in request.members ==> request.members["id"].Null? || Identifies(request.members["id"])
    case _ => request.Obj? && "params" in request.members ==>
                request.members["params"].Arr? || request.members["params"].Obj? || request.members["params"].Null?
  }

  predicate Identifies(id: Json) {
    id.Int? || id.Unsigned? || id.Float? || id.Str?
  }

  const RULE_FAULTS: seq<RequestFault> := [BadVersion, BadMethod, BadId, BadParamsMember]

  /** A request is valid exactly if it keeps all four rules; otherwise the first that it breaks is reported. */
  lemma ValidExactly(request: Json)
    ensures Validate(request).None? <==> forall rule | 0 <= rule < 4 :: KeepsRule(request, rule)
    ensures forall rule | 0 <= rule < 4 && !KeepsRule(request, rule) && forall k | 0 <= k < rule :: KeepsRule(request, k) ::
              Validate(request) == Some(RULE_FAULTS[rule])
  {
    assert KeepsRule(request, 0) && KeepsRule(request, 1) && KeepsRule(request, 2) && KeepsRule(request, 3) ==>
        forall rule | 0 <= rule < 4 :: KeepsRule(request, rule);
  }

  /** The ID that comes back: the request's, valid or not, if it is a number or a text, and null otherwise. */
  lemma IdExactly(request: Json)
    ensures RequestId(request)
         == if request.Obj? && "id" in request.members && Identifies(request.members["id"]) then request.members["id"]
            else Null
  {
  }

  /** Absent and null parameters and an empty object are an empty list; others are kept as they are. */
  lemma ParamsExactly(request: Json)
    requires Validate(request).None?
    ensures if "params" !in request.members || request.members["params"] in {Null, Arr([]), Obj(map[])} then
              ParamsOf(request) == Arr([])
            else
              ParamsOf(request) == request.members["params"]
  {
    if "params" in request.members && request.members["params"].Obj? {
      assert |request.members["params"].members| == 0 <==> request.members["params"].members == map[];
    }
  }

  // Errors.

  /** An error object; one without data has no such member. */
  ghost predicate IsError(j: Json, code: int16, message: string, data: Option<Json>) {
    && j.Obj?
    && j.members.Keys == {"code", "message"} + (if data.Some? then {"data"} else {})
    && j.members["code"] == Int(code)
    && j.members["message"] == Str(message)
    && (data.Some? ==> j.members["data"] == data.value)
  }

  /** The data of a failed status. */
  ghost predicate IsStatus(j: Json, status: string, what: string) {
    && j.Obj? && j.members.Keys == {"status", "message"}
    && j.members["status"] == Str(status) && j.members["message"] == Str(what)
  }

  /** The data of an internal error. */
  ghost predicate IsText(j: Json, what: string) {
    j.Obj? && j.members.Keys == {"message"} && j.members["message"] == Str(what)
  }

  /** What a client is told about an exception that reaches the server's catch clauses. */
  ghost predicate IsTold(j: Json, e: Rpc.Error) {
    match e
    case Rpc(rpc) => IsError(j, rpc.code, rpc.message, if rpc.data.Null? then None else Some(rpc.data))
    case ReceiptStatus(status, what) => TellsStatus(j, status, what)
    case PrecheckStatus(status, what) => TellsStatus(j, status, what)
    case JsonTypeError(what) => TellsInternal(j, what)
    case Standard(what) => TellsInternal(j, what)
    case Undefined => false
  }

  ghost predicate TellsStatus(j: Json, status: string, what: string) {
    exists data :: IsError(j, -32001, HEDERA_TEXT, Some(data)) && IsStatus(data, status, what)
  }

  ghost predicate TellsInternal(j: Json, what: string) {
    exists data :: IsError(j, -32603, INTERNAL_TEXT, Some(data)) && IsText(data, what)
  }

  /** A response with an error: its version, its ID and the error, and nothing else. */
  ghost predicate IsErrorResponse(j: Json, id: Json) {
    && j.Obj? && j.members.Keys == {"jsonrpc", "id", "error"}
    && j.members["jsonrpc"] == Str("2.0") && j.members["id"] == id
  }

  /** An answer with an error of these three parts. */
  ghost predicate AnswersWithError(outcome: Outcome, id: Json, code: int16, message: string, data: Option<Json>) {
    outcome.Answer? && IsErrorResponse(outcome.json, id) && IsError(outcome.json.members["error"], code, message, data)
  }

  /** An answer with the result. */
  ghost predicate AnswersResult(outcome: Outcome, id: Json, result: Json) {
    && outcome.Answer? && outcome.json.Obj? && outcome.json.members.Keys == {"jsonrpc", "id", "result"}
    && outcome.json.members["jsonrpc"] == Str("2.0") && outcome.json.members["id"] == id
    && outcome.json.members["result"] == result
  }

  /** An answer with a failed status. */
  ghost predicate AnswersStatus(outcome: Outcome, id: Json, status: string, what: string) {
    outcome.Answer? && IsErrorResponse(outcome.json, id) && TellsStatus(outcome.json.members["error"], status, what)
  }

  /** An answer with an internal error. */
  ghost predicate AnswersInternal(outcome: Outcome, id: Json, what: string) {
    outcome.Answer? && IsErrorResponse(outcome.json, id) && TellsInternal(outcome.json.members["error"], what)
  }

  /** An answer that tells of an exception. */
  ghost predicate AnswersError(outcome: Outcome, id: Json, e: Rpc.Error) {
    if e.Undefined? then outcome.NoBehaviour?
    else outcome.Answer? && IsErrorResponse(outcome.json, id) && IsTold(outcome.json.members["error"], e)
  }

  lemma ReportedStatus(status: string, what: string)
    ensures IsTold(Rpc.ErrorObject(Reported(Rpc.ReceiptStatus(status, what))), Rpc.ReceiptStatus(status, what))
    ensures IsTold(Rpc.ErrorObject(Reported(Rpc.PrecheckStatus(status, what))), Rpc.PrecheckStatus(status, what))
  {
    var data := StatusData(status, what);
    assert IsStatus(data, status, what);
    assert IsError(Rpc.ErrorObject(Reported(Rpc.ReceiptStatus(status, what))), -32001, HEDERA_TEXT, Some(data));
    assert IsError(Rpc.ErrorObject(Reported(Rpc.PrecheckStatus(status, what))), -32001, HEDERA_TEXT, Some(data));
  }

  lemma ReportedInternal(what: string)
    ensures IsTold(Rpc.ErrorObject(Reported(Rpc.JsonTypeError(what))), Rpc.JsonTypeError(what))
    ensures IsTold(Rpc.ErrorObject(Reported(Rpc.Standard(what))), Rpc.Standard(what))
  {
    var data := Obj(map["message" := Str(what)]);
    assert IsText(data, what);
    assert IsError(Rpc.ErrorObject(Reported(Rpc.JsonTypeError(what))), -32603, INTERNAL_TEXT, Some(data));
    assert IsError(Rpc.ErrorObject(Reported(Rpc.Standard(what))), -32603, INTERNAL_TEXT, Some(data));
  }

  lemma Told(e: Rpc.Error)
    requires !e.Undefined?
    ensures IsTold(Rpc.ErrorObject(Reported(e)), e)
  {
    match e
    case Rpc(_) =>
    case ReceiptStatus(status, what) => ReportedStatus(status, what);
    case PrecheckStatus(status, what) => ReportedStatus(status, what);
    case JsonTypeError(what) => ReportedInternal(what);
    case Standard(what) => ReportedInternal(what);
  }

  lemma ErrorAnswered(id: Json, e: Rpc.Error)
    ensures AnswersError(ErrorOutcome(id, e), id, e)
  {
    if !e.Undefined? {
      Told(e);
      EnvelopeIsResponse(id, "error", Rpc.ErrorObject(Reported(e)));
    }
  }

  lemma PlainAnswered(id: Json, code: int16, message: string)
    ensures AnswersWithError(ErrorOutcome(id, Rpc.Plain(code, message)), id, code, message, None)
  {
    ErrorAnswered(id, Rpc.Plain(code, message));
  }

  // What a client is told.

  const RULE_TEXTS: seq<string> := [BAD_VERSION_TEXT, BAD_METHOD_TEXT, BAD_ID_TEXT, BAD_PARAMS_MEMBER_TEXT]

  /** An invalid request makes no call, and the client is told of the first rule that it breaks. */
  lemma InvalidAnswered(b: Backend, r: Registry, calls: seq<Call>, request: Json, rule: nat)
    requires rule < 4 && !KeepsRule(request, rule) && forall k | 0 <= k < rule :: KeepsRule(request, k)
    ensures var step := HandleSingle(b, r, calls, request);
            && step.calls == calls
            && AnswersWithError(step.result, RequestId(request), -32600, RULE_TEXTS[rule], None)
  {
    ValidExactly(request);
    PlainAnswered(RequestId(request), -32600, RULE_TEXTS[rule]);
  }

  /** A request with an ID is for a method, one without for a notification; a name that is in neither table makes no call. */
  lemma UnknownAnswered(b: Backend, r: Registry, calls: seq<Call>, request: Json)
    requires Validate(request).None?
    ensures var step, name, id := HandleSingle(b, r, calls, request), request.members["method"].text, RequestId(request);
            && (!id.Null? && name !in r.methods ==>
                  && step.calls == calls
                  && AnswersWithError(step.result, id, -32601, NO_SUCH_METHOD_TEXT + name, None))
            && (id.Null? && name !in r.notifications ==>
                  && step.calls == calls
                  && AnswersWithError(step.result, Null, -32601, NO_SUCH_NOTIFICATION_TEXT + name, None))
  {
    var name, id := NameOf(request), RequestId(request);
    PlainAnswered(id, -32601, NO_SUCH_METHOD_TEXT + name);
    PlainAnswered(Null, -32601, NO_SUCH_NOTIFICATION_TEXT + name);
  }

  /** The exception's data may be the index of a parameter. */
  predicate MayHoldIndex(e: Rpc.Error) {
    e.Rpc? && e.rpc.code == -32602 && Size(e.rpc.data) > 0
  }

  /** The index in an exception's data is replaced by the parameter's name in its message, or by itself if it has none. */
  ghost predicate AnswersIndexed(outcome: Outcome, id: Json, parameters: map<string, seq<string>>, name: string,
                                 e: Rpc.RpcError)
    requires IsNumber(e.data) || e.data.Bool?
  {
    var index := ToUint32(NumberOf(e.data));
    if name !in parameters then
      AnswersWithError(outcome, id, -32602, e.message + FOR_PARAMETER_TEXT + Decimal(index), None)
    else if index < |parameters[name]| then
      AnswersWithError(outcome, id, -32602, e.message + FOR_PARAMETER_TEXT + ("\"" + parameters[name][index] + "\""), None)
    else
      outcome.NoBehaviour?
  }

  /** What a client is told when a function that was called has thrown. */
  ghost predicate AnswersFailure(outcome: Outcome, id: Json, parameters: map<string, seq<string>>, name: string,
                                 e: Rpc.Error) {
    if e.JsonTypeError? then AnswersWithError(outcome, id, -32602, INVALID_PARAMETER_TEXT + e.what, None)
    else if !MayHoldIndex(e) then AnswersError(outcome, id, e)
    else if IsNumber(e.rpc.data) || e.rpc.data.Bool? then AnswersIndexed(outcome, id, parameters, name, e.rpc)
    else AnswersError(outcome, id, Rpc.JsonTypeError(NOT_A_NUMBER_TEXT))
  }

  lemma RethrownAnswered(id: Json, parameters: map<string, seq<string>>, name: string, e: Rpc.Error)
    ensures AnswersFailure(ErrorOutcome(id, Rethrow(parameters, name, e)), id, parameters, name, e)
  {
    var f := Rethrow(parameters, name, e);
    ErrorAnswered(id, f);
    if e.JsonTypeError? {
      PlainAnswered(id, -32602, INVALID_PARAMETER_TEXT + e.what);
    } else if MayHoldIndex(e) && f.Rpc? {
      PlainAnswered(id, -32602, f.rpc.message);
    }
  }

  /**
   A function that is called and throws: a failed status is a Hedera error with the status and the text, a JSON-RPC
   exception is itself, one about a JSON value is about parameters, and any other is an internal error with its text.
   */
  lemma FailedBody(b: Backend, r: Registry, calls: seq<Call>, request: Json, args: seq<Arg>, e: Rpc.Error)
    requires Validate(request).None? && NameOf(request) in FunctionsOf(r, TableOf(request))
    requires var f := FunctionsOf(r, TableOf(request))[NameOf(request)];
             && Arguments(b, r, NameOf(request), f.signature, ParamsOf(request)) == Ok(args)
             && f.body(calls, args) == Err(e)
    ensures var step := HandleSingle(b, r, calls, request);
            && step.calls == calls + [Call(TableOf(request), NameOf(request), args)]
            && AnswersFailure(step.result, RequestId(request), r.parameters, NameOf(request), e)
  {
    var f := FunctionsOf(r, TableOf(request))[NameOf(request)];
    Entered(b, r, calls, TableOf(request), NameOf(request), f, ParamsOf(request), args);
    FailedExecution(b, r, calls, request);
    RethrownAnswered(RequestId(request), r.parameters, NameOf(request), e);
  }

  /** A text that is no JSON, and a value that is neither an object nor a list. */
  lemma NoRequestAnswered(b: Backend, r: Registry, calls: seq<Call>, input: Input)
    requires input.Parsed? ==> !input.json.Obj? && !input.json.Arr?
    ensures var step := HandleInput(b, r, calls, input);
            && step.calls == calls && step.result.Text? && IsErrorResponse(step.result.json, Null)
            && (input.Malformed? ==>
                  IsError(step.result.json.members["error"], -32700, PARSE_ERROR_TEXT + input.what, None))
            && (input.Parsed? ==> IsError(step.result.json.members["error"], -32600, EXPECTED_STRUCTURE_TEXT, None))
  {
    var e := if input.Malformed? then ParseError(input.what) else EXPECTED_STRUCTURE;
    EnvelopeIsResponse(Null, "error", Rpc.ErrorObject(e));
  }
}
