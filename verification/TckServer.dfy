/**
 The JSON-RPC server (src/tck/src/TckServer.cc): a registry of functions, and the handling of one request, a batch, and
 an HTTP request.

 A registered function is a signature and a body. The state that bodies work on is the history of calls so far, on which
 a body's outcome may depend in any way; the server appends a call to it when it enters a body.
 */
module TckServer {
  import opened Wrappers
  import opened Json
  import Rpc = JsonRpcException
  import opened HederaKeys
  import opened JsonTypeMapper

  datatype Table = Methods | Notifications

  datatype Call = Call(table: Table, name: string, args: seq<Arg>)

  /** The result of a notification's body is not used. */
  datatype Handler = Handler(
    signature: seq<ParamType>,
    body: (seq<Call>, seq<Arg>) -> Result<Json, Rpc.Error>)

  datatype Registry = Registry(
    methods: map<string, Handler>,
    notifications: map<string, Handler>,
    parameters: map<string, seq<string>>)

  const EMPTY: Registry := Registry(map[], map[], map[])

  // Registration.

  datatype AddFault = ReservedName | AlreadyAdded

  /** The name contains "rpc." somewhere. */
  predicate IsReserved(name: string) {
    exists i | 0 <= i <= |name| :: "rpc." <= name[i..]
  }

  /** try_emplace: a parameter list that is there already stays, whichever table its name was added to. */
  function Declare(parameters: map<string, seq<string>>, name: string, params: seq<string>): map<string, seq<string>> {
    if params == [] || name in parameters then parameters else parameters[name := params]
  }

  function AddTo(r: Registry, table: Table, name: string, handler: Handler, params: seq<string>)
    : Result<Registry, AddFault>
  {
    var functions := if table.Methods? then r.methods else r.notifications;
    if IsReserved(name) then Err(ReservedName)
    else if name in functions then Err(AlreadyAdded)
    else
      var added := functions[name := handler];
      Ok(if table.Methods? then r.(methods := added, parameters := Declare(r.parameters, name, params))
         else r.(notifications := added, parameters := Declare(r.parameters, name, params)))
  }

  // One request.

  const BAD_VERSION_TEXT: string := "invalid request: missing jsonrpc field set to \"2.0\""
  const BAD_METHOD_TEXT: string := "invalid request: method field must be a string"
  const BAD_ID_TEXT: string := "invalid request: id field must be a number, string or null"
  const BAD_PARAMS_MEMBER_TEXT: string := "invalid request: params field must be an array, object or null"
  const NO_SUCH_METHOD_TEXT: string := "method not found: "
  const NO_SUCH_NOTIFICATION_TEXT: string := "notification not found: "
  const NO_NAMED_PARAMS_TEXT: string := "invalid parameter: procedure doesn't support named parameter"
  const NOT_STRUCTURED_TEXT: string := "invalid request: params field must be an array, object"

  /** The exceptions on the way of a request. */
  datatype RequestFault =
    | BadVersion
    | BadMethod
    | BadId
    | BadParamsMember
    | NoSuchMethod(name: string)
    | NoSuchNotification(name: string)
    | NoNamedParams
    | NotStructured
    | InParams(fault: ParamFault)
    | InBody(error: Rpc.Error)
  {
    function ToError(): Rpc.Error {
      match this
      case BadVersion => Rpc.Plain(Rpc.INVALID_REQUEST, BAD_VERSION_TEXT)
      case BadMethod => Rpc.Plain(Rpc.INVALID_REQUEST, BAD_METHOD_TEXT)
      case BadId => Rpc.Plain(Rpc.INVALID_REQUEST, BAD_ID_TEXT)
      case BadParamsMember => Rpc.Plain(Rpc.INVALID_REQUEST, BAD_PARAMS_MEMBER_TEXT)
      case NoSuchMethod(name) => Rpc.Plain(Rpc.METHOD_NOT_FOUND, NO_SUCH_METHOD_TEXT + name)
      case NoSuchNotification(name) => Rpc.Plain(Rpc.METHOD_NOT_FOUND, NO_SUCH_NOTIFICATION_TEXT + name)
      case NoNamedParams => Rpc.Plain(Rpc.INVALID_PARAMS, NO_NAMED_PARAMS_TEXT)
      case NotStructured => Rpc.Plain(Rpc.INVALID_REQUEST, NOT_STRUCTURED_TEXT)
      case InParams(fault) => fault.ToError()
      case InBody(error) => error
    }
  }

  /** The request's ID where it is a number, a string or null; null otherwise. */
  function RequestId(request: Json): Json {
    if HasValidId(request) then request.members["id"] else Null
  }

  function Validate(request: Json): Option<RequestFault> {
    if !HasKeyType(request, "jsonrpc", StringKind) || request.members["jsonrpc"] != Str("2.0") then Some(BadVersion)
    else if !HasKeyType(request, "method", StringKind) then Some(BadMethod)
    else if HasKey(request, "id") && !IsIdValue(request.members["id"]) then Some(BadId)
    else if HasKey(request, "params") && !request.members["params"].Arr? && !request.members["params"].Obj? &&
            !request.members["params"].Null? then Some(BadParamsMember)
    else None
  }

  /** Absent, null and empty parameters all become an empty list. */
  function ParamsOf(request: Json): Json {
    if HasKey(request, "params") && Size(request.members["params"]) > 0 then request.members["params"] else Arr([])
  }

  function Positional(names: seq<string>, members: map<string, Json>): (list: seq<Json>)
    ensures |list| == |names|
    ensures forall i | 0 <= i < |names| :: list[i] == Lookup(members, names[i])
  {
    if names == [] then [] else [Lookup(members, names[0])] + Positional(names[1..], members)
  }

  /** normalizeParameters. */
  function Normalize(parameters: map<string, seq<string>>, name: string, params: Json): Result<seq<Json>, RequestFault> {
    match params
    case Arr(items) => Ok(items)
    case Obj(members) => if name in parameters then Ok(Positional(parameters[name], members)) else Err(NoNamedParams)
    case _ => Err(NotStructured)
  }

  /** get<unsigned int>() of an exception's data. */
  function DataIndex(data: Json): Option<uint32> {
    if IsNumber(data) || data.Bool? then Some(ToUint32(NumberOf(data))) else None
  }

  const FOR_PARAMETER_TEXT: string := " for parameter "
  const INVALID_PARAMETER_TEXT: string := "invalid parameter: "
  const NOT_A_NUMBER_TEXT: string := "[json.exception.type_error.302] type must be number, but is another"

  /** The text after a failed check's message: the parameter's declared name, or its index where none is declared. */
  function Location(parameters: map<string, seq<string>>, name: string, index: uint32): string
    requires name in parameters ==> index < |parameters[name]|
  {
    if name in parameters then "\"" + parameters[name][index] + "\"" else Decimal(index)
  }

  /** processTypeError: the index in the data of a failed check is replaced by the location in the message. */
  function ProcessTypeError(parameters: map<string, seq<string>>, name: string, e: Rpc.RpcError): Rpc.Error {
    if e.code == Rpc.INVALID_PARAMS && Size(e.data) > 0 then
      match DataIndex(e.data)
      case None => Rpc.JsonTypeError(NOT_A_NUMBER_TEXT)
      case Some(index) =>
        if name in parameters && index >= |parameters[name]| then Rpc.Undefined
        else Rpc.Plain(e.code, e.message + FOR_PARAMETER_TEXT + Location(parameters, name, index))
    else Rpc.Rpc(e)
  }

  /** The catch clauses of executeMethod and executeNotification. */
  function Rethrow(parameters: map<string, seq<string>>, name: string, e: Rpc.Error): Rpc.Error {
    match e
    case JsonTypeError(what) => Rpc.Plain(Rpc.INVALID_PARAMS, INVALID_PARAMETER_TEXT + what)
    case Rpc(rpc) => ProcessTypeError(parameters, name, rpc)
    case _ => e
  }

  /** The arguments a function would be called with. */
  function Arguments(b: Backend, r: Registry, name: string, signature: seq<ParamType>, params: Json)
    : Result<seq<Arg>, RequestFault>
  {
    var list :- Normalize(r.parameters, name, params);
    match Prepare(b, signature, list)
    case Ok(args) => Ok(args)
    case Err(fault) => Err(InParams(fault))
  }

  /** The history after a request and what came of it. */
  datatype Step<+T> = Step(calls: seq<Call>, result: T)

  /** executeMethod and executeNotification, before their catch clauses. */
  function Enter(b: Backend, r: Registry, calls: seq<Call>, table: Table, name: string, handler: Handler, params: Json)
    : Step<Result<Json, RequestFault>>
  {
    match Arguments(b, r, name, handler.signature, params)
    case Err(fault) => Step(calls, Err(fault))
    case Ok(args) =>
      Step(calls + [Call(table, name, args)],
           match handler.body(calls, args)
           case Ok(value) => Ok(value)
           case Err(e) => Err(InBody(e)))
  }

  function Execute(b: Backend, r: Registry, calls: seq<Call>, table: Table, name: string, handler: Handler, params: Json)
    : Step<Result<Json, Rpc.Error>>
  {
    var step := Enter(b, r, calls, table, name, handler, params);
    Step(step.calls,
         match step.result
         case Ok(value) => Ok(value)
         case Err(fault) => Err(Rethrow(r.parameters, name, fault.ToError())))
  }

  // Responses.

  function Envelope(id: Json, key: string, value: Json): Json {
    Obj(map["jsonrpc" := Str("2.0"), "id" := id, key := value])
  }

  const HEDERA_TEXT: string := "Hedera error"
  const INTERNAL_TEXT: string := "Internal error"

  function StatusData(status: string, what: string): Json {
    Obj(map["status" := Str(status), "message" := Str(what)])
  }

  /** The error that the catch clauses of handleSingleRequest report. */
  function Reported(e: Rpc.Error): Rpc.RpcError {
    match e
    case Rpc(rpc) => rpc
    case ReceiptStatus(status, what) => Rpc.RpcError(Rpc.HEDERA_ERROR, HEDERA_TEXT, StatusData(status, what))
    case PrecheckStatus(status, what) => Rpc.RpcError(Rpc.HEDERA_ERROR, HEDERA_TEXT, StatusData(status, what))
    case JsonTypeError(what) => Rpc.RpcError(Rpc.INTERNAL_ERROR, INTERNAL_TEXT, Obj(map["message" := Str(what)]))
    case Standard(what) => Rpc.RpcError(Rpc.INTERNAL_ERROR, INTERNAL_TEXT, Obj(map["message" := Str(what)]))
    case Undefined => Rpc.RpcError(0, "", Null)
  }

  /** A response, null where there is none to send; or undefined behaviour. */
  datatype Outcome = Answer(json: Json) | NoBehaviour

  function ErrorOutcome(id: Json, e: Rpc.Error): Outcome {
    if e.Undefined? then NoBehaviour else Answer(Envelope(id, "error", Rpc.ErrorObject(Reported(e))))
  }

  /** Where a valid request goes: a request with an ID is a method call, one without a notification. */
  function TableOf(request: Json): Table {
    if RequestId(request).Null? then Notifications else Methods
  }

  function FunctionsOf(r: Registry, table: Table): map<string, Handler> {
    if table.Methods? then r.methods else r.notifications
  }

  function NameOf(request: Json): string
    requires Validate(request).None?
  {
    request.members["method"].text
  }

  /** handleSingleRequest. */
  function HandleSingle(b: Backend, r: Registry, calls: seq<Call>, request: Json): Step<Outcome> {
    var id := RequestId(request);
    match Validate(request)
    case Some(fault) => Step(calls, ErrorOutcome(id, fault.ToError()))
    case None =>
      var name, table := NameOf(request), TableOf(request);
      if name !in FunctionsOf(r, table) then
        Step(calls, ErrorOutcome(id, (if table.Methods? then NoSuchMethod(name) else NoSuchNotification(name)).ToError()))
      else
        var step := Execute(b, r, calls, table, name, FunctionsOf(r, table)[name], ParamsOf(request));
        Step(step.calls,
             match step.result
             case Err(e) => ErrorOutcome(id, e)
             case Ok(value) => Answer(if table.Methods? then Envelope(id, "result", value) else Null))
  }

  // Batches and whole inputs.

  /** The answers to a batch so far, unless the behaviour became undefined. */
  function HandleBatch(b: Backend, r: Registry, calls: seq<Call>, requests: seq<Json>): Step<Option<seq<Json>>>
    decreases requests
  {
    if requests == [] then Step(calls, Some([]))
    else
      var first := HandleSingle(b, r, calls, requests[0]);
      if first.result.NoBehaviour? then Step(first.calls, None)
      else
        var rest := HandleBatch(b, r, first.calls, requests[1..]);
        Step(rest.calls,
             if rest.result.None? then None
             else Some((if first.result.json.Null? then [] else [first.result.json]) + rest.result.value))
  }

  /** The text of a request, already parsed. */
  datatype Input = Parsed(json: Json) | Malformed(what: string)

  /** The text of a response; an empty one is Silence. */
  datatype Output = Text(json: Json) | Silence | Crash

  const EXPECTED_STRUCTURE_TEXT: string := "invalid request: expected array or object"
  const PARSE_ERROR_TEXT: string := "parse error: "

  const EXPECTED_STRUCTURE: Rpc.RpcError := Rpc.RpcError(Rpc.INVALID_REQUEST, EXPECTED_STRUCTURE_TEXT, Null)

  function ParseError(what: string): Rpc.RpcError {
    Rpc.RpcError(Rpc.PARSE_ERROR, PARSE_ERROR_TEXT + what, Null)
  }

  /** handleJsonRequest. */
  function HandleInput(b: Backend, r: Registry, calls: seq<Call>, input: Input): Step<Output> {
    match input
    case Malformed(what) => Step(calls, Text(Envelope(Null, "error", Rpc.ErrorObject(ParseError(what)))))
    case Parsed(Arr(requests)) =>
      var step := HandleBatch(b, r, calls, requests);
      Step(step.calls, if step.result.None? then Crash else Text(Arr(step.result.value)))
    case Parsed(Obj(members)) =>
      var step := HandleSingle(b, r, calls, Obj(members));
      Step(step.calls, if step.result.NoBehaviour? then Crash
                       else if step.result.json.Null? then Silence else Text(step.result.json))
    case Parsed(_) => Step(calls, Text(Envelope(Null, "error", Rpc.ErrorObject(EXPECTED_STRUCTURE))))
  }

  const HTTP_SUCCESSFUL_RESPONSE: int := 200
  const HTTP_NO_CONTENT_RESPONSE: int := 204

  // The source's form.

  class HttpResponse {
    var status: int
    var content: Option<Json>

    constructor ()
      ensures content == None
    {
      status := -1;
      content := None;
    }
  }

  class TckServer {
    const backend: Backend
    var methods: map<string, Handler>
    var notifications: map<string, Handler>
    var parameters: map<string, seq<string>>
    var calls: seq<Call>

    ghost function State(): Registry
      reads this`methods, this`notifications, this`parameters
    {
      Registry(methods, notifications, parameters)
    }

    constructor (backend: Backend)
      ensures this.backend == backend && State() == EMPTY && calls == []
    {
      this.backend := backend;
      methods, notifications, parameters, calls := map[], map[], map[], [];
    }

    method AddMethod(name: string, handler: Handler, params: seq<string>) returns (fault: Option<AddFault>)
      modifies this`methods, this`parameters
      ensures match AddTo(old(State()), Methods, name, handler, params)
              case Ok(r) => State() == r && fault == None
              case Err(f) => State() == old(State()) && fault == Some(f)
    {
      if IsReserved(name) {
        return Some(ReservedName);
      }
      if name in methods {
        return Some(AlreadyAdded);
      }
      methods := methods[name := handler];
      if params != [] && name !in parameters {
        parameters := parameters[name := params];
      }
      fault := None;
    }

    method AddNotification(name: string, handler: Handler, params: seq<string>) returns (fault: Option<AddFault>)
      modifies this`notifications, this`parameters
      ensures match AddTo(old(State()), Notifications, name, handler, params)
              case Ok(r) => State() == r && fault == None
              case Err(f) => State() == old(State()) && fault == Some(f)
    {
      if IsReserved(name) {
        return Some(ReservedName);
      }
      if name in notifications {
        return Some(AlreadyAdded);
      }
      notifications := notifications[name := handler];
      if params != [] && name !in parameters {
        parameters := parameters[name := params];
      }
      fault := None;
    }

    method NormalizeParameters(name: string, params: Json) returns (list: Result<seq<Json>, RequestFault>)
      ensures list == Normalize(parameters, name, params)
    {
      if params.Arr? {
        return Ok(params.items);
      }
      if params.Obj? {
        if name !in parameters {
          return Err(NoNamedParams);
        }
        var names := parameters[name];
        var result: seq<Json> := [];
        for i := 0 to |names|
          invariant |result| == i
          invariant forall k | 0 <= k < i :: result[k] == Lookup(params.members, names[k])
        {
          result := result + [Lookup(params.members, names[i])];
        }
        assert result == Positional(names, params.members);
        return Ok(result);
      }
      list := Err(NotStructured);
    }

    /** executeMethod, or executeNotification, with its catch clauses. */
    method ExecuteFunction(table: Table, name: string, handler: Handler, params: Json)
      returns (result: Result<Json, Rpc.Error>)
      modifies this`calls
      ensures Step(calls, result) == Execute(backend, State(), old(calls), table, name, handler, params)
    {
      var list := NormalizeParameters(name, params);
      if list.Err? {
        return Err(Rethrow(parameters, name, list.error.ToError()));
      }
      var args := Prepare(backend, handler.signature, list.value);
      if args.Err? {
        return Err(Rethrow(parameters, name, InParams(args.error).ToError()));
      }
      var value := handler.body(calls, args.value);
      calls := calls + [Call(table, name, args.value)];
      if value.Err? {
        return Err(Rethrow(parameters, name, value.error));
      }
      result := value;
    }

    method HandleSingleRequest(request: Json) returns (outcome: Outcome)
      modifies this`calls
      ensures Step(calls, outcome) == HandleSingle(backend, State(), old(calls), request)
    {
      var requestId := Null;
      if HasValidId(request) {
        requestId := request.members["id"];
      }
      var fault := Validate(request);
      if fault.Some? {
        return ErrorOutcome(requestId, fault.value.ToError());
      }
      var name, params := request.members["method"].text, ParamsOf(request);
      if !requestId.Null? {
        if name !in methods {
          return ErrorOutcome(requestId, NoSuchMethod(name).ToError());
        }
        var result := ExecuteFunction(Methods, name, methods[name], params);
        if result.Err? {
          return ErrorOutcome(requestId, result.error);
        }
        return Answer(Envelope(requestId, "result", result.value));
      }
      if name !in notifications {
        return ErrorOutcome(requestId, NoSuchNotification(name).ToError());
      }
      var done := ExecuteFunction(Notifications, name, notifications[name], params);
      if done.Err? {
        return ErrorOutcome(requestId, done.error);
      }
      outcome := Answer(Null);
    }

    /** The loop over a batch: every answer that is not null is pushed. */
    method HandleBatchRequest(requests: seq<Json>) returns (answers: Option<seq<Json>>)
      modifies this`calls
      ensures Step(calls, answers) == HandleBatch(backend, State(), old(calls), requests)
    {
      var results: seq<Json> := [];
      assert requests[0..] == requests;
      PrependTwice([], [], HandleBatch(backend, State(), calls, requests));
      for i := 0 to |requests|
        invariant HandleBatch(backend, State(), old(calls), requests)
               == Prepend(results, HandleBatch(backend, State(), calls, requests[i..]))
      {
        assert requests[i..][0] == requests[i] && requests[i..][1..] == requests[i + 1..];
        ghost var answered := results;
        var result := HandleSingleRequest(requests[i]);
        if result.NoBehaviour? {
          return None;
        }
        if !result.json.Null? {
          results := results + [result.json];
        }
        PrependTwice(answered, if result.json.Null? then [] else [result.json],
                     HandleBatch(backend, State(), calls, requests[i + 1..]));
      }
      assert requests[|requests|..] == [] && results + [] == results;
      answers := Some(results);
    }

    method HandleJsonRequest(input: Input) returns (output: Output)
      modifies this`calls
      ensures Step(calls, output) == HandleInput(backend, State(), old(calls), input)
    {
      match input
      case Malformed(what) => return Text(Envelope(Null, "error", Rpc.ErrorObject(ParseError(what))));
      case Parsed(Arr(requests)) =>
        var results := HandleBatchRequest(requests);
        return if results.None? then Crash else Text(Arr(results.value));
      case Parsed(Obj(members)) =>
        var result := HandleSingleRequest(Obj(members));
        if result.NoBehaviour? {
          return Crash;
        }
        return if result.json.Null? then Silence else Text(result.json);
      case Parsed(_) => return Text(Envelope(Null, "error", Rpc.ErrorObject(EXPECTED_STRUCTURE)));
    }

    /** Sets the status and content of a response, unless the behaviour is undefined. */
    method HandleHttpRequest(body: Input, response: HttpResponse) returns (crashed: bool)
      modifies this`calls, response
      ensures calls == HandleInput(backend, State(), old(calls), body).calls
      ensures var output := HandleInput(backend, State(), old(calls), body).result;
              && (crashed <==> output.Crash?)
              && (output.Silence? ==>
                    response.status == HTTP_NO_CONTENT_RESPONSE && response.content == old(response.content))
              && (output.Text? ==> response.status == HTTP_SUCCESSFUL_RESPONSE && response.content == Some(output.json))
    {
      var output := HandleJsonRequest(body);
      crashed := output.Crash?;
      if output.Silence? {
        response.status := HTTP_NO_CONTENT_RESPONSE;
      } else if output.Text? {
        response.status := HTTP_SUCCESSFUL_RESPONSE;
        response.content := Some(output.json);
      }
    }
  }

  /** A batch's result with answers given before it. */
  ghost function Prepend(answers: seq<Json>, step: Step<Option<seq<Json>>>): Step<Option<seq<Json>>> {
    Step(step.calls, if step.result.None? then None else Some(answers + step.result.value))
  }

  lemma PrependTwice(first: seq<Json>, second: seq<Json>, step: Step<Option<seq<Json>>>)
    ensures Prepend(first, Prepend(second, step)) == Prepend(first + second, step)
    ensures Prepend([], step) == step
  {
    if step.result.Some? {
      assert first + (second + step.result.value) == first + second + step.result.value;
      assert [] + step.result.value == step.result.value;
    }
  }
}
