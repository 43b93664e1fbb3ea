/**
 Named and positional parameters (JSON-RPC 2.0 Specification, section 4.2), which faults are reported how, and exactly
 when a request leaves the defined behaviour of the server.
 */
module TckParameterProofs {
  import opened Wrappers
  import opened Json
  import Rpc = JsonRpcException
  import opened HederaKeys
  import opened JsonTypeMapper
  import opened JsonTypeMapperProofs
  import opened TckServer
  import opened TckServerProofs

  // Named against positional.

  /** The same request with other parameters. */
  function WithParams(request: Json, params: Json): Json
    requires request.Obj?
  {
    Obj(request.members["params" := params])
  }

  lemma OnlyParamsChange(request: Json, params: Json, other: Json)
    requires request.Obj? && (params.Obj? || params.Arr?) && (other.Obj? || other.Arr?)
    ensures Validate(WithParams(request, params)) == Validate(WithParams(request, other))
    ensures RequestId(WithParams(request, params)) == RequestId(WithParams(request, other))
    ensures Validate(WithParams(request, params)).None? ==>
              NameOf(WithParams(request, params)) == NameOf(WithParams(request, other))
    ensures ParamsOf(WithParams(request, params)) == if Size(params) > 0 then params else Arr([])
  {
  }

  lemma SameExecution(b: Backend, r: Registry, calls: seq<Call>, table: Table, name: string, handler: Handler,
                      params: Json, other: Json)
    requires Normalize(r.parameters, name, params) == Normalize(r.parameters, name, other)
    ensures Execute(b, r, calls, table, name, handler, params) == Execute(b, r, calls, table, name, handler, other)
  {
  }

  /** Handling a request looks at its version, method and ID, and hands its parameters on. */
  lemma SameEnvelope(b: Backend, r: Registry, calls: seq<Call>, request: Json, other: Json)
    requires Validate(request) == Validate(other) && RequestId(request) == RequestId(other)
    requires Validate(request).None? ==> NameOf(request) == NameOf(other)
    requires Validate(request).None? && NameOf(request) in FunctionsOf(r, TableOf(request)) ==>
               Execution(b, r, calls, request) == Execution(b, r, calls, other)
    ensures HandleSingle(b, r, calls, request) == HandleSingle(b, r, calls, other)
  {
  }

  /** Requests whose parameters become the same list are handled alike, whatever the functions and the history. */
  lemma SameListSameOutcome(b: Backend, r: Registry, calls: seq<Call>, request: Json, params: Json, other: Json)
    requires request.Obj? && (params.Obj? || params.Arr?) && (other.Obj? || other.Arr?)
    requires var p := WithParams(request, params);
             Validate(p).None? ==>
               Normalize(r.parameters, NameOf(p), ParamsOf(p))
               == Normalize(r.parameters, NameOf(p), ParamsOf(WithParams(request, other)))
    ensures HandleSingle(b, r, calls, WithParams(request, params))
         == HandleSingle(b, r, calls, WithParams(request, other))
  {
    var p, q := WithParams(request, params), WithParams(request, other);
    OnlyParamsChange(request, params, other);
    if Validate(p).None? && NameOf(p) in FunctionsOf(r, TableOf(p)) {
      SameExecution(b, r, calls, TableOf(p), NameOf(p), FunctionsOf(r, TableOf(p))[NameOf(p)], ParamsOf(p), ParamsOf(q));
    }
    SameEnvelope(b, r, calls, p, q);
  }

  /**
   A call with a non-empty object of parameters, of a function with declared parameters, is the call with the list of the
   declared names' values, null for an absent one: same response, same call of the function. The order of members and
   members that are not declared play no part.
   */
  lemma NamedEqualsPositional(b: Backend, r: Registry, calls: seq<Call>, request: Json, members: map<string, Json>)
    requires request.Obj? && members != map[]
    requires HasKeyType(request, "method", StringKind) && request.members["method"].text in r.parameters
    ensures var names := r.parameters[request.members["method"].text];
            HandleSingle(b, r, calls, WithParams(request, Obj(members)))
            == HandleSingle(b, r, calls, WithParams(request, Arr(Positional(names, members))))
  {
    var names := r.parameters[request.members["method"].text];
    var list := Positional(names, members);
    OnlyParamsChange(request, Obj(members), Arr(list));
    OnlyParamsChange(request, Arr(list), Obj(members));
    assert |members| > 0;
    SameListSameOutcome(b, r, calls, request, Obj(members), Arr(list));
  }

  /** Two non-empty objects that agree on the declared names are handled alike. */
  lemma OnlyDeclaredMatter(b: Backend, r: Registry, calls: seq<Call>, request: Json,
                           members: map<string, Json>, others: map<string, Json>)
    requires request.Obj? && members != map[] && others != map[]
    requires HasKeyType(request, "method", StringKind) && request.members["method"].text in r.parameters
    requires forall name | name in r.parameters[request.members["method"].text] ::
               Lookup(members, name) == Lookup(others, name)
    ensures HandleSingle(b, r, calls, WithParams(request, Obj(members)))
         == HandleSingle(b, r, calls, WithParams(request, Obj(others)))
  {
    var names := r.parameters[request.members["method"].text];
    NamedEqualsPositional(b, r, calls, request, members);
    NamedEqualsPositional(b, r, calls, request, others);
    assert Positional(names, members) == Positional(names, others);
  }

  // Faults of parameters.

  /** An exception that the catch clauses pass on, whose data they do not look into. */
  predicate IsPlain(e: Rpc.Error) {
    !e.Undefined? && (e.Rpc? && e.rpc.code == Rpc.INVALID_PARAMS ==> Size(e.rpc.data) == 0)
  }

  lemma PlainIsKept(parameters: map<string, seq<string>>, name: string, e: Rpc.Error)
    requires IsPlain(e)
    ensures var f := Rethrow(parameters, name, e);
            if e.JsonTypeError? then f.Rpc? && f.rpc.code == Rpc.INVALID_PARAMS && f.rpc.data == Null else f == e
  {
  }

  /** A method whose parameters become arguments is called with them, and its outcome is the answer. */
  lemma MethodServed(b: Backend, r: Registry, calls: seq<Call>, request: Json, args: seq<Arg>)
    requires Validate(request).None? && !RequestId(request).Null? && NameOf(request) in r.methods
    requires Arguments(b, r, NameOf(request), r.methods[NameOf(request)].signature, ParamsOf(request)) == Ok(args)
    requires var result := r.methods[NameOf(request)].body(calls, args);
             result.Err? ==> IsPlain(result.error) && !result.error.JsonTypeError?
    ensures HandleSingle(b, r, calls, request)
         == Step(calls + [Call(Methods, NameOf(request), args)],
                 MethodOutcome(RequestId(request), r.methods[NameOf(request)].body(calls, args)))
  {
    var name := NameOf(request);
    Entered(b, r, calls, Methods, name, r.methods[name], ParamsOf(request), args);
    HandledExecution(b, r, calls, request);
    var result := r.methods[name].body(calls, args);
    if result.Err? {
      PlainIsKept(r.parameters, name, result.error);
    }
  }

  function MethodOutcome(id: Json, result: Result<Json, Rpc.Error>): Outcome {
    match result
    case Ok(value) => Answer(Envelope(id, "result", value))
    case Err(e) => ErrorOutcome(id, e)
  }

  /** An exception that carries the index of a parameter. */
  predicate CarriesIndex(e: Rpc.Error, index: uint32) {
    e.Rpc? && e.rpc.code == Rpc.INVALID_PARAMS && e.rpc.data == Unsigned(index)
  }

  /** The index of a failed check is taken out of the data and its location is put into the message. */
  lemma IndexIsLocated(parameters: map<string, seq<string>>, name: string, e: Rpc.Error, index: uint32)
    requires CarriesIndex(e, index)
    requires name in parameters ==> index < |parameters[name]|
    ensures var f := Rethrow(parameters, name, e);
            && f.Rpc? && f.rpc.code == Rpc.INVALID_PARAMS && f.rpc.data == Null
            && f.rpc.message == e.rpc.message + FOR_PARAMETER_TEXT + Location(parameters, name, index)
  {
    assert DataIndex(e.rpc.data) == Some(index);
    assert Rethrow(parameters, name, e) == ProcessTypeError(parameters, name, e.rpc);
  }

  /** The index of a failed check has a name, if its function's parameters have. */
  ghost predicate HasName(parameters: map<string, seq<string>>, name: string, fault: ParamFault) {
    fault.FailedCheck? ==> fault.index < 0x1_0000_0000 && (name in parameters ==> fault.index < |parameters[name]|)
  }

  lemma FaultForm(fault: ParamFault)
    requires fault.FailedCheck? ==> fault.index < 0x1_0000_0000
    ensures match fault
            case FailedCheck(index, _) => CarriesIndex(fault.ToError(), index)
            case OutOfRange => fault.ToError().Undefined?
            case _ => IsPlain(fault.ToError())
  {
  }

  /** A fault of either layer becomes an exception with the code INVALID_PARAMS and no data. */
  lemma ParamFaultCode(parameters: map<string, seq<string>>, name: string, fault: ParamFault)
    requires fault.FailedCheck? || fault.MissingRequired? || fault.WrongJsonType?
    requires HasName(parameters, name, fault)
    ensures var e := Rethrow(parameters, name, fault.ToError());
            e.Rpc? && e.rpc.code == Rpc.INVALID_PARAMS && e.rpc.data == Null
  {
    FaultForm(fault);
    if fault.FailedCheck? {
      IndexIsLocated(parameters, name, fault.ToError(), fault.index);
    } else {
      PlainIsKept(parameters, name, fault.ToError());
    }
  }

  /** The declared parameter at an index fails its check. */
  ghost predicate FailsAt(signature: seq<ParamType>, names: seq<string>, members: map<string, Json>, i: nat)
    requires i < |names| == |signature|
  {
    CheckParam(signature[i], i, Lookup(members, names[i])).Some?
  }

  lemma EarliestFault(b: Backend, signature: seq<ParamType>, names: seq<string>, members: map<string, Json>)
    returns (i: nat)
    requires |names| == |signature|
    requires exists k | 0 <= k < |names| :: FailsAt(signature, names, members, k)
    ensures i < |names| && FailsAt(signature, names, members, i)
    ensures forall k | 0 <= k < i :: !FailsAt(signature, names, members, k)
    ensures Prepare(b, signature, Positional(names, members))
         == Err(FailedCheck(i, CheckParam(signature[i], i, Lookup(members, names[i])).value))
  {
    var list := Positional(names, members);
    var k :| 0 <= k < |names| && FailsAt(signature, names, members, k);
    assert CheckParam(signature[k], k, list[k]).Some?;
    FirstFault(signature, list, 0);
    i :| 0 <= i < |names| && Passes(signature, list, 0, i) && CheckParam(signature[i], i, list[i]).Some?
      && CheckAll(signature, list, 0) == Some(FailedCheck(i, CheckParam(signature[i], i, list[i]).value));
  }

  /**
   A named call with a parameter that fails its check does not reach the function, and its error names the earliest
   declared parameter that fails, wherever it stands in the request.
   */
  lemma EarliestFaultNamed(b: Backend, r: Registry, calls: seq<Call>, table: Table, name: string, handler: Handler,
                           members: map<string, Json>)
    requires name in r.parameters && |handler.signature| == |r.parameters[name]| < 0x1_0000_0000
    requires exists k | 0 <= k < |r.parameters[name]| :: FailsAt(handler.signature, r.parameters[name], members, k)
    ensures var names, step := r.parameters[name], Execute(b, r, calls, table, name, handler, Obj(members));
            exists i | 0 <= i < |names| && FailsAt(handler.signature, names, members, i) ::
              && (forall k | 0 <= k < i :: !FailsAt(handler.signature, names, members, k))
              && step.calls == calls
              && step.result.Err? && step.result.error.Rpc?
              && step.result.error.rpc.code == Rpc.INVALID_PARAMS
              && step.result.error.rpc.message
                 == CheckParam(handler.signature[i], i, Lookup(members, names[i])).value.Message()
                    + FOR_PARAMETER_TEXT + Location(r.parameters, name, i)
  {
    var names := r.parameters[name];
    var i := EarliestFault(b, handler.signature, names, members);
    var fault := FailedCheck(i, CheckParam(handler.signature[i], i, Lookup(members, names[i])).value);
    CheckForm(i, fault.fault);
    IndexIsLocated(r.parameters, name, fault.ToError(), i);
    FailedArguments(b, r, calls, table, name, handler, Obj(members), fault);
  }

  lemma CheckForm(index: nat, fault: CheckFault)
    requires index < 0x1_0000_0000
    ensures var e := FailedCheck(index, fault).ToError();
            CarriesIndex(e, index) && e.rpc.message == fault.Message()
  {
  }

  /** A call without arguments is not made; its fault is rethrown. */
  lemma FailedArguments(b: Backend, r: Registry, calls: seq<Call>, table: Table, name: string, handler: Handler,
                        params: Json, fault: ParamFault)
    requires Arguments(b, r, name, handler.signature, params) == Err(InParams(fault))
    ensures Execute(b, r, calls, table, name, handler, params)
         == Step(calls, Err(Rethrow(r.parameters, name, fault.ToError())))
  {
  }

  /** Nulls for every parameter: what an object with only undeclared members becomes. */
  ghost predicate AllNull(list: seq<Json>) {
    forall j | j in list :: j.Null?
  }

  lemma NoArguments(b: Backend, signature: seq<ParamType>, nulls: seq<Json>)
    requires AllNull(nulls) && |nulls| == |signature| && signature != []
    ensures if AllOptional(signature) then
              && Prepare(b, signature, []) == Ok(Nothing(|signature|))
              && Prepare(b, signature, nulls) == Ok(Nothing(|signature|))
            else
              && Prepare(b, signature, []).Err? && Prepare(b, signature, []).error.MissingRequired?
              && Prepare(b, signature, nulls).Err? && Prepare(b, signature, nulls).error.FailedCheck?
              && Prepare(b, signature, nulls).error.index < |signature|
  {
    PrepareMeaning(b, signature, []);
    PrepareMeaning(b, signature, nulls);
    assert forall i | 0 <= i < |signature| :: nulls[i] in nulls && signature[i] in signature;
    if AllOptional(signature) {
      assert Prepare(b, signature, []).value == Nothing(|signature|) == Prepare(b, signature, nulls).value;
    } else {
      var i :| 0 <= i < |signature| && signature[i].Required?;
      assert CheckParam(signature[i], i, nulls[i]).Some?;
      FirstFault(signature, nulls, 0);
      ConversionFaults(b, signature, []);
    }
  }

  function Nothing(n: nat): seq<Arg> {
    seq(n, _ => NoArg)
  }

  predicate AllOptional(signature: seq<ParamType>) {
    forall t | t in signature :: t.Optional?
  }

  /** Not a call, but INVALID_PARAMS. */
  ghost predicate IsRefused(step: Step<Result<Json, Rpc.Error>>, calls: seq<Call>) {
    step.calls == calls && step.result.Err? && step.result.error.Rpc? && step.result.error.rpc.code == Rpc.INVALID_PARAMS
  }

  lemma RefusedFault(b: Backend, r: Registry, calls: seq<Call>, table: Table, name: string, handler: Handler, params: Json,
                     fault: ParamFault)
    requires Arguments(b, r, name, handler.signature, params) == Err(InParams(fault))
    requires fault.FailedCheck? || fault.MissingRequired? || fault.WrongJsonType?
    requires HasName(r.parameters, name, fault)
    ensures IsRefused(Execute(b, r, calls, table, name, handler, params), calls)
  {
    FailedArguments(b, r, calls, table, name, handler, params, fault);
    ParamFaultCode(r.parameters, name, fault);
  }

  /**
   Agreement of {} (which is not normalised) and an object of undeclared members (which becomes a list of nulls): if all
   parameters are optional the function is called with the same arguments and returns the same; otherwise neither call
   reaches it, and both are answered with INVALID_PARAMS.
   */
  lemma EmptyObjectAgreement(b: Backend, r: Registry, calls: seq<Call>, table: Table, name: string, handler: Handler,
                             others: map<string, Json>)
    requires name in r.parameters && r.parameters[name] != []
    requires |handler.signature| == |r.parameters[name]| < 0x1_0000_0000
    requires forall declared | declared in r.parameters[name] :: declared !in others
    ensures var empty := Execute(b, r, calls, table, name, handler, Arr([]));
            var undeclared := Execute(b, r, calls, table, name, handler, Obj(others));
            if AllOptional(handler.signature) then
              empty == undeclared && empty.calls == calls + [Call(table, name, Nothing(|handler.signature|))]
            else IsRefused(empty, calls) && IsRefused(undeclared, calls)
  {
    var nulls := Positional(r.parameters[name], others);
    assert AllNull(nulls) by {
      assert forall i | 0 <= i < |nulls| :: r.parameters[name][i] in r.parameters[name];
    }
    NoArguments(b, handler.signature, nulls);
    if AllOptional(handler.signature) {
      SameArguments(b, r, calls, table, name, handler, Arr([]), Obj(others), Nothing(|handler.signature|));
    } else {
      RefusedFault(b, r, calls, table, name, handler, Arr([]), Prepare(b, handler.signature, []).error);
      RefusedFault(b, r, calls, table, name, handler, Obj(others), Prepare(b, handler.signature, nulls).error);
    }
  }

  lemma SameArguments(b: Backend, r: Registry, calls: seq<Call>, table: Table, name: string, handler: Handler,
                      params: Json, other: Json, args: seq<Arg>)
    requires Arguments(b, r, name, handler.signature, params) == Ok(args)
    requires Arguments(b, r, name, handler.signature, other) == Ok(args)
    ensures Execute(b, r, calls, table, name, handler, params) == Execute(b, r, calls, table, name, handler, other)
    ensures Execute(b, r, calls, table, name, handler, params).calls == calls + [Call(table, name, args)]
  {
  }

  /** No call was made, and the client reads an error with the code. */
  ghost predicate AnswersWith(step: Step<Outcome>, calls: seq<Call>, code: int16) {
    && step.calls == calls
    && step.result.Answer?
    && HasKey(step.result.json, "error")
    && Rpc.FromJson(step.result.json.members["error"]).code == code
  }

  lemma RefusedRequest(b: Backend, r: Registry, calls: seq<Call>, request: Json)
    requires Validate(request).None? && NameOf(request) in FunctionsOf(r, TableOf(request))
    requires IsRefused(Execution(b, r, calls, request), calls)
    ensures AnswersWith(HandleSingle(b, r, calls, request), calls, Rpc.INVALID_PARAMS)
  {
    var e := Execution(b, r, calls, request).result.error;
    ErrorReadBack(RequestId(request), e);
    assert Reported(e) == e.rpc;
    FailedExecution(b, r, calls, request);
  }

  lemma FailedExecution(b: Backend, r: Registry, calls: seq<Call>, request: Json)
    requires Validate(request).None? && NameOf(request) in FunctionsOf(r, TableOf(request))
    requires Execution(b, r, calls, request).result.Err?
    ensures HandleSingle(b, r, calls, request)
         == Step(Execution(b, r, calls, request).calls,
                 ErrorOutcome(RequestId(request), Execution(b, r, calls, request).result.error))
  {
  }

  /** JSON-RPC 2.0, section 5.1: an invalid request, and one for an unknown function. */
  lemma InvalidOrUnknown(b: Backend, r: Registry, calls: seq<Call>, request: Json)
    ensures Validate(request).Some? ==> AnswersWith(HandleSingle(b, r, calls, request), calls, Rpc.INVALID_REQUEST)
    ensures Validate(request).None? && NameOf(request) !in FunctionsOf(r, TableOf(request)) ==>
              AnswersWith(HandleSingle(b, r, calls, request), calls, Rpc.METHOD_NOT_FOUND)
  {
    var id := RequestId(request);
    if Validate(request).Some? {
      ErrorReadBack(id, Validate(request).value.ToError());
    } else {
      ErrorReadBack(id, NoSuchMethod(NameOf(request)).ToError());
      ErrorReadBack(id, NoSuchNotification(NameOf(request)).ToError());
    }
  }

  lemma UnnamedRefused(b: Backend, r: Registry, calls: seq<Call>, table: Table, name: string, handler: Handler, params: Json)
    requires Arguments(b, r, name, handler.signature, params) == Err(NoNamedParams)
    ensures IsRefused(Execute(b, r, calls, table, name, handler, params), calls)
  {
    PlainIsKept(r.parameters, name, NoNamedParams.ToError());
  }

  /** The same agreement for whole requests. */
  lemma EmptyObjectRequests(b: Backend, r: Registry, calls: seq<Call>, request: Json, others: map<string, Json>)
    requires request.Obj? && others != map[]
    requires var q := WithParams(request, Obj(others));
             && Validate(q).None?
             && NameOf(q) in FunctionsOf(r, TableOf(q))
             && NameOf(q) in r.parameters && r.parameters[NameOf(q)] != []
             && |FunctionsOf(r, TableOf(q))[NameOf(q)].signature| == |r.parameters[NameOf(q)]| < 0x1_0000_0000
             && forall declared | declared in r.parameters[NameOf(q)] :: declared !in others
    ensures var p, q := WithParams(request, Obj(map[])), WithParams(request, Obj(others));
            if AllOptional(FunctionsOf(r, TableOf(q))[NameOf(q)].signature) then
              HandleSingle(b, r, calls, p) == HandleSingle(b, r, calls, q)
            else
              && AnswersWith(HandleSingle(b, r, calls, p), calls, Rpc.INVALID_PARAMS)
              && AnswersWith(HandleSingle(b, r, calls, q), calls, Rpc.INVALID_PARAMS)
  {
    var p, q := WithParams(request, Obj(map[])), WithParams(request, Obj(others));
    OnlyParamsChange(request, Obj(map[]), Obj(others));
    OnlyParamsChange(request, Obj(others), Obj(map[]));
    assert |others| > 0;
    var handler := FunctionsOf(r, TableOf(q))[NameOf(q)];
    EmptyObjectAgreement(b, r, calls, TableOf(q), NameOf(q), handler, others);
    if AllOptional(handler.signature) {
      SameEnvelope(b, r, calls, p, q);
    } else {
      RefusedRequest(b, r, calls, p);
      RefusedRequest(b, r, calls, q);
    }
  }

  // Undefined behaviour.

  /** A body that behaves as the SDK client's do: called with its types, it returns or throws no INVALID_PARAMS with data. */
  ghost predicate Tame(h: Handler) {
    forall calls, args ::
      AllSuit(h.signature, args) && h.body(calls, args).Err? ==> IsPlain(h.body(calls, args).error)
  }

  /** The length of a name's declared parameters is the number of parameters of its functions. */
  ghost predicate Aligned(r: Registry) {
    && (forall name | name in r.methods :: Tame(r.methods[name]) && |r.methods[name].signature| < 0x1_0000_0000)
    && (forall name | name in r.notifications ::
          Tame(r.notifications[name]) && |r.notifications[name].signature| < 0x1_0000_0000)
    && (forall name | name in r.parameters && name in r.methods ::
          |r.methods[name].signature| == |r.parameters[name]|)
    && (forall name | name in r.parameters && name in r.notifications ::
          |r.notifications[name].signature| == |r.parameters[name]|)
  }

  /** What the catch clauses make of a fault is defined, if the fault is. */
  lemma RethrowDefined(parameters: map<string, seq<string>>, name: string, fault: ParamFault)
    requires HasName(parameters, name, fault)
    ensures Rethrow(parameters, name, fault.ToError()).Undefined? <==> fault.OutOfRange?
  {
    FaultForm(fault);
    match fault
    case FailedCheck(index, check) => IndexIsLocated(parameters, name, fault.ToError(), index);
    case OutOfRange =>
    case _ => PlainIsKept(parameters, name, fault.ToError());
  }

  lemma FailedCheckIndex(b: Backend, signature: seq<ParamType>, list: seq<Json>)
    ensures Prepare(b, signature, list).Err? && Prepare(b, signature, list).error.FailedCheck? ==>
              Prepare(b, signature, list).error.index < |signature|
  {
    FirstFault(signature, list, 0);
    ConversionFaults(b, signature, list);
  }

  /** The request's list of parameters is not empty, too short for the function it names, and passes as far as it goes. */
  ghost predicate ReadsOutOfRange(r: Registry, request: Json) {
    && Validate(request).None?
    && NameOf(request) in FunctionsOf(r, TableOf(request))
    && ParamsOf(request).Arr?
    && var list, signature := ParamsOf(request).items, FunctionsOf(r, TableOf(request))[NameOf(request)].signature;
       && list != []
       && |list| < |signature|
       && Passes(signature, list, 0, |list|)
  }

  /** The faults before a function is entered: only a list read out of range is undefined. */
  lemma ArgumentsDefined(b: Backend, r: Registry, table: Table, name: string, params: Json)
    requires Aligned(r) && name in FunctionsOf(r, table)
    ensures var args := Arguments(b, r, name, FunctionsOf(r, table)[name].signature, params);
            args.Err? ==>
              (Rethrow(r.parameters, name, args.error.ToError()).Undefined? <==> args.error == InParams(OutOfRange))
  {
    var signature := FunctionsOf(r, table)[name].signature;
    var args := Arguments(b, r, name, signature, params);
    if args.Err? {
      if args.error.InParams? {
        var list := Normalize(r.parameters, name, params).value;
        FailedCheckIndex(b, signature, list);
        RethrowDefined(r.parameters, name, args.error.fault);
      } else {
        UnstructuredForm(args.error);
        PlainIsKept(r.parameters, name, args.error.ToError());
      }
    }
  }

  lemma UnstructuredForm(fault: RequestFault)
    requires fault.NoNamedParams? || fault.NotStructured?
    ensures IsPlain(fault.ToError())
  {
  }

  /** Named parameters never read out of range. */
  lemma OnlyListsAreShort(b: Backend, r: Registry, table: Table, name: string, params: Json)
    requires Aligned(r) && name in FunctionsOf(r, table)
    ensures var signature := FunctionsOf(r, table)[name].signature;
            Arguments(b, r, name, signature, params) == Err(InParams(OutOfRange)) <==>
            params.Arr? && Prepare(b, signature, params.items) == Err(OutOfRange)
  {
    if params.Obj? && name in r.parameters {
      IndexSafety(b, FunctionsOf(r, table)[name].signature, Positional(r.parameters[name], params.members));
    }
  }

  /** The exception of a call that is not made, whatever stopped it. */
  lemma NotEntered(b: Backend, r: Registry, calls: seq<Call>, table: Table, name: string, handler: Handler, params: Json)
    requires Arguments(b, r, name, handler.signature, params).Err?
    ensures Execute(b, r, calls, table, name, handler, params)
         == Step(calls, Err(Rethrow(r.parameters, name, Arguments(b, r, name, handler.signature, params).error.ToError())))
  {
  }

  lemma ExecuteDefined(b: Backend, r: Registry, calls: seq<Call>, table: Table, name: string, params: Json)
    requires Aligned(r) && name in FunctionsOf(r, table)
    ensures var h := FunctionsOf(r, table)[name];
            Execute(b, r, calls, table, name, h, params).result == Err(Rpc.Undefined) <==>
            params.Arr? && Prepare(b, h.signature, params.items) == Err(OutOfRange)
  {
    var h := FunctionsOf(r, table)[name];
    OnlyListsAreShort(b, r, table, name, params);
    match Arguments(b, r, name, h.signature, params)
    case Err(_) =>
      ArgumentsDefined(b, r, table, name, params);
      NotEntered(b, r, calls, table, name, h, params);
    case Ok(args) =>
      Entered(b, r, calls, table, name, h, params, args);
      BodyDefined(b, r, name, h, calls, params, args);
  }

  lemma BodyDefined(b: Backend, r: Registry, name: string, h: Handler, calls: seq<Call>, params: Json, args: seq<Arg>)
    requires Tame(h) && Arguments(b, r, name, h.signature, params) == Ok(args)
    ensures h.body(calls, args).Err? ==> !Rethrow(r.parameters, name, h.body(calls, args).error).Undefined?
  {
    PreparedSuits(b, h.signature, Normalize(r.parameters, name, params).value);
    if h.body(calls, args).Err? {
      PlainIsKept(r.parameters, name, h.body(calls, args).error);
    }
  }

  /**
   In a registry whose declared lists match its functions, the behaviour is undefined exactly for positional lists that
   are too short. Named parameters, and the naming of the parameter that failed, never read out of range.
   */
  lemma DefinedBehaviour(b: Backend, r: Registry, calls: seq<Call>, request: Json)
    requires Aligned(r)
    ensures HandleSingle(b, r, calls, request).result.NoBehaviour? <==> ReadsOutOfRange(r, request)
  {
    if Validate(request).None? && NameOf(request) in FunctionsOf(r, TableOf(request)) {
      var name, table, params := NameOf(request), TableOf(request), ParamsOf(request);
      ExecuteDefined(b, r, calls, table, name, params);
      if params.Arr? {
        IndexSafety(b, FunctionsOf(r, table)[name].signature, params.items);
      }
    }
  }
}
