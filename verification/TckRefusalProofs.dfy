/**
 Requests whose parameters do not become arguments: which of them a client reads as INVALID_PARAMS and which, although the
 fault is in the parameters, as INTERNAL_ERROR. The difference is told from the request's JSON.
 */
module TckRefusalProofs {
  import opened Wrappers
  import opened Json
  import Rpc = JsonRpcException
  import opened HederaKeys
  import opened JsonTypeMapper
  import opened JsonTypeMapperProofs
  import opened TckServer
  import opened TckServerProofs
  import opened TckParameterProofs
  import KR = KeyRequest
  import CTP = CommonTransactionParams

  // One parameter.

  /** The value can be converted. */
  predicate Reads(b: Backend, t: ParamType, param: Json) {
    if param.Null? then t.Optional?
    else
      match t.base
      case BoolType => param.Bool?
      case StringType => param.Str?
      case KeyRequestsType => param.Arr? && KR.FirstReadFault(KR.NodesAll(param.items)).None?
      case CommonParamsType => CTP.Faults(b, param) == []
      case _ => ReadsAsInteger(t.base, param)
  }

  /**
   Its conversion throws what is no JSON-RPC exception: the first faulty node of a list of key requests has an unknown
   type, or the first fault of common parameters is a malformed transaction ID or a signer that is not a key.
   */
  predicate ThrowsOther(b: Backend, base: BaseType, param: Json) {
    match base
    case KeyRequestsType => param.Arr? && KR.FirstReadFault(KR.NodesAll(param.items)) == Some(KR.TypeUnknown)
    case CommonParamsType =>
      var faults := CTP.Faults(b, param);
      faults != [] && (faults[0].TransactionIdMalformed? || faults[0].SignerNotKey?)
    case _ => false
  }

  predicate IsOther(fault: ParamFault) {
    || fault == BadKeyRequest(KR.TypeUnknown)
    || fault == BadParams(CTP.TransactionIdMalformed)
    || fault == BadParams(CTP.SignerNotKey)
  }

  lemma ConversionReads(b: Backend, t: ParamType, params: seq<Json>, i: nat)
    requires i < |params|
    ensures GetParam(b, t, params, i).Ok? <==> Reads(b, t, params[i])
    ensures GetParam(b, t, params, i).Err? ==>
              (IsOther(GetParam(b, t, params, i).error) <==> !params[i].Null? && ThrowsOther(b, t.base, params[i]))
  {
    var param := params[i];
    if !param.Null? {
      match t.base
      case KeyRequestsType => KeyRequestsRead(b, param);
      case CommonParamsType => CommonParamsRead(b, param);
      case _ => ScalarReads(b, t, param);
    }
  }

  lemma KeyRequestsRead(b: Backend, param: Json)
    ensures Convert(b, KeyRequestsType, param).Ok? <==>
            param.Arr? && KR.FirstReadFault(KR.NodesAll(param.items)).None?
    ensures Convert(b, KeyRequestsType, param).Err? ==>
              (IsOther(Convert(b, KeyRequestsType, param).error) <==> ThrowsOther(b, KeyRequestsType, param))
  {
    if param.Arr? {
      KR.ReadFaultsAll(param.items);
    }
  }

  lemma CommonParamsRead(b: Backend, param: Json)
    ensures Convert(b, CommonParamsType, param).Ok? <==> CTP.Faults(b, param) == []
    ensures Convert(b, CommonParamsType, param).Err? ==>
              (IsOther(Convert(b, CommonParamsType, param).error) <==> ThrowsOther(b, CommonParamsType, param))
  {
    CTP.FirstFaultThrown(b, param);
  }

  lemma ScalarReads(b: Backend, t: ParamType, param: Json)
    requires !t.base.KeyRequestsType? && !t.base.CommonParamsType? && !param.Null?
    ensures Convert(b, t.base, param).Ok? <==> Reads(b, t, param)
    ensures Convert(b, t.base, param).Err? ==> !IsOther(Convert(b, t.base, param).error)
  {
  }

  // The list.

  /** The conversion of a parameter throws what is no JSON-RPC exception. */
  predicate Throws(b: Backend, signature: seq<ParamType>, params: seq<Json>, i: nat)
    requires i < |signature| && i < |params|
  {
    !params[i].Null? && ThrowsOther(b, signature[i].base, params[i])
  }

  /** Every check passes, so that the conversions are what is left to fail. */
  ghost predicate ReachesConversion(signature: seq<ParamType>, params: seq<Json>) {
    params != [] && |signature| <= |params| && Passes(signature, params, 0, |signature|)
  }

  /** All parameters that cannot be converted throw something else. */
  ghost predicate AllThrow(b: Backend, signature: seq<ParamType>, params: seq<Json>) {
    && ReachesConversion(signature, params)
    && forall i | 0 <= i < |signature| && !Reads(b, signature[i], params[i]) :: Throws(b, signature, params, i)
  }

  ghost predicate SomeThrow(b: Backend, signature: seq<ParamType>, params: seq<Json>) {
    ReachesConversion(signature, params) && exists i | 0 <= i < |signature| :: Throws(b, signature, params, i)
  }

  /** The first parameter to be converted of those that cannot be. */
  ghost predicate FailsFirst(b: Backend, signature: seq<ParamType>, params: seq<Json>, i: nat) {
    && i < |signature| && i < |params|
    && !Reads(b, signature[i], params[i])
    && exists p: nat :: ComesFirst(b, signature, params, i, p)
  }

  ghost predicate ComesFirst(b: Backend, signature: seq<ParamType>, params: seq<Json>, i: nat, p: nat) {
    var order := EvaluationOrder(b, |signature|);
    && p < |order| && order[p] == i
    && forall q | 0 <= q < p && order[q] < |signature| && order[q] < |params| ::
         Reads(b, signature[order[q]], params[order[q]])
  }

  /** A refused list that gets as far as the conversions: the first in the compiler's order decides. */
  lemma PrepareThrows(b: Backend, signature: seq<ParamType>, params: seq<Json>)
    requires Prepare(b, signature, params).Err? && ReachesConversion(signature, params)
    ensures exists i: nat :: FailsFirst(b, signature, params, i)
    ensures forall i: nat | FailsFirst(b, signature, params, i) ::
              IsOther(Prepare(b, signature, params).error) <==> Throws(b, signature, params, i)
  {
    FirstFault(signature, params, 0);
    AllConverted(b, signature, params);
    var order := EvaluationOrder(b, |signature|);
    var p: nat :| ThrowsFirst(b, signature, params, order, p, GetAll(b, signature, params).error);
    forall q | 0 <= q < |order| && order[q] < |signature|
      ensures GetParam(b, signature[order[q]], params, order[q]).Ok? <==> Reads(b, signature[order[q]], params[order[q]])
    {
      ConversionReads(b, signature[order[q]], params, order[q]);
    }
    assert ComesFirst(b, signature, params, order[p], p);
    assert FailsFirst(b, signature, params, order[p]);
    forall i: nat | FailsFirst(b, signature, params, i)
      ensures i == order[p]
    {
      var q: nat :| ComesFirst(b, signature, params, i, q);
      assert !(q < p) && !(p < q);
    }
    ConversionReads(b, signature[order[p]], params, order[p]);
  }

  /** One that does not: no conversion is to blame for anything else than a missing parameter. */
  lemma PrepareChecks(b: Backend, signature: seq<ParamType>, params: seq<Json>)
    requires Prepare(b, signature, params).Err? && !ReachesConversion(signature, params)
    ensures !IsOther(Prepare(b, signature, params).error)
  {
    FirstFault(signature, params, 0);
    ConversionFaults(b, signature, params);
  }

  lemma SomeUnread(b: Backend, signature: seq<ParamType>, params: seq<Json>, i: nat)
    requires ReachesConversion(signature, params) && i < |signature| && !Reads(b, signature[i], params[i])
    ensures Prepare(b, signature, params).Err?
  {
    ConversionReads(b, signature[i], params, i);
    AllConverted(b, signature, params);
  }

  // The response.

  lemma ReadFaultCode(fault: KR.ReadFault)
    ensures var e := BadKeyRequest(fault).ToError();
            if fault.TypeUnknown? then e.Standard?
            else e.Rpc? && e.rpc.code == Rpc.INVALID_PARAMS && e.rpc.data == Null
  {
  }

  lemma ParamsFaultCode(fault: CTP.ParamsFault)
    ensures var e := BadParams(fault).ToError();
            if fault.TransactionIdMalformed? || fault.SignerNotKey? then e.Standard?
            else e.Rpc? && e.rpc.code == Rpc.INVALID_PARAMS && e.rpc.data == Null
  {
  }

  lemma FaultCode(parameters: map<string, seq<string>>, name: string, fault: ParamFault)
    requires !fault.OutOfRange? && HasName(parameters, name, fault)
    ensures var e := Rethrow(parameters, name, fault.ToError());
            !e.Undefined? && Reported(e).code == if IsOther(fault) then Rpc.INTERNAL_ERROR else Rpc.INVALID_PARAMS
  {
    match fault
    case BadKeyRequest(readFault) =>
      ReadFaultCode(readFault);
      PlainIsKept(parameters, name, fault.ToError());
    case BadParams(paramsFault) =>
      ParamsFaultCode(paramsFault);
      PlainIsKept(parameters, name, fault.ToError());
    case _ => ParamFaultCode(parameters, name, fault);
  }

  /** The parameters of a request as the list that its function is to be called with. */
  function ListOf(r: Registry, request: Json): Result<seq<Json>, RequestFault>
    requires Validate(request).None?
  {
    Normalize(r.parameters, NameOf(request), ParamsOf(request))
  }

  lemma RefusedExecution(b: Backend, r: Registry, calls: seq<Call>, request: Json)
    requires Validate(request).None? && NameOf(request) in FunctionsOf(r, TableOf(request))
    requires Execution(b, r, calls, request).calls == calls
    requires Execution(b, r, calls, request).result.Err? && !Execution(b, r, calls, request).result.error.Undefined?
    ensures AnswersWith(HandleSingle(b, r, calls, request), calls, Reported(Execution(b, r, calls, request).result.error).code)
  {
    FailedExecution(b, r, calls, request);
    ErrorReadBack(RequestId(request), Execution(b, r, calls, request).result.error);
  }

  lemma StructuredParams(request: Json)
    requires Validate(request).None?
    ensures ParamsOf(request).Arr? || ParamsOf(request).Obj?
  {
  }

  /**
   A valid request for a registered function that is not called and stays within its list of parameters is answered with
   INTERNAL_ERROR exactly if the conversions are reached and the first one, in the compiler's order, of a parameter that
   cannot be converted throws what is no JSON-RPC exception; and with INVALID_PARAMS otherwise.
   */
  lemma RefusedInOrder(b: Backend, r: Registry, calls: seq<Call>, request: Json)
    requires Aligned(r) && Validate(request).None? && NameOf(request) in FunctionsOf(r, TableOf(request))
    requires CallOf(b, r, request).None? && !ReadsOutOfRange(r, request)
    ensures var signature := FunctionsOf(r, TableOf(request))[NameOf(request)].signature;
            AnswersWith(HandleSingle(b, r, calls, request), calls,
                        if ListOf(r, request).Ok? && FirstThrows(b, signature, ListOf(r, request).value)
                        then Rpc.INTERNAL_ERROR else Rpc.INVALID_PARAMS)
  {
    var name, table, params := NameOf(request), TableOf(request), ParamsOf(request);
    var handler := FunctionsOf(r, table)[name];
    var list := ListOf(r, request);
    StructuredParams(request);
    if list.Err? {
      UnnamedRefused(b, r, calls, table, name, handler, params);
    } else {
      var fault := Prepare(b, handler.signature, list.value).error;
      FirstThrowsExactly(b, handler.signature, list.value);
      IndexSafety(b, handler.signature, list.value);
      FailedCheckIndex(b, handler.signature, list.value);
      FailedArguments(b, r, calls, table, name, handler, params, fault);
      FaultCode(r.parameters, name, fault);
    }
    RefusedExecution(b, r, calls, request);
  }

  ghost predicate FirstThrows(b: Backend, signature: seq<ParamType>, params: seq<Json>) {
    && ReachesConversion(signature, params)
    && exists i: nat :: FailsFirst(b, signature, params, i) && Throws(b, signature, params, i)
  }

  lemma FirstThrowsExactly(b: Backend, signature: seq<ParamType>, params: seq<Json>)
    requires Prepare(b, signature, params).Err?
    ensures IsOther(Prepare(b, signature, params).error) <==> FirstThrows(b, signature, params)
  {
    if ReachesConversion(signature, params) {
      PrepareThrows(b, signature, params);
    } else {
      PrepareChecks(b, signature, params);
    }
  }

  /**
   Whatever the order: the answer is INTERNAL_ERROR if every parameter that cannot be converted throws something else,
   INVALID_PARAMS if none does, and one of the two if some do.
   */
  lemma RefusedParameters(b: Backend, r: Registry, calls: seq<Call>, request: Json)
    requires Aligned(r) && Validate(request).None? && NameOf(request) in FunctionsOf(r, TableOf(request))
    requires CallOf(b, r, request).None? && !ReadsOutOfRange(r, request)
    ensures var signature := FunctionsOf(r, TableOf(request))[NameOf(request)].signature;
            var list, handled := ListOf(r, request), HandleSingle(b, r, calls, request);
            && (list.Ok? && AllThrow(b, signature, list.value) ==> AnswersWith(handled, calls, Rpc.INTERNAL_ERROR))
            && (list.Err? || !SomeThrow(b, signature, list.value) ==> AnswersWith(handled, calls, Rpc.INVALID_PARAMS))
            && (AnswersWith(handled, calls, Rpc.INTERNAL_ERROR) || AnswersWith(handled, calls, Rpc.INVALID_PARAMS))
  {
    RefusedInOrder(b, r, calls, request);
    var list := ListOf(r, request);
    if list.Ok? {
      InEveryOrder(b, FunctionsOf(r, TableOf(request))[NameOf(request)].signature, list.value);
    }
  }

  lemma InEveryOrder(b: Backend, signature: seq<ParamType>, params: seq<Json>)
    requires Prepare(b, signature, params).Err?
    ensures AllThrow(b, signature, params) ==> FirstThrows(b, signature, params)
    ensures FirstThrows(b, signature, params) ==> SomeThrow(b, signature, params)
  {
    if AllThrow(b, signature, params) {
      PrepareThrows(b, signature, params);
    }
  }

  /** A parameter that cannot be converted means that the function is not called, and that nothing is read out of range. */
  lemma UnreadRefused(b: Backend, r: Registry, request: Json, i: nat)
    requires Validate(request).None? && NameOf(request) in FunctionsOf(r, TableOf(request)) && ListOf(r, request).Ok?
    requires var signature := FunctionsOf(r, TableOf(request))[NameOf(request)].signature;
             && ReachesConversion(signature, ListOf(r, request).value)
             && i < |signature| && !Reads(b, signature[i], ListOf(r, request).value[i])
    ensures CallOf(b, r, request).None? && !ReadsOutOfRange(r, request)
  {
    SomeUnread(b, FunctionsOf(r, TableOf(request))[NameOf(request)].signature, ListOf(r, request).value, i);
  }

  /** So the first one, in the compiler's order, decides. */
  lemma FirstServed(b: Backend, r: Registry, calls: seq<Call>, request: Json, i: nat)
    requires Aligned(r) && Validate(request).None? && NameOf(request) in FunctionsOf(r, TableOf(request))
    requires ListOf(r, request).Ok?
    requires var signature, list := FunctionsOf(r, TableOf(request))[NameOf(request)].signature, ListOf(r, request).value;
             ReachesConversion(signature, list) && FailsFirst(b, signature, list, i)
    ensures AnswersWith(HandleSingle(b, r, calls, request), calls,
                        if Throws(b, FunctionsOf(r, TableOf(request))[NameOf(request)].signature, ListOf(r, request).value, i)
                        then Rpc.INTERNAL_ERROR else Rpc.INVALID_PARAMS)
  {
    var signature, list := FunctionsOf(r, TableOf(request))[NameOf(request)].signature, ListOf(r, request).value;
    UnreadRefused(b, r, request, i);
    SomeUnread(b, signature, list, i);
    PrepareThrows(b, signature, list);
    RefusedInOrder(b, r, calls, request);
  }

  /** And if all of them throw something else, no order helps. */
  lemma ThrowsServed(b: Backend, r: Registry, calls: seq<Call>, request: Json, i: nat)
    requires Aligned(r) && Validate(request).None? && NameOf(request) in FunctionsOf(r, TableOf(request))
    requires ListOf(r, request).Ok?
    requires var signature, list := FunctionsOf(r, TableOf(request))[NameOf(request)].signature, ListOf(r, request).value;
             AllThrow(b, signature, list) && i < |signature| && !Reads(b, signature[i], list[i])
    ensures AnswersWith(HandleSingle(b, r, calls, request), calls, Rpc.INTERNAL_ERROR)
  {
    UnreadRefused(b, r, request, i);
    RefusedParameters(b, r, calls, request);
  }
}
