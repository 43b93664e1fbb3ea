/**
 generateKey from the request to the response, in any server that has it registered: the client's JSON is validated, its
 parameters, named or positional, are put in order, checked and converted one by one, the key is made through nested
 encodings, and the response carries a key that decodes to what the request describes, or the first fault.
 */
module ServedKeys {
  import opened Wrappers
  import opened Json
  import Rpc = JsonRpcException
  import opened HederaKeys
  import opened JsonTypeMapper
  import opened JsonTypeMapperProofs
  import opened TckServer
  import opened TckServerProofs
  import opened TckParameterProofs
  import opened TckAnswerProofs
  import opened TckRefusalProofs
  import opened GenerateKeyParameters
  import KR = KeyRequest
  import KH = KeyHelper
  import KP = KeyHelperProofs
  import KL = KeyLogProofs

  /** How many keys the calls so far have generated. */
  function KeysGenerated(b: Backend, calls: seq<Call>): nat {
    if calls == [] then 0
    else
      var last, n := calls[|calls| - 1], KeysGenerated(b, calls[..|calls| - 1]);
      if last.table.Methods? && last.name == GENERATE_KEY then GenerateKeyCall(b, last.args, n).1 else n
  }

  function GenerateKeyHandler(b: Backend): Handler {
    Handler(GENERATE_KEY_TYPES, (calls, args) => GenerateKeyCall(b, args, KeysGenerated(b, calls)).0)
  }

  predicate ServesNames(r: Registry) {
    GENERATE_KEY in r.methods && GENERATE_KEY in r.parameters && r.parameters[GENERATE_KEY] == GENERATE_KEY_NAMES
  }

  /** generateKey is registered, with its parameter names. */
  ghost predicate ServesKeys(b: Backend, r: Registry) {
    ServesNames(r) && r.methods[GENERATE_KEY] == GenerateKeyHandler(b)
  }

  /** A valid call of generateKey. */
  predicate IsKeyCall(request: Json) {
    Validate(request).None? && !RequestId(request).Null? && NameOf(request) == GENERATE_KEY
  }

  /** Its parameters become the arguments. */
  predicate Asks(b: Backend, r: Registry, request: Json, args: seq<Arg>) {
    IsKeyCall(request) && Arguments(b, r, GENERATE_KEY, GENERATE_KEY_TYPES, ParamsOf(request)) == Ok(args)
  }

  lemma AskedSuits(b: Backend, r: Registry, request: Json, args: seq<Arg>)
    requires Asks(b, r, request, args)
    ensures AllSuit(GENERATE_KEY_TYPES, args)
  {
    PreparedSuits(b, GENERATE_KEY_TYPES, ListOf(r, request).value);
  }

  /** They become a tree's fields exactly if the list of them reads as the tree. */
  lemma AsksExactly(b: Backend, r: Registry, request: Json, tree: KR.KeyRequest)
    requires IsKeyCall(request)
    ensures Asks(b, r, request, ArgsOf(tree)) <==> ListOf(r, request).Ok? && ReadsAs(ListOf(r, request).value, tree)
  {
    if ListOf(r, request).Ok? {
      ArgumentsExactly(b, ListOf(r, request).value, tree);
    }
  }

  /** An object that reads as a tree asks for it. */
  lemma NamedAsks(b: Backend, r: Registry, request: Json, tree: KR.KeyRequest)
    requires ServesNames(r) && IsKeyCall(request) && HasKey(request, "params") && request.members["params"].Obj?
    requires KR.FromJson(request.members["params"]) == Ok(tree)
    ensures Asks(b, r, request, ArgsOf(tree))
  {
    var params := request.members["params"];
    assert ParamsOf(request) == params by {
      assert "type" in params.members;
      assert |params.members| > 0;
    }
    NamedTree(params.members, tree, Positional(GENERATE_KEY_NAMES, params.members));
    AsksExactly(b, r, request, tree);
  }

  /** What the serializer writes for a tree asks for the tree's normal form. */
  lemma WrittenAsks(b: Backend, r: Registry, request: Json, tree: KR.KeyRequest)
    requires ServesNames(r) && IsKeyCall(request)
    requires HasKey(request, "params") && request.members["params"] == KR.ToJson(tree)
    ensures Asks(b, r, request, ArgsOf(KR.Normalize(tree)))
  {
    KR.WriteThenRead(tree);
    NamedAsks(b, r, request, KR.Normalize(tree));
  }

  /** What processing the tree of the arguments comes to, as an outcome. */
  function KeyOutcome(b: Backend, id: Json, args: seq<Arg>, n: nat): Outcome
    requires AllSuit(GENERATE_KEY_TYPES, args)
  {
    match TreeOf(args)
    case Err(fault) => ErrorOutcome(id, fault.ToError())
    case Ok(tree) => StepOutcome(id, KH.Process(b, tree, n, false))
  }

  function StepOutcome(id: Json, step: KH.Step<string>): Outcome {
    match step.result
    case Ok(text) => Answer(Envelope(id, "result", KH.ResponseJson(Some(text), step.log)))
    case Err(fault) => ErrorOutcome(id, fault.ToError())
  }

  /**
   A call of generateKey with any parameters that are let through is one run of the key-request engine on the tree that
   they say, from where earlier calls left the stream of keys; the response is the engine's result, and the stream is left
   where the engine did. If the name of the type is unknown, the engine is not run.
   */
  lemma Served(b: Backend, r: Registry, calls: seq<Call>, request: Json, args: seq<Arg>)
    requires ServesKeys(b, r) && Asks(b, r, request, args)
    ensures AllSuit(GENERATE_KEY_TYPES, args)
    ensures var n, handled := KeysGenerated(b, calls), HandleSingle(b, r, calls, request);
            && handled.calls == calls + [Call(Methods, GENERATE_KEY, args)]
            && handled.result == KeyOutcome(b, RequestId(request), args, n)
            && KeysGenerated(b, handled.calls)
               == if TreeOf(args).Err? then n else KH.Process(b, TreeOf(args).value, n, false).next
  {
    AskedSuits(b, r, request, args);
    GenerateKeyFault(b, args, KeysGenerated(b, calls));
    MethodServed(b, r, calls, request, args);
    CallIsProcess(b, args, KeysGenerated(b, calls));
    var after := calls + [Call(Methods, GENERATE_KEY, args)];
    assert after[..|after| - 1] == calls;
  }

  /** The response to a request for a key. */
  ghost predicate Carries(response: Json, text: string, log: seq<string>) {
    && HasKeyType(response, "key", StringKind) && response.members["key"].text == text
    && (HasKey(response, "privateKeys") <==> log != [])
    && (log != [] ==> response.members["privateKeys"] == Arr(KH.Texts(log)))
  }

  lemma ResponseCarries(text: string, log: seq<string>)
    ensures Carries(KH.ResponseJson(Some(text), log), text, log)
  {
  }

  /** A request without a fault in any node is processed to a key that decodes to the request's tree. */
  lemma Processed(b: Backend, tree: KR.KeyRequest, n: nat)
    requires Lawful(b) && KH.IsListType(tree.kind) && WithinLimit(b, KP.KeyTree(b, tree, n))
    requires forall s | s in KP.Sites(tree, n, false) :: KP.Fault(b, s).None?
    ensures var step, entries := KH.Process(b, tree, n, false), KL.Entries(b, KP.Sites(tree, n, false));
            && step.result.Ok?
            && GetHederaKey(b, step.result.value) == Ok(KP.KeyTree(b, tree, n))
            && KL.LeavesOf(KP.KeyTree(b, tree, n)) == KL.LeafColumn(entries)
            && step.log == KL.OriginColumn(entries)
            && step.next == n + KP.Generated(tree)
  {
    KP.FirstFaultIsSome(b, KP.Sites(tree, n, false));
    KP.TreeFits(b, tree, n);
    KP.ListRequest(b, tree, n, false);
    KL.PrivateKeyLog(b, tree, n);
  }

  /**
   The client's view: a call asking for a list or threshold key whose nodes are all in order is answered with a result
   whose key decodes to the tree asked for, with the same shape, order and thresholds and a fresh public key for each
   generating leaf, and whose private keys are those of these leaves from left to right. The next request gets keys from
   behind those.
   */
  lemma ListKeyServed(b: Backend, r: Registry, calls: seq<Call>, request: Json, tree: KR.KeyRequest)
    requires Lawful(b) && ServesKeys(b, r) && Asks(b, r, request, ArgsOf(tree)) && KH.IsListType(tree.kind)
    requires WithinLimit(b, KP.KeyTree(b, tree, KeysGenerated(b, calls)))
    requires forall s | s in KP.Sites(tree, KeysGenerated(b, calls), false) :: KP.Fault(b, s).None?
    ensures var n, handled := KeysGenerated(b, calls), HandleSingle(b, r, calls, request);
            var entries := KL.Entries(b, KP.Sites(tree, n, false));
            && handled.result.Answer?
            && IsResponse(handled.result.json, RequestId(request))
            && HasKey(handled.result.json, "result")
            && (exists text ::
                  && Carries(handled.result.json.members["result"], text, KL.OriginColumn(entries))
                  && GetHederaKey(b, text) == Ok(KP.KeyTree(b, tree, n)))
            && KL.LeavesOf(KP.KeyTree(b, tree, n)) == KL.LeafColumn(entries)
            && KeysGenerated(b, handled.calls) == n + KP.Generated(tree)
  {
    var n := KeysGenerated(b, calls);
    ArgumentsAreTree(ArgsOf(tree), tree);
    Served(b, r, calls, request, ArgsOf(tree));
    Processed(b, tree, n);
    var step := KH.Process(b, tree, n, false);
    ResponseCarries(step.result.value, step.log);
    EnvelopeIsResponse(RequestId(request), "result", KH.ResponseJson(Some(step.result.value), step.log));
  }

  // Faults.

  /**
   What a client is told for a fault of a node: an internal error with the text if a key cannot be read, and otherwise
   that the request, or its parameters, are invalid, with the fault's text.
   */
  ghost predicate AnswersFault(outcome: Outcome, id: Json, fault: KH.KeyFault) {
    match fault
    case BadPrivateKey => AnswersInternal(outcome, id, KH.BAD_PRIVATE_KEY_TEXT)
    case Undecodable(NotHex) => AnswersInternal(outcome, id, NOT_HEX_TEXT)
    case Undecodable(UnrecognizedKeyCase) => AnswersInternal(outcome, id, UNRECOGNIZED_KEY_CASE_TEXT)
    case Undecodable(BadPublicKeyBytes) => AnswersInternal(outcome, id, BAD_PUBLIC_KEY_BYTES_TEXT)
    case Undecodable(BadContractAddress) => AnswersInternal(outcome, id, BAD_CONTRACT_ADDRESS_TEXT)
    case FromKeyMisplaced => AnswersWithError(outcome, id, -32602, KH.FROM_KEY_MISPLACED_TEXT, None)
    case ThresholdMisplaced => AnswersWithError(outcome, id, -32602, KH.THRESHOLD_MISPLACED_TEXT, None)
    case KeysMisplaced => AnswersWithError(outcome, id, -32602, KH.KEYS_MISPLACED_TEXT, None)
    case KeysMissing => AnswersWithError(outcome, id, -32600, KH.KEYS_MISSING_TEXT, None)
    case ThresholdMissing => AnswersWithError(outcome, id, -32600, KH.THRESHOLD_MISSING_TEXT, None)
    case NotSecp256k1 => AnswersWithError(outcome, id, -32602, KH.NOT_SECP256K1_TEXT, None)
  }

  lemma FaultAnswered(id: Json, fault: KH.KeyFault)
    ensures AnswersFault(ErrorOutcome(id, fault.ToError()), id, fault)
  {
    ErrorAnswered(id, fault.ToError());
  }

  /** A call asking for a tree with a faulty node is answered with the fault of the first one in depth-first order. */
  lemma FaultServed(b: Backend, r: Registry, calls: seq<Call>, request: Json, tree: KR.KeyRequest)
    requires Lawful(b) && ServesKeys(b, r) && Asks(b, r, request, ArgsOf(tree))
    requires KP.PartsFit(b, tree, KeysGenerated(b, calls))
    requires KP.FirstFault(b, KP.Sites(tree, KeysGenerated(b, calls), false)).Some?
    ensures var n, handled := KeysGenerated(b, calls), HandleSingle(b, r, calls, request);
            var sites := KP.Sites(tree, n, false);
            && AnswersFault(handled.result, RequestId(request), KP.FirstFault(b, sites).value)
            && KeysGenerated(b, handled.calls) == n + KP.KeysUntilFault(b, sites)
  {
    var n := KeysGenerated(b, calls);
    var fault := KP.FirstFault(b, KP.Sites(tree, n, false)).value;
    ArgumentsAreTree(ArgsOf(tree), tree);
    Served(b, r, calls, request, ArgsOf(tree));
    FaultyTree(b, tree, n);
    FaultAnswered(RequestId(request), fault);
  }

  lemma FaultyTree(b: Backend, tree: KR.KeyRequest, n: nat)
    requires Lawful(b) && KP.PartsFit(b, tree, n) && KP.FirstFault(b, KP.Sites(tree, n, false)).Some?
    ensures var step, sites := KH.Process(b, tree, n, false), KP.Sites(tree, n, false);
            step.result == Err(KP.FirstFault(b, sites).value) && step.next == n + KP.KeysUntilFault(b, sites)
  {
    if KH.IsListType(tree.kind) {
      KP.ListRequest(b, tree, n, false);
    } else {
      KP.LeafRequest(b, tree, n);
      assert KP.Sites(tree, n, false) == [KP.Site(tree, n, false)];
    }
  }

  ghost predicate TellsCode(outcome: Outcome, code: int16) {
    outcome.Answer? && HasKey(outcome.json, "error") && Rpc.FromJson(outcome.json.members["error"]).code == code
  }

  lemma ErrorCode(id: Json, e: Rpc.Error)
    requires !e.Undefined?
    ensures TellsCode(ErrorOutcome(id, e), Reported(e).code)
  {
    ErrorReadBack(id, e);
  }

  predicate IsInternal(step: KH.Step<string>) {
    step.result.Err? && (step.result.error.BadPrivateKey? || step.result.error.Undecodable?)
  }

  lemma StepTells(id: Json, step: KH.Step<string>)
    ensures TellsCode(StepOutcome(id, step), Rpc.INTERNAL_ERROR) <==> IsInternal(step)
  {
    if step.result.Err? {
      ErrorCode(id, step.result.error.ToError());
    } else {
      assert !HasKey(StepOutcome(id, step).json, "error");
    }
  }

  lemma ReadFaultTells(id: Json, fault: KR.ReadFault)
    requires fault.TypeUnknown?
    ensures TellsCode(ErrorOutcome(id, fault.ToError()), Rpc.INTERNAL_ERROR)
  {
    ErrorCode(id, fault.ToError());
  }

  lemma OutcomeInternal(b: Backend, id: Json, args: seq<Arg>, n: nat)
    requires AllSuit(GENERATE_KEY_TYPES, args)
    ensures TellsCode(KeyOutcome(b, id, args, n), Rpc.INTERNAL_ERROR) <==>
            TreeOf(args).Err? || IsInternal(KH.Process(b, TreeOf(args).value, n, false))
  {
    match TreeOf(args)
    case Err(fault) =>
      UnknownTree(args);
      ReadFaultTells(id, fault);
    case Ok(tree) => StepTells(id, KH.Process(b, tree, n, false));
  }

  /** The first faulty node in depth-first order has a given key that cannot be read, or a text that does not decode. */
  predicate StopsUnreadable(b: Backend, sites: seq<KP.Site>) {
    var fault := KP.FirstFault(b, sites);
    fault.Some? && (fault.value.BadPrivateKey? || fault.value.Undecodable?)
  }

  lemma StepInternal(b: Backend, tree: KR.KeyRequest, n: nat)
    requires Lawful(b) && KP.PartsFit(b, tree, n)
    ensures IsInternal(KH.Process(b, tree, n, false)) <==> StopsUnreadable(b, KP.Sites(tree, n, false))
  {
    if KH.IsListType(tree.kind) {
      KP.ListRequest(b, tree, n, false);
    } else {
      KP.LeafRequest(b, tree, n);
      assert KP.Sites(tree, n, false) == [KP.Site(tree, n, false)];
      KP.ScanOne(b, KP.Site(tree, n, false));
    }
  }

  /**
   Once generateKey is called, its response is an internal error exactly if the name of the type is unknown, or the first
   faulty node of the tree asked for has a given key that cannot be read, or a text that does not decode.
   */
  lemma InternalExactly(b: Backend, id: Json, args: seq<Arg>, n: nat)
    requires Lawful(b) && AllSuit(GENERATE_KEY_TYPES, args)
    requires TreeOf(args).Ok? ==> KP.PartsFit(b, TreeOf(args).value, n)
    ensures TellsCode(KeyOutcome(b, id, args, n), Rpc.INTERNAL_ERROR) <==>
            TreeOf(args).Err? || StopsUnreadable(b, KP.Sites(TreeOf(args).value, n, false))
  {
    OutcomeInternal(b, id, args, n);
    if TreeOf(args).Ok? {
      StepInternal(b, TreeOf(args).value, n);
    }
  }

  /** The same for the answer to a request. */
  lemma InternalServed(b: Backend, r: Registry, calls: seq<Call>, request: Json, args: seq<Arg>)
    requires Lawful(b) && ServesKeys(b, r) && Asks(b, r, request, args) && AllSuit(GENERATE_KEY_TYPES, args)
    requires TreeOf(args).Ok? ==> KP.PartsFit(b, TreeOf(args).value, KeysGenerated(b, calls))
    ensures TellsCode(HandleSingle(b, r, calls, request).result, Rpc.INTERNAL_ERROR) <==>
            TreeOf(args).Err? || StopsUnreadable(b, KP.Sites(TreeOf(args).value, KeysGenerated(b, calls), false))
  {
    Served(b, r, calls, request, args);
    InternalExactly(b, RequestId(request), args, KeysGenerated(b, calls));
  }
}
