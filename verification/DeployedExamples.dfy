/** Requests that show where the deployed server does not do what its parameters' declarations promise. */
module DeployedExamples {
  import opened Wrappers
  import opened Json
  import Rpc = JsonRpcException
  import opened HederaKeys
  import opened JsonTypeMapper
  import opened JsonTypeMapperProofs
  import opened TckServer
  import opened TckParameterProofs
  import opened TckRefusalProofs
  import opened GenerateKeyParameters
  import opened ServedKeys
  import opened AccountHandlers
  import opened ServedAccounts
  import opened Hex
  import KR = KeyRequest
  import KP = KeyHelperProofs

  function KeyCall(params: Json): Json {
    Obj(map["jsonrpc" := Str("2.0"), "id" := Unsigned(1), "method" := Str(GENERATE_KEY), "params" := params])
  }

  lemma KeyCallForm(params: Json)
    requires params.Arr? || params.Obj?
    ensures IsKeyCall(KeyCall(params)) && TableOf(KeyCall(params)) == Methods
    ensures ParamsOf(KeyCall(params)) == if Size(params) > 0 then params else Arr([])
  {
  }

  /** A positional list with the type alone is read out of range. */
  lemma TooShort(b: Backend, r: Registry, calls: seq<Call>)
    requires Aligned(r) && ServesKeys(b, r)
    ensures HandleSingle(b, r, calls, KeyCall(Arr([Str("keyList")]))).result.NoBehaviour?
  {
    KeyCallForm(Arr([Str("keyList")]));
    TypeAlone(b, r, calls, KeyCall(Arr([Str("keyList")])));
  }

  lemma TypeAlone(b: Backend, r: Registry, calls: seq<Call>, request: Json)
    requires Aligned(r) && ServesKeys(b, r) && IsKeyCall(request) && ParamsOf(request) == Arr([Str("keyList")])
    ensures HandleSingle(b, r, calls, request).result.NoBehaviour?
  {
    var list := ParamsOf(request).items;
    assert CheckParam(GENERATE_KEY_TYPES[0], 0, list[0]).None?;
    assert Passes(GENERATE_KEY_TYPES, list, 0, 1);
    DefinedBehaviour(b, r, calls, request);
  }

  const NO_TYPE: string := "nope"

  function ChildOfNoType(): Json {
    Arr([Obj(map["type" := Str(NO_TYPE)])])
  }

  /** A key list with such a child, and something in the place of fromKey. */
  function WithChild(fromKey: Json): seq<Json> {
    [Str("keyList"), fromKey, Null, ChildOfNoType()]
  }

  lemma ChildThrows(b: Backend, fromKey: Json)
    requires fromKey.Null? || fromKey.Unsigned?
    ensures ReachesConversion(GENERATE_KEY_TYPES, WithChild(fromKey))
    ensures forall i | 0 <= i < 4 ::
              Reads(b, GENERATE_KEY_TYPES[i], WithChild(fromKey)[i]) <==> i != 3 && (i != 1 || fromKey.Null?)
    ensures Throws(b, GENERATE_KEY_TYPES, WithChild(fromKey), 3) && !Throws(b, GENERATE_KEY_TYPES, WithChild(fromKey), 1)
  {
    var node := Obj(map["type" := Str(NO_TYPE)]);
    assert KR.NodeFault(node) == Some(KR.TypeUnknown);
    assert KR.Nodes(node)[0] == node;
    assert KR.NodesAll([node])[0] == node;
  }

  /** The list is what generateKey is given. */
  lemma ListOfCall(r: Registry, request: Json, list: seq<Json>)
    requires IsKeyCall(request) && ParamsOf(request) == Arr(list)
    ensures ListOf(r, request) == Ok(list) && TableOf(request) == Methods
  {
  }

  /** An unknown type inside a list, found before generateKey is called, is an internal error, whatever the compiler. */
  lemma UnknownNested(b: Backend, r: Registry, calls: seq<Call>)
    requires Aligned(r) && ServesKeys(b, r)
    ensures AnswersWith(HandleSingle(b, r, calls, KeyCall(Arr(WithChild(Null)))), calls, Rpc.INTERNAL_ERROR)
  {
    KeyCallForm(Arr(WithChild(Null)));
    NestedServed(b, r, calls, KeyCall(Arr(WithChild(Null))), WithChild(Null));
  }

  lemma NestedServed(b: Backend, r: Registry, calls: seq<Call>, request: Json, list: seq<Json>)
    requires Aligned(r) && ServesKeys(b, r) && IsKeyCall(request) && ParamsOf(request) == Arr(list)
    requires list == WithChild(Null)
    ensures AnswersWith(HandleSingle(b, r, calls, request), calls, Rpc.INTERNAL_ERROR)
  {
    ListOfCall(r, request, list);
    ChildThrows(b, Null);
    ThrowsServed(b, r, calls, request, 3);
  }

  /** With a number for fromKey as well, it depends on the compiler which of the two conversions comes first. */
  lemma Mixed(b: Backend, r: Registry, calls: seq<Call>)
    requires Aligned(r) && ServesKeys(b, r)
    ensures var handled := HandleSingle(b, r, calls, KeyCall(Arr(WithChild(Unsigned(5)))));
            && (b.order(4) == [0, 1, 2, 3] ==> AnswersWith(handled, calls, Rpc.INVALID_PARAMS))
            && (b.order(4) == [3, 2, 1, 0] ==> AnswersWith(handled, calls, Rpc.INTERNAL_ERROR))
  {
    KeyCallForm(Arr(WithChild(Unsigned(5))));
    MixedServed(b, r, calls, KeyCall(Arr(WithChild(Unsigned(5)))), WithChild(Unsigned(5)));
  }

  lemma MixedServed(b: Backend, r: Registry, calls: seq<Call>, request: Json, list: seq<Json>)
    requires Aligned(r) && ServesKeys(b, r) && IsKeyCall(request) && ParamsOf(request) == Arr(list)
    requires list == WithChild(Unsigned(5))
    ensures b.order(4) == [0, 1, 2, 3] ==> AnswersWith(HandleSingle(b, r, calls, request), calls, Rpc.INVALID_PARAMS)
    ensures b.order(4) == [3, 2, 1, 0] ==> AnswersWith(HandleSingle(b, r, calls, request), calls, Rpc.INTERNAL_ERROR)
  {
    ListOfCall(r, request, list);
    ChildThrows(b, Unsigned(5));
    MixedOrder(b, list);
    if b.order(4) == [0, 1, 2, 3] {
      FirstServed(b, r, calls, request, 1);
    } else if b.order(4) == [3, 2, 1, 0] {
      FirstServed(b, r, calls, request, 3);
    }
  }

  lemma MixedOrder(b: Backend, list: seq<Json>)
    requires list == WithChild(Unsigned(5))
    ensures b.order(4) == [0, 1, 2, 3] ==> FailsFirst(b, GENERATE_KEY_TYPES, list, 1)
    ensures b.order(4) == [3, 2, 1, 0] ==> FailsFirst(b, GENERATE_KEY_TYPES, list, 3)
  {
    ChildThrows(b, Unsigned(5));
    var order := EvaluationOrder(b, 4);
    assert |order| >= 4 ==> order[..|b.order(4)|] == b.order(4);
    if b.order(4) == [0, 1, 2, 3] {
      assert order[0] == 0 && order[1] == 1;
      assert ComesFirst(b, GENERATE_KEY_TYPES, list, 1, 1);
    } else if b.order(4) == [3, 2, 1, 0] {
      assert order[0] == 3;
      assert ComesFirst(b, GENERATE_KEY_TYPES, list, 3, 0);
    }
  }

  /** An unknown type of the call itself is an internal error too, although generateKey has been called. */
  lemma UnknownRoot(b: Backend, r: Registry, calls: seq<Call>)
    requires ServesKeys(b, r)
    ensures var handled := HandleSingle(b, r, calls, KeyCall(Arr([Str(NO_TYPE), Null, Null, Null])));
            TellsCode(handled.result, Rpc.INTERNAL_ERROR) && |handled.calls| == |calls| + 1
  {
    var list := [Str(NO_TYPE), Null, Null, Null];
    KeyCallForm(Arr(list));
    UnknownServed(b, r, calls, KeyCall(Arr(list)));
  }

  lemma UnknownServed(b: Backend, r: Registry, calls: seq<Call>, request: Json)
    requires ServesKeys(b, r) && IsKeyCall(request) && ParamsOf(request) == Arr([Str(NO_TYPE), Null, Null, Null])
    ensures var handled := HandleSingle(b, r, calls, request);
            TellsCode(handled.result, Rpc.INTERNAL_ERROR) && |handled.calls| == |calls| + 1
  {
    var args := [StringArg(NO_TYPE), NoArg, NoArg, NoArg];
    UnknownArguments(b, ParamsOf(request).items, args);
    Served(b, r, calls, request, args);
    OutcomeInternal(b, RequestId(request), args, KeysGenerated(b, calls));
  }

  lemma UnknownArguments(b: Backend, list: seq<Json>, args: seq<Arg>)
    requires list == [Str(NO_TYPE), Null, Null, Null] && args == [StringArg(NO_TYPE), NoArg, NoArg, NoArg]
    ensures Prepare(b, GENERATE_KEY_TYPES, list) == Ok(args)
    ensures AllSuit(GENERATE_KEY_TYPES, args) && TreeOf(args).Err?
  {
    assert GENERATE_KEY_TYPES[0] in GENERATE_KEY_TYPES;
    EachBecomes(b, GENERATE_KEY_TYPES, list, args);
  }

  /** A public key to be made from a text that is no key is an internal error as well. */
  lemma UnreadableKey(b: Backend, r: Registry, calls: seq<Call>)
    requires Lawful(b) && ServesKeys(b, r)
    ensures var list := [Str("ed25519PublicKey"), Str(NO_TYPE), Null, Null];
            TellsCode(HandleSingle(b, r, calls, KeyCall(Arr(list))).result, Rpc.INTERNAL_ERROR)
  {
    var list := [Str("ed25519PublicKey"), Str(NO_TYPE), Null, Null];
    KeyCallForm(Arr(list));
    UnreadableServed(b, r, calls, KeyCall(Arr(list)), KR.KeyRequest(KR.Ed25519PublicKeyType, Some(NO_TYPE), None, KR.NoKeys));
  }

  lemma UnreadableServed(b: Backend, r: Registry, calls: seq<Call>, request: Json, tree: KR.KeyRequest)
    requires Lawful(b) && ServesKeys(b, r) && IsKeyCall(request)
    requires ParamsOf(request) == Arr([Str("ed25519PublicKey"), Str(NO_TYPE), Null, Null])
    requires tree == KR.KeyRequest(KR.Ed25519PublicKeyType, Some(NO_TYPE), None, KR.NoKeys)
    ensures TellsCode(HandleSingle(b, r, calls, request).result, Rpc.INTERNAL_ERROR)
  {
    AsksExactly(b, r, request, tree);
    ArgumentsAreTree(ArgsOf(tree), tree);
    UnreadableSite(b, tree, KeysGenerated(b, calls));
    InternalServed(b, r, calls, request, ArgsOf(tree));
  }

  lemma UnreadableSite(b: Backend, tree: KR.KeyRequest, n: nat)
    requires tree == KR.KeyRequest(KR.Ed25519PublicKeyType, Some(NO_TYPE), None, KR.NoKeys)
    ensures StopsUnreadable(b, KP.Sites(tree, n, false))
  {
    NotHexText(b);
    assert KP.Sites(tree, n, false) == [KP.Site(tree, n, false)];
    KP.ScanOne(b, KP.Site(tree, n, false));
  }

  lemma NotHexText(b: Backend)
    ensures PrivateFromStringDer(b, NO_TYPE).None?
  {
    assert NO_TYPE == "nope" && HexToByte('n', 'o').None?;
  }

  /** Explicit nulls, which a nested request may not have, stand for absent parameters of the call itself. */
  lemma ExplicitNulls(members: map<string, Json>)
    requires members == map["type" := Str("keyList"), "fromKey" := Null, "keys" := Arr([])]
    ensures ReadsAs(Positional(GENERATE_KEY_NAMES, members), KR.KeyRequest(KR.ListKeyType, None, None, KR.Keys([])))
    ensures KR.FromJson(Obj(members)) == Err(KR.FromKeyNotString)
  {
  }

  /** createAccount with 2147483648 for maxAutoTokenAssociations is called with the smallest 32-bit integer. */
  lemma WrappedAssociations(b: Backend, env: Environment, r: Registry, calls: seq<Call>, request: Json,
                            members: map<string, Json>)
    requires Serves(r, CREATE_ACCOUNT, CreateHandler(b, env), CREATE_NAMES)
    requires IsNamedCall(request, CREATE_ACCOUNT, members)
    requires members == map["maxAutoTokenAssociations" := Unsigned(0x8000_0000)]
    ensures exists args ::
              && HandleSingle(b, r, calls, request).calls == calls + [Call(Methods, CREATE_ACCOUNT, args)]
              && |args| == 11 && args[5] == IntArg(-0x8000_0000)
  {
    var args := WrappedArguments(b, members);
    NamedBecomes(b, r, request, CREATE_ACCOUNT, CREATE_NAMES, members, CREATE_TYPES, args);
    CreateServed(b, env, r, calls, request, members, args);
  }

  /** Such a request. */
  lemma CreateCall(params: map<string, Json>)
    ensures IsNamedCall(Obj(map["jsonrpc" := Str("2.0"), "id" := Unsigned(1), "method" := Str(CREATE_ACCOUNT),
                                "params" := Obj(params)]), CREATE_ACCOUNT, params)
  {
  }

  lemma WrappedArguments(b: Backend, members: map<string, Json>) returns (args: seq<Arg>)
    requires members == map["maxAutoTokenAssociations" := Unsigned(0x8000_0000)]
    ensures members != map[] && Prepare(b, CREATE_TYPES, Positional(CREATE_NAMES, members)) == Ok(args)
    ensures |args| == 11 && args[5] == IntArg(-0x8000_0000)
  {
    assert "maxAutoTokenAssociations" in members;
    assert forall i | 0 <= i < 11 && i != 5 :: CREATE_NAMES[i] != CREATE_NAMES[5];
    OneAssociation(b, Positional(CREATE_NAMES, members));
    args := Prepare(b, CREATE_TYPES, Positional(CREATE_NAMES, members)).value;
  }

  lemma OneAssociation(b: Backend, list: seq<Json>)
    requires |list| == 11 && list[5] == Unsigned(0x8000_0000) && forall i | 0 <= i < 11 && i != 5 :: list[i].Null?
    ensures Prepare(b, CREATE_TYPES, list).Ok? && |Prepare(b, CREATE_TYPES, list).value| == 11
    ensures Prepare(b, CREATE_TYPES, list).value[5] == IntArg(-0x8000_0000)
  {
    OptionalIntegerExample(b);
    PrepareMeaning(b, CREATE_TYPES, list);
    forall i | 0 <= i < 11
      ensures Accepted(b, CREATE_TYPES[i], i, list[i])
    {
      assert CREATE_TYPES[i].Optional? && CREATE_TYPES[5] == Optional(Int32Type);
    }
  }
}
