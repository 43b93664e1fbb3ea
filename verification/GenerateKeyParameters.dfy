/**
 generateKey of src/tck/src/SdkClient.cc as a function of converted parameters, and its named parameters as a request tree.
 */
module GenerateKeyParameters {
  import opened Wrappers
  import opened Json
  import Rpc = JsonRpcException
  import opened HederaKeys
  import opened JsonTypeMapper
  import opened JsonTypeMapperProofs
  import KR = KeyRequest
  import KH = KeyHelper

  const GENERATE_KEY: string := "generateKey"

  const GENERATE_KEY_TYPES: seq<ParamType> :=
    [Required(StringType), Optional(StringType), Optional(Int32Type), Optional(KeyRequestsType)]

  const GENERATE_KEY_NAMES: seq<string> := ["type", "fromKey", "threshold", "keys"]

  /** The call generateKey(type, fromKey, threshold, keys); there is no call with arguments of other types. */
  function GenerateKeyCall(b: Backend, args: seq<Arg>, n: nat): (Result<Json, Rpc.Error>, nat) {
    if AllSuit(GENERATE_KEY_TYPES, args) then
      KH.GenerateKey(b, args[0].text,
                     if args[1].NoArg? then None else Some(args[1].text),
                     if args[2].NoArg? then None else Some(args[2].number),
                     if args[3].NoArg? then KR.NoKeys else KR.Keys(args[3].requests), n)
    else (Err(Rpc.Undefined), n)
  }

  /** What generateKey throws is a JSON-RPC exception without data, or one that is not about JSON. */
  lemma GenerateKeyFault(b: Backend, args: seq<Arg>, n: nat)
    requires AllSuit(GENERATE_KEY_TYPES, args)
    ensures var result := GenerateKeyCall(b, args, n).0;
            result.Err? ==> (result.error.Rpc? && result.error.rpc.data == Null) || result.error.Standard?
  {
  }

  /** The arguments that say the same as a request tree. */
  function ArgsOf(tree: KR.KeyRequest): seq<Arg> {
    [StringArg(KR.KeyTypeToString(tree.kind)),
     if tree.fromKey.Some? then StringArg(tree.fromKey.value) else NoArg,
     if tree.threshold.Some? then IntArg(tree.threshold.value) else NoArg,
     if tree.keys.Keys? then KeyRequestsArg(tree.keys.list) else NoArg]
  }

  /** The tree that arguments say, if the type's name is known. */
  function TreeOf(args: seq<Arg>): Result<KR.KeyRequest, KR.ReadFault>
    requires AllSuit(GENERATE_KEY_TYPES, args)
  {
    var kind :- KR.StringToKeyType(args[0].text);
    Ok(KR.KeyRequest(kind,
                     if args[1].NoArg? then None else Some(args[1].text),
                     if args[2].NoArg? then None else Some(args[2].number),
                     if args[3].NoArg? then KR.NoKeys else KR.Keys(args[3].requests)))
  }

  /** There is none exactly if the type is none of the seven names. */
  lemma UnknownTree(args: seq<Arg>)
    requires AllSuit(GENERATE_KEY_TYPES, args)
    ensures TreeOf(args).Err? <==> forall kind :: args[0].text != KR.KeyTypeToString(kind)
    ensures TreeOf(args).Err? ==> TreeOf(args).error == KR.TypeUnknown
  {
    KR.UnknownName(args[0].text);
  }

  lemma ArgumentsAreTree(args: seq<Arg>, tree: KR.KeyRequest)
    ensures AllSuit(GENERATE_KEY_TYPES, ArgsOf(tree)) && TreeOf(ArgsOf(tree)) == Ok(tree)
    ensures AllSuit(GENERATE_KEY_TYPES, args) && TreeOf(args) == Ok(tree) ==> args == ArgsOf(tree)
  {
    KR.KeyTypeNames(tree.kind, KR.KeyTypeToString(tree.kind));
    if AllSuit(GENERATE_KEY_TYPES, args) {
      KR.KeyTypeNames(tree.kind, args[0].text);
    }
  }

  /**
   A list of parameters, named or positional, says a tree: the type's name, the text of a key or null, a number that is
   taken for the threshold or null, and a list of requests or null. What comes after is ignored.
   */
  predicate ReadsAs(list: seq<Json>, tree: KR.KeyRequest) {
    && |list| >= 4
    && list[0] == Str(KR.KeyTypeToString(tree.kind))
    && list[1] == (if tree.fromKey.Some? then Str(tree.fromKey.value) else Null)
    && (if tree.threshold.Some? then
          ReadsAsInteger(Int32Type, list[2]) && tree.threshold.value == ToInt32(NumberOf(list[2]))
        else list[2].Null?)
    && (if tree.keys.Keys? then list[3].Arr? && KR.FromJsonAll(list[3].items) == Ok(tree.keys.list) else list[3].Null?)
  }

  /** A parameter passes both layers and becomes the argument. */
  predicate Becomes(b: Backend, t: ParamType, index: nat, param: Json, arg: Arg) {
    Accepted(b, t, index, param) && ArgOf(b, t, index, param) == arg
  }

  lemma EachBecomes(b: Backend, signature: seq<ParamType>, list: seq<Json>, args: seq<Arg>)
    requires |signature| == |args| > 0
    requires exists t :: t in signature && t.Required?
    ensures Prepare(b, signature, list) == Ok(args) <==>
            |signature| <= |list| && forall i | 0 <= i < |args| :: Becomes(b, signature[i], i, list[i], args[i])
  {
    PrepareMeaning(b, signature, list);
    if |signature| <= |list| && forall i | 0 <= i < |args| :: Becomes(b, signature[i], i, list[i], args[i]) {
      assert Prepare(b, signature, list).Ok?;
      assert Prepare(b, signature, list).value == args;
    }
  }

  /** generateKey is called with a tree's fields exactly if its parameters read as the tree. */
  lemma ArgumentsExactly(b: Backend, list: seq<Json>, tree: KR.KeyRequest)
    ensures Prepare(b, GENERATE_KEY_TYPES, list) == Ok(ArgsOf(tree)) <==> ReadsAs(list, tree)
  {
    assert GENERATE_KEY_TYPES[0] in GENERATE_KEY_TYPES;
    EachBecomes(b, GENERATE_KEY_TYPES, list, ArgsOf(tree));
    if |list| >= 4 {
      FieldsBecome(b, list, tree);
    }
  }

  lemma FieldsBecome(b: Backend, list: seq<Json>, tree: KR.KeyRequest)
    requires |list| >= 4
    ensures ReadsAs(list, tree) <==>
            forall i | 0 <= i < 4 :: Becomes(b, GENERATE_KEY_TYPES[i], i, list[i], ArgsOf(tree)[i])
  {
    var args := ArgsOf(tree);
    TextBecomes(b, Required(StringType), 0, list[0], args[0]);
    TextBecomes(b, Optional(StringType), 1, list[1], args[1]);
    ThresholdBecomes(b, list[2], tree.threshold);
    KeysBecome(b, list[3], tree.keys);
    assert (forall i | 0 <= i < 4 :: Becomes(b, GENERATE_KEY_TYPES[i], i, list[i], args[i])) <==>
      && Becomes(b, Required(StringType), 0, list[0], args[0]) && Becomes(b, Optional(StringType), 1, list[1], args[1])
      && Becomes(b, Optional(Int32Type), 2, list[2], args[2]) && Becomes(b, Optional(KeyRequestsType), 3, list[3], args[3]);
  }

  lemma TextBecomes(b: Backend, t: ParamType, index: nat, param: Json, arg: Arg)
    requires t.base.StringType? && (arg.StringArg? || arg.NoArg?)
    ensures Becomes(b, t, index, param, arg) <==>
            if arg.StringArg? then param == Str(arg.text) else t.Optional? && param.Null?
  {
  }

  lemma ThresholdBecomes(b: Backend, param: Json, threshold: Option<int32>)
    ensures Becomes(b, Optional(Int32Type), 2, param, if threshold.Some? then IntArg(threshold.value) else NoArg) <==>
            if threshold.Some? then
              ReadsAsInteger(Int32Type, param) && threshold.value == ToInt32(NumberOf(param))
            else param.Null?
  {
  }

  lemma KeysBecome(b: Backend, param: Json, keys: KR.Children)
    ensures Becomes(b, Optional(KeyRequestsType), 3, param, if keys.Keys? then KeyRequestsArg(keys.list) else NoArg) <==>
            if keys.Keys? then param.Arr? && KR.FromJsonAll(param.items) == Ok(keys.list) else param.Null?
  {
  }

  /** The named parameters of generateKey are read as a request tree is, if they are one. */
  lemma NamedTree(members: map<string, Json>, tree: KR.KeyRequest, list: seq<Json>)
    requires KR.FromJson(Obj(members)) == Ok(tree)
    requires |list| == 4 && forall i | 0 <= i < 4 :: list[i] == Lookup(members, GENERATE_KEY_NAMES[i])
    ensures ReadsAs(list, tree)
  {
    var own := KR.OwnFields(Obj(members)).value;
    KR.KeyTypeNames(own.kind, members["type"].text);
    assert list[0] == Lookup(members, "type") && list[1] == Lookup(members, "fromKey");
    assert list[2] == Lookup(members, "threshold") && list[3] == Lookup(members, "keys");
  }

  /** What generateKey makes of a processed tree. */
  function ReplyOf(step: KH.Step<string>): (Result<Json, Rpc.Error>, nat) {
    (match step.result
     case Ok(text) => Ok(KH.ResponseJson(Some(text), step.log))
     case Err(fault) => Err(fault.ToError()), step.next)
  }

  /** generateKey processes the tree that its arguments say, from the keys generated so far, if their type is known. */
  lemma CallIsProcess(b: Backend, args: seq<Arg>, n: nat)
    requires AllSuit(GENERATE_KEY_TYPES, args)
    ensures TreeOf(args).Err? ==> GenerateKeyCall(b, args, n) == (Err(TreeOf(args).error.ToError()), n)
    ensures TreeOf(args).Ok? ==> GenerateKeyCall(b, args, n) == ReplyOf(KH.Process(b, TreeOf(args).value, n, false))
  {
  }
}
