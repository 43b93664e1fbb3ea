/** The request tree of src/tck/include/KeyHelper.h and its JSON form. */
module KeyRequest {
  import opened Wrappers
  import opened Json
  import opened JsonRpcException

  datatype KeyType =
    | Ed25519PrivateKeyType
    | Ed25519PublicKeyType
    | Secp256k1PrivateKeyType
    | Secp256k1PublicKeyType
    | ListKeyType
    | ThresholdKeyType
    | EvmAddressKeyType

  datatype KeyRequest = KeyRequest(
    kind: KeyType,
    fromKey: Option<string>,
    threshold: Option<int32>,
    keys: Children)

  /** An optional list of requests. */
  datatype Children = NoKeys | Keys(list: seq<KeyRequest>)

  /** gKeyTypeToString. */
  function KeyTypeToString(kind: KeyType): string {
    match kind
    case Ed25519PrivateKeyType => "ed25519PrivateKey"
    case Ed25519PublicKeyType => "ed25519PublicKey"
    case Secp256k1PrivateKeyType => "ecdsaSecp256k1PrivateKey"
    case Secp256k1PublicKeyType => "ecdsaSecp256k1PublicKey"
    case ListKeyType => "keyList"
    case ThresholdKeyType => "thresholdKey"
    case EvmAddressKeyType => "evmAddress"
  }

  const TYPE_MISSING_TEXT: string := "invalid parameters: type is required"
  const TYPE_NOT_STRING_TEXT: string := "invalid parameters: type should be a string"
  const TYPE_UNKNOWN_TEXT: string := "unordered_map::at"
  const FROM_KEY_NOT_STRING_TEXT: string := "invalid parameters: fromKey should be a string"
  const THRESHOLD_NOT_INTEGER_TEXT: string := "invalid parameters: threshold should be an integer"
  const KEYS_NOT_LIST_TEXT: string := "invalid parameters: keys should be a list"

  /** The exceptions that can leave from_json. */
  datatype ReadFault =
    | TypeMissing
    | TypeNotString
    | TypeUnknown
    | FromKeyNotString
    | ThresholdNotInteger
    | KeysNotList
  {
    /** An unknown type is a std::out_of_range, which the serializer's handler for std::invalid_argument lets pass. */
    function ToError(): Error {
      match this
      case TypeMissing => Plain(INVALID_PARAMS, TYPE_MISSING_TEXT)
      case TypeNotString => Plain(INVALID_PARAMS, TYPE_NOT_STRING_TEXT)
      case TypeUnknown => Standard(TYPE_UNKNOWN_TEXT)
      case FromKeyNotString => Plain(INVALID_PARAMS, FROM_KEY_NOT_STRING_TEXT)
      case ThresholdNotInteger => Plain(INVALID_PARAMS, THRESHOLD_NOT_INTEGER_TEXT)
      case KeysNotList => Plain(INVALID_PARAMS, KEYS_NOT_LIST_TEXT)
    }
  }

  /** gStringToKeyType.at, which throws std::out_of_range for any other string. */
  function StringToKeyType(text: string): Result<KeyType, ReadFault> {
    if text == "ed25519PrivateKey" then Ok(Ed25519PrivateKeyType)
    else if text == "ed25519PublicKey" then Ok(Ed25519PublicKeyType)
    else if text == "ecdsaSecp256k1PrivateKey" then Ok(Secp256k1PrivateKeyType)
    else if text == "ecdsaSecp256k1PublicKey" then Ok(Secp256k1PublicKeyType)
    else if text == "keyList" then Ok(ListKeyType)
    else if text == "thresholdKey" then Ok(ThresholdKeyType)
    else if text == "evmAddress" then Ok(EvmAddressKeyType)
    else Err(TypeUnknown)
  }

  /** The two tables are inverse to each other. */
  lemma KeyTypeNames(kind: KeyType, text: string)
    ensures StringToKeyType(text) == Ok(kind) <==> text == KeyTypeToString(kind)
  {
  }

  // Specification of the serializer.

  /** The members written for a request apart from "keys". */
  function OwnMembers(r: KeyRequest): map<string, Json> {
    map["type" := Str(KeyTypeToString(r.kind))]
    + (if r.fromKey.Some? then map["fromKey" := Str(r.fromKey.value)] else map[])
    + (if r.threshold.Some? then map["threshold" := Int(r.threshold.value)] else map[])
  }

  /** A list of keys is pushed element by element, so an empty one leaves no member behind. */
  function ToJson(r: KeyRequest): Json
    decreases r, 1
  {
    if r.keys.Keys? && r.keys.list != [] then Obj(OwnMembers(r)["keys" := Arr(ToJsonAll(r.keys.list))])
    else Obj(OwnMembers(r))
  }

  function ToJsonAll(list: seq<KeyRequest>): (items: seq<Json>)
    ensures |items| == |list|
    decreases list, 0
  {
    if list == [] then [] else [ToJson(list[0])] + ToJsonAll(list[1..])
  }

  /** What from_json reads before it looks at "keys". */
  function OwnFields(j: Json): Result<KeyRequest, ReadFault> {
    if !HasKey(j, "type") then
      Err(TypeMissing)
    else if !j.members["type"].Str? then
      Err(TypeNotString)
    else
      var kind :- StringToKeyType(j.members["type"].text);
      if HasKey(j, "fromKey") && !j.members["fromKey"].Str? then
        Err(FromKeyNotString)
      else
        var fromKey := if HasKey(j, "fromKey") then Some(j.members["fromKey"].text) else None;
        if HasKey(j, "threshold") && !IsNumberInteger(j.members["threshold"]) then
          Err(ThresholdNotInteger)
        else
          var threshold := if HasKey(j, "threshold") then Some(ToInt32(IntegerOf(j.members["threshold"]))) else None;
          Ok(KeyRequest(kind, fromKey, threshold, NoKeys))
  }

  function FromJson(j: Json): Result<KeyRequest, ReadFault>
    decreases j, 1
  {
    var own :- OwnFields(j);
    if !HasKey(j, "keys") then Ok(own)
    else if !j.members["keys"].Arr? then Err(KeysNotList)
    else
      var list :- FromJsonAll(j.members["keys"].items);
      Ok(own.(keys := Keys(list)))
  }

  /** Elements are read in order; the first one that fails ends the reading. */
  function FromJsonAll(items: seq<Json>): Result<seq<KeyRequest>, ReadFault>
    decreases items, 0
  {
    if items == [] then Ok([])
    else
      var first :- FromJson(items[0]);
      var rest :- FromJsonAll(items[1..]);
      Ok([first] + rest)
  }

  // Round trips.

  /** The request with every present but empty list of keys, at any depth, replaced by an absent one. */
  function Normalize(r: KeyRequest): KeyRequest
    decreases r, 1
  {
    if r.keys.Keys? && r.keys.list != [] then r.(keys := Keys(NormalizeAll(r.keys.list))) else r.(keys := NoKeys)
  }

  function NormalizeAll(list: seq<KeyRequest>): (r: seq<KeyRequest>)
    ensures |r| == |list|
    decreases list, 0
  {
    if list == [] then [] else [Normalize(list[0])] + NormalizeAll(list[1..])
  }

  lemma OwnFieldsRoundTrip(r: KeyRequest, j: Json)
    requires j.Obj? && j.members - {"keys"} == OwnMembers(r)
    ensures OwnFields(j) == Ok(r.(keys := NoKeys))
  {
    KeyTypeNames(r.kind, KeyTypeToString(r.kind));
    var m := OwnMembers(r);
    assert forall key | key != "keys" :: (key in j.members <==> key in m) && (key in m ==> j.members[key] == m[key]) by {
      assert forall key :: key in j.members - {"keys"} <==> key in m;
    }
  }

  /** Reading what was written gives the normal form of the request, for every tree. */
  lemma {:induction false} WriteThenRead(r: KeyRequest)
    ensures FromJson(ToJson(r)) == Ok(Normalize(r))
    decreases r, 1
  {
    var j := ToJson(r);
    assert j.members - {"keys"} == OwnMembers(r);
    OwnFieldsRoundTrip(r, j);
    if r.keys.Keys? && r.keys.list != [] {
      WriteThenReadAll(r.keys.list);
    }
  }

  lemma {:induction false} WriteThenReadAll(list: seq<KeyRequest>)
    ensures FromJsonAll(ToJsonAll(list)) == Ok(NormalizeAll(list))
    decreases list, 0
  {
    if list != [] {
      WriteThenRead(list[0]);
      WriteThenReadAll(list[1..]);
      assert ToJsonAll(list)[1..] == ToJsonAll(list[1..]);
    }
  }

  /** The normal form is reached in one step, and has the same JSON as the request. */
  lemma {:induction false} NormalForm(r: KeyRequest)
    ensures Normalize(Normalize(r)) == Normalize(r)
    ensures ToJson(Normalize(r)) == ToJson(r)
    decreases r, 1
  {
    if r.keys.Keys? && r.keys.list != [] {
      NormalFormAll(r.keys.list);
    }
  }

  lemma {:induction false} NormalFormAll(list: seq<KeyRequest>)
    ensures NormalizeAll(NormalizeAll(list)) == NormalizeAll(list)
    ensures ToJsonAll(NormalizeAll(list)) == ToJsonAll(list)
    decreases list, 0
  {
    if list != [] {
      NormalForm(list[0]);
      NormalFormAll(list[1..]);
      assert NormalizeAll(list)[1..] == NormalizeAll(list[1..]);
    }
  }

  // Which values are requests, which exception is thrown for the others, and what is kept of them.

  /** What is wrong with a node, looking at its own members alone. */
  function NodeFault(j: Json): Option<ReadFault> {
    match OwnFields(j)
    case Err(fault) => Some(fault)
    case Ok(_) => if HasKey(j, "keys") && !j.members["keys"].Arr? then Some(KeysNotList) else None
  }

  /** The nodes of a value in reading order. */
  function Nodes(j: Json): seq<Json>
    decreases j, 1
  {
    [j] + if HasKey(j, "keys") && j.members["keys"].Arr? then NodesAll(j.members["keys"].items) else []
  }

  function NodesAll(items: seq<Json>): seq<Json>
    decreases items, 0
  {
    if items == [] then [] else Nodes(items[0]) + NodesAll(items[1..])
  }

  function FirstReadFault(nodes: seq<Json>): Option<ReadFault> {
    if nodes == [] then None
    else if NodeFault(nodes[0]).Some? then NodeFault(nodes[0])
    else FirstReadFault(nodes[1..])
  }

  lemma {:induction false} FirstReadFaultSplit(before: seq<Json>, after: seq<Json>)
    ensures FirstReadFault(before + after)
         == if FirstReadFault(before).Some? then FirstReadFault(before) else FirstReadFault(after)
  {
    if before == [] {
      assert before + after == after;
    } else {
      assert (before + after)[0] == before[0] && (before + after)[1..] == before[1..] + after;
      FirstReadFaultSplit(before[1..], after);
    }
  }

  /** Reading fails with the fault of the first faulty node in reading order, at whatever depth, and only then. */
  lemma {:induction false} ReadFaults(j: Json)
    ensures match FirstReadFault(Nodes(j))
            case Some(fault) => FromJson(j) == Err(fault)
            case None => FromJson(j).Ok?
    decreases j, 1
  {
    assert Nodes(j)[0] == j;
    if NodeFault(j).None? {
      if HasKey(j, "keys") {
        ReadFaultsAll(j.members["keys"].items);
        assert Nodes(j)[1..] == NodesAll(j.members["keys"].items);
      } else {
        assert Nodes(j)[1..] == [];
      }
    }
  }

  lemma {:induction false} ReadFaultsAll(items: seq<Json>)
    ensures match FirstReadFault(NodesAll(items))
            case Some(fault) => FromJsonAll(items) == Err(fault)
            case None => FromJsonAll(items).Ok?
    decreases items, 0
  {
    if items != [] {
      ReadFaults(items[0]);
      ReadFaultsAll(items[1..]);
      FirstReadFaultSplit(Nodes(items[0]), NodesAll(items[1..]));
    }
  }

  /** When a node has which fault, in the order in which its members are looked at. */
  lemma NodeFaultKinds(j: Json)
    ensures var fault := NodeFault(j);
            var typed := HasKeyType(j, "type", StringKind) && exists kind :: j.members["type"].text == KeyTypeToString(kind);
            var keyed := typed && (HasKey(j, "fromKey") ==> j.members["fromKey"].Str?);
            var counted := keyed && (HasKey(j, "threshold") ==> IsNumberInteger(j.members["threshold"]));
            && (fault == Some(TypeMissing) <==> !HasKey(j, "type"))
            && (fault == Some(TypeNotString) <==> HasKey(j, "type") && !j.members["type"].Str?)
            && (fault == Some(TypeUnknown) <==> HasKeyType(j, "type", StringKind) && !typed)
            && (fault == Some(FromKeyNotString) <==> typed && !keyed)
            && (fault == Some(ThresholdNotInteger) <==> keyed && !counted)
            && (fault == Some(KeysNotList) <==> counted && HasKey(j, "keys") && !j.members["keys"].Arr?)
  {
    if HasKeyType(j, "type", StringKind) {
      UnknownName(j.members["type"].text);
    }
  }

  /** A type is unknown exactly if its text is none of the seven names. */
  lemma UnknownName(text: string)
    ensures StringToKeyType(text).Err? <==> forall kind :: text != KeyTypeToString(kind)
  {
    if StringToKeyType(text).Ok? {
      KeyTypeNames(StringToKeyType(text).value, text);
    } else {
      forall kind
        ensures text != KeyTypeToString(kind)
      {
        KeyTypeNames(kind, text);
      }
    }
  }

  lemma UnknownTypeNode(j: Json)
    ensures NodeFault(j) == Some(TypeUnknown) <==>
            HasKeyType(j, "type", StringKind) && forall kind :: j.members["type"].text != KeyTypeToString(kind)
  {
    if HasKeyType(j, "type", StringKind) {
      UnknownName(j.members["type"].text);
    }
  }

  /** A node's own members have the kinds that from_json asks for. */
  predicate WellFormedNode(j: Json) {
    && HasKeyType(j, "type", StringKind)
    && StringToKeyType(j.members["type"].text).Ok?
    && (HasKey(j, "fromKey") ==> j.members["fromKey"].Str?)
    && (HasKey(j, "threshold") ==> IsNumberInteger(j.members["threshold"]))
    && (HasKey(j, "keys") ==> j.members["keys"].Arr?)
  }

  /** Every node, at every depth. */
  predicate WellFormed(j: Json) {
    && WellFormedNode(j)
    && (HasKey(j, "keys") ==> forall item | item in j.members["keys"].items :: WellFormed(item))
  }

  /**
   The recursive restriction of a value to what a request holds: the four known members, with a threshold as the int it
   converts to and without an empty list of keys.
   */
  function Restrict(j: Json): Json
    requires WellFormed(j)
    decreases j, 1
  {
    var own :=
      map["type" := j.members["type"]]
      + (if HasKey(j, "fromKey") then map["fromKey" := j.members["fromKey"]] else map[])
      + (if HasKey(j, "threshold") then map["threshold" := Int(ToInt32(IntegerOf(j.members["threshold"])))] else map[]);
    if HasKey(j, "keys") && j.members["keys"].items != [] then
      Obj(own["keys" := Arr(RestrictAll(j.members["keys"].items))])
    else Obj(own)
  }

  function RestrictAll(items: seq<Json>): (r: seq<Json>)
    requires forall item | item in items :: WellFormed(item)
    ensures |r| == |items|
    ensures forall i | 0 <= i < |items| :: r[i] == Restrict(items[i])
    decreases items, 0
  {
    if items == [] then [] else [Restrict(items[0])] + RestrictAll(items[1..])
  }

  /**
   A value is accepted exactly when every node in it is well formed; otherwise the first ill-formed node in reading order
   decides the exception. Printing an accepted value back restricts it.
   */
  lemma {:induction false} ReadThenWrite(j: Json)
    ensures FromJson(j).Ok? <==> WellFormed(j)
    ensures FromJson(j).Err? ==> FirstReadFault(Nodes(j)) == Some(FromJson(j).error)
    ensures WellFormed(j) ==> ToJson(FromJson(j).value) == Restrict(j)
    decreases j, 1
  {
    ReadFaults(j);
    if WellFormedNode(j) {
      KeyTypeNames(OwnFields(j).value.kind, j.members["type"].text);
      if HasKey(j, "keys") {
        ReadThenWriteAll(j.members["keys"].items);
      }
    }
  }

  lemma {:induction false} ReadThenWriteAll(items: seq<Json>)
    ensures FromJsonAll(items).Ok? <==> forall item | item in items :: WellFormed(item)
    ensures FromJsonAll(items).Ok? ==>
              |FromJsonAll(items).value| == |items| && ToJsonAll(FromJsonAll(items).value) == RestrictAll(items)
    decreases items, 0
  {
    if items != [] {
      ReadThenWrite(items[0]);
      ReadThenWriteAll(items[1..]);
      assert forall item :: item in items <==> item == items[0] || item in items[1..];
    }
  }

  // The serializer as the source writes it, filling an object and growing a list in a loop.

  method WriteJson(request: KeyRequest) returns (jsonTo: Json)
    ensures jsonTo == ToJson(request)
    decreases request
  {
    var members := map["type" := Str(KeyTypeToString(request.kind))];
    if request.fromKey.Some? {
      members := members["fromKey" := Str(request.fromKey.value)];
    }
    if request.threshold.Some? {
      members := members["threshold" := Int(request.threshold.value)];
    }
    assert members == OwnMembers(request);
    if request.keys.Keys? {
      var list := request.keys.list;
      var keys: seq<Json> := [];
      for i := 0 to |list|
        invariant keys == ToJsonAll(list[..i])
        invariant members == if i == 0 then OwnMembers(request) else OwnMembers(request)["keys" := Arr(keys)]
      {
        var back := WriteJson(list[i]);
        ToJsonAllPush(list[..i], list[i]);
        assert list[..i + 1] == list[..i] + [list[i]];
        keys := keys + [back];
        members := members["keys" := Arr(keys)];
      }
      assert list[..|list|] == list;
    }
    jsonTo := Obj(members);
  }

  lemma {:induction false} ToJsonAllPush(list: seq<KeyRequest>, r: KeyRequest)
    ensures ToJsonAll(list + [r]) == ToJsonAll(list) + [ToJson(r)]
  {
    if list != [] {
      ToJsonAllPush(list[1..], r);
      assert (list + [r])[1..] == list[1..] + [r];
    }
  }

  method ReadJson(jsonFrom: Json) returns (request: Result<KeyRequest, ReadFault>)
    ensures request == FromJson(jsonFrom)
    decreases jsonFrom
  {
    var own :- OwnFields(jsonFrom);
    if HasKey(jsonFrom, "keys") {
      if !jsonFrom.members["keys"].Arr? {
        return Err(KeysNotList);
      }
      var items := jsonFrom.members["keys"].items;
      var list: seq<KeyRequest> := [];
      for i := 0 to |items|
        invariant FromJsonAll(items[..i]) == Ok(list)
      {
        var back := ReadJson(items[i]);
        FromJsonAllPush(items[..i], items[i..]);
        assert items == items[..i] + items[i..];
        if back.Err? {
          return Err(back.error);
        }
        FromJsonAllPush(items[..i], [items[i]]);
        assert FromJsonAll([items[i]][1..]) == Ok([]) && [back.value] + [] == [back.value];
        assert items[..i + 1] == items[..i] + [items[i]];
        list := list + [back.value];
      }
      assert items[..|items|] == items;
      own := own.(keys := Keys(list));
    }
    request := Ok(own);
  }

  lemma {:induction false} FromJsonAllPush(before: seq<Json>, after: seq<Json>)
    requires FromJsonAll(before).Ok?
    ensures FromJsonAll(before + after) ==
            if FromJsonAll(after).Err? then FromJsonAll(after)
            else Ok(FromJsonAll(before).value + FromJsonAll(after).value)
  {
    if before == [] {
      assert before + after == after;
      if FromJsonAll(after).Ok? {
        assert [] + FromJsonAll(after).value == FromJsonAll(after).value;
      }
    } else {
      FromJsonAllPush(before[1..], after);
      assert (before + after)[0] == before[0] && (before + after)[1..] == before[1..] + after;
      if FromJsonAll(after).Ok? {
        ConsAssociates(FromJson(before[0]).value, FromJsonAll(before[1..]).value, FromJsonAll(after).value);
      }
    }
  }

  lemma ConsAssociates(first: KeyRequest, rest: seq<KeyRequest>, tail: seq<KeyRequest>)
    ensures [first] + (rest + tail) == [first] + rest + tail
  {
  }
}
