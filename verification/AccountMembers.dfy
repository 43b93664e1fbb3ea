/**
 What the account functions are called with: each parameter is the JSON member of its declared name, converted to its type.
 */
module AccountMembers {
  import opened Wrappers
  import opened Json
  import opened HederaKeys
  import opened JsonTypeMapper
  import opened JsonTypeMapperProofs
  import opened SdkClient
  import opened AccountHandlers
  import CTP = CommonTransactionParams

  // Members and what they are converted to.

  function TextIn(j: Json): Option<string> {
    if j.Str? then Some(j.text) else None
  }

  function FlagIn(j: Json): Option<bool> {
    if j.Bool? then Some(j.flag) else None
  }

  function Number64In(j: Json): Option<int64> {
    if ReadsAsInteger(Int64Type, j) then Some(ToInt64(NumberOf(j))) else None
  }

  function Number32In(j: Json): Option<int32> {
    if ReadsAsInteger(Int32Type, j) then Some(ToInt32(NumberOf(j))) else None
  }

  function CommonIn(b: Backend, j: Json): Option<CTP.CommonParams> {
    if j.Null? then None
    else
      match CTP.FromJson(b, j)
      case Ok(params) => Some(params)
      case Err(_) => None
  }

  /** The parameters of createAccount, each from the member of its name. */
  function CreateFrom(b: Backend, members: map<string, Json>): AccountCreate {
    AccountCreate(
      key := TextIn(Lookup(members, "key")),
      initialBalance := Number64In(Lookup(members, "initialBalance")),
      receiverSignatureRequired := FlagIn(Lookup(members, "receiverSignatureRequired")),
      autoRenewPeriod := Number64In(Lookup(members, "autoRenewPeriod")),
      memo := TextIn(Lookup(members, "memo")),
      maxAutoTokenAssociations := Number32In(Lookup(members, "maxAutoTokenAssociations")),
      stakedAccountId := TextIn(Lookup(members, "stakedAccountId")),
      stakedNodeId := Number64In(Lookup(members, "stakedNodeId")),
      declineStakingReward := FlagIn(Lookup(members, "declineStakingReward")),
      alias := TextIn(Lookup(members, "alias")),
      common := CommonIn(b, Lookup(members, "commonTransactionParams")))
  }

  function UpdateFrom(b: Backend, members: map<string, Json>): AccountUpdate {
    AccountUpdate(
      accountId := TextIn(Lookup(members, "accountId")),
      key := TextIn(Lookup(members, "key")),
      autoRenewPeriod := Number64In(Lookup(members, "autoRenewPeriod")),
      expirationTime := Number64In(Lookup(members, "expirationTime")),
      receiverSignatureRequired := FlagIn(Lookup(members, "receiverSignatureRequired")),
      memo := TextIn(Lookup(members, "memo")),
      maxAutoTokenAssociations := Number32In(Lookup(members, "maxAutoTokenAssociations")),
      stakedAccountId := TextIn(Lookup(members, "stakedAccountId")),
      stakedNodeId := Number64In(Lookup(members, "stakedNodeId")),
      declineStakingReward := FlagIn(Lookup(members, "declineStakingReward")),
      common := CommonIn(b, Lookup(members, "commonTransactionParams")))
  }

  function DeleteFrom(b: Backend, members: map<string, Json>): AccountDelete {
    AccountDelete(
      deleteAccountId := TextIn(Lookup(members, "deleteAccountId")),
      transferAccountId := TextIn(Lookup(members, "transferAccountId")),
      common := CommonIn(b, Lookup(members, "commonTransactionParams")))
  }

  /** An argument has what its JSON value is converted to. */
  predicate Holds(b: Backend, base: BaseType, param: Json, arg: Arg) {
    match base
    case StringType => Text(arg) == TextIn(param)
    case BoolType => Flag(arg) == FlagIn(param)
    case Int64Type => Number64(arg) == Number64In(param)
    case Int32Type => Number32(arg) == Number32In(param)
    case CommonParamsType => Common(arg) == CommonIn(b, param)
    case _ => true
  }

  lemma AcceptedHolds(b: Backend, t: ParamType, index: nat, param: Json)
    requires Accepted(b, t, index, param)
    ensures Holds(b, t.base, param, ArgOf(b, t, index, param))
  {
  }

  /** The list of parameters that a call with an object of members comes to. */
  predicate IsListOf(names: seq<string>, members: map<string, Json>, list: seq<Json>) {
    if members == map[] then list == []
    else |list| == |names| && forall i | 0 <= i < |names| :: list[i] == Lookup(members, names[i])
  }

  lemma EachHolds(b: Backend, types: seq<ParamType>, names: seq<string>, members: map<string, Json>, list: seq<Json>,
                  args: seq<Arg>)
    requires |types| == |names| && IsListOf(names, members, list) && Prepare(b, types, list) == Ok(args)
    ensures |args| == |types|
    ensures forall i | 0 <= i < |types| :: Holds(b, types[i].base, Lookup(members, names[i]), args[i])
  {
    PrepareMeaning(b, types, list);
    forall i | 0 <= i < |types|
      ensures Holds(b, types[i].base, Lookup(members, names[i]), args[i])
    {
      if members != map[] {
        AcceptedHolds(b, types[i], i, list[i]);
      }
    }
  }

  lemma CreateArguments(b: Backend, members: map<string, Json>, list: seq<Json>, args: seq<Arg>)
    requires IsListOf(CREATE_NAMES, members, list) && Prepare(b, CREATE_TYPES, list) == Ok(args)
    ensures |args| == 11 && CreateOf(args) == CreateFrom(b, members)
  {
    EachHolds(b, CREATE_TYPES, CREATE_NAMES, members, list, args);
    assert forall i | 0 <= i < 11 :: Holds(b, CREATE_TYPES[i].base, Lookup(members, CREATE_NAMES[i]), args[i]);
    CreateAgrees(b, members, args);
  }

  /** The names, the types and the function's parameters are in the same order. */
  lemma CreateAgrees(b: Backend, members: map<string, Json>, args: seq<Arg>)
    requires |args| == 11
    requires forall i | 0 <= i < 11 :: Holds(b, CREATE_TYPES[i].base, Lookup(members, CREATE_NAMES[i]), args[i])
    ensures CreateOf(args) == CreateFrom(b, members)
  {
  }

  lemma UpdateArguments(b: Backend, members: map<string, Json>, list: seq<Json>, args: seq<Arg>)
    requires IsListOf(UPDATE_NAMES, members, list) && Prepare(b, UPDATE_TYPES, list) == Ok(args)
    ensures |args| == 11 && UpdateOf(args) == UpdateFrom(b, members)
  {
    EachHolds(b, UPDATE_TYPES, UPDATE_NAMES, members, list, args);
    UpdateAgrees(b, members, args);
  }

  lemma UpdateAgrees(b: Backend, members: map<string, Json>, args: seq<Arg>)
    requires |args| == 11
    requires forall i | 0 <= i < 11 :: Holds(b, UPDATE_TYPES[i].base, Lookup(members, UPDATE_NAMES[i]), args[i])
    ensures UpdateOf(args) == UpdateFrom(b, members)
  {
  }

  lemma DeleteArguments(b: Backend, members: map<string, Json>, list: seq<Json>, args: seq<Arg>)
    requires IsListOf(DELETE_NAMES, members, list) && Prepare(b, DELETE_TYPES, list) == Ok(args)
    ensures |args| == 3 && DeleteOf(args) == DeleteFrom(b, members)
  {
    EachHolds(b, DELETE_TYPES, DELETE_NAMES, members, list, args);
    assert Holds(b, DELETE_TYPES[0].base, Lookup(members, DELETE_NAMES[0]), args[0]);
    assert Holds(b, DELETE_TYPES[1].base, Lookup(members, DELETE_NAMES[1]), args[1]);
    assert Holds(b, DELETE_TYPES[2].base, Lookup(members, DELETE_NAMES[2]), args[2]);
  }
}
