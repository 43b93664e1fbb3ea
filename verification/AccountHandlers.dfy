/**
 The account functions of src/tck/src/SdkClient.cc as functions of converted parameters. What the network makes of a
 submitted transaction, and what setup and reset have made of the client, are parameters.
 */
module AccountHandlers {
  import opened Wrappers
  import opened Json
  import Rpc = JsonRpcException
  import opened HederaKeys
  import opened JsonTypeMapper
  import opened TckServer
  import opened Transaction
  import opened SdkClient
  import CTP = CommonTransactionParams

  /** How a submission or its receipt fails. */
  datatype NetworkFault =
    | BadReceipt(status: string, what: string)
    | BadPrecheck(status: string, what: string)
    | Failure(what: string)
  {
    function ToError(): Rpc.Error {
      match this
      case BadReceipt(status, what) => Rpc.ReceiptStatus(status, what)
      case BadPrecheck(status, what) => Rpc.PrecheckStatus(status, what)
      case Failure(what) => Rpc.Standard(what)
    }
  }

  /** The client after the calls so far, and what comes of submitting a transaction then. */
  datatype Environment = Environment(
    client: seq<Call> -> Client,
    network: (seq<Call>, TxState) -> Result<Json, NetworkFault>)

  const CREATE_ACCOUNT: string := "createAccount"
  const UPDATE_ACCOUNT: string := "updateAccount"
  const DELETE_ACCOUNT: string := "deleteAccount"

  const CREATE_NAMES: seq<string> :=
    ["key", "initialBalance", "receiverSignatureRequired", "autoRenewPeriod", "memo", "maxAutoTokenAssociations",
     "stakedAccountId", "stakedNodeId", "declineStakingReward", "alias", "commonTransactionParams"]

  const UPDATE_NAMES: seq<string> :=
    ["accountId", "key", "autoRenewPeriod", "expirationTime", "receiverSignatureRequired", "memo",
     "maxAutoTokenAssociations", "stakedAccountId", "stakedNodeId", "declineStakingReward", "commonTransactionParams"]

  const DELETE_NAMES: seq<string> := ["deleteAccountId", "transferAccountId", "commonTransactionParams"]

  const CREATE_TYPES: seq<ParamType> :=
    [Optional(StringType), Optional(Int64Type), Optional(BoolType), Optional(Int64Type), Optional(StringType),
     Optional(Int32Type), Optional(StringType), Optional(Int64Type), Optional(BoolType), Optional(StringType),
     Optional(CommonParamsType)]

  const UPDATE_TYPES: seq<ParamType> :=
    [Optional(StringType), Optional(StringType), Optional(Int64Type), Optional(Int64Type), Optional(BoolType),
     Optional(StringType), Optional(Int32Type), Optional(StringType), Optional(Int64Type), Optional(BoolType),
     Optional(CommonParamsType)]

  const DELETE_TYPES: seq<ParamType> := [Optional(StringType), Optional(StringType), Optional(CommonParamsType)]

  // An argument of its parameter's type, or an empty optional.

  function Text(arg: Arg): Option<string> {
    if arg.StringArg? then Some(arg.text) else None
  }

  function Flag(arg: Arg): Option<bool> {
    if arg.BoolArg? then Some(arg.flag) else None
  }

  function Number64(arg: Arg): Option<int64> {
    if arg.IntArg? then Some(ToInt64(arg.number)) else None
  }

  function Number32(arg: Arg): Option<int32> {
    if arg.IntArg? then Some(ToInt32(arg.number)) else None
  }

  function Common(arg: Arg): Option<CTP.CommonParams> {
    if arg.CommonParamsArg? then Some(arg.params) else None
  }

  function CreateOf(args: seq<Arg>): AccountCreate
    requires |args| == 11
  {
    AccountCreate(Text(args[0]), Number64(args[1]), Flag(args[2]), Number64(args[3]), Text(args[4]), Number32(args[5]),
                  Text(args[6]), Number64(args[7]), Flag(args[8]), Text(args[9]), Common(args[10]))
  }

  function UpdateOf(args: seq<Arg>): AccountUpdate
    requires |args| == 11
  {
    AccountUpdate(Text(args[0]), Text(args[1]), Number64(args[2]), Number64(args[3]), Flag(args[4]), Text(args[5]),
                  Number32(args[6]), Text(args[7]), Number64(args[8]), Flag(args[9]), Common(args[10]))
  }

  function DeleteOf(args: seq<Arg>): AccountDelete
    requires |args| == 3
  {
    AccountDelete(Text(args[0]), Text(args[1]), Common(args[2]))
  }

  /** The transaction is submitted if nothing was thrown before. */
  function Submitted(env: Environment, calls: seq<Call>, run: Run): Result<Json, Rpc.Error> {
    match run.fault
    case Some(fault) => Err(Rpc.Standard(fault.What()))
    case None =>
      match env.network(calls, run.state)
      case Ok(response) => Ok(response)
      case Err(fault) => Err(fault.ToError())
  }

  function CreateAccountCall(b: Backend, env: Environment, calls: seq<Call>, args: seq<Arg>): Result<Json, Rpc.Error> {
    if |args| != 11 then Err(Rpc.Undefined)
    else Submitted(env, calls, CallOn(b, CreateScript(b, CreateOf(args)), CreateOf(args).common, env.client(calls)))
  }

  function UpdateAccountCall(b: Backend, env: Environment, calls: seq<Call>, args: seq<Arg>): Result<Json, Rpc.Error> {
    if |args| != 11 then Err(Rpc.Undefined)
    else Submitted(env, calls, CallOn(b, UpdateScript(b, UpdateOf(args)), UpdateOf(args).common, env.client(calls)))
  }

  function DeleteAccountCall(b: Backend, env: Environment, calls: seq<Call>, args: seq<Arg>): Result<Json, Rpc.Error> {
    if |args| != 3 then Err(Rpc.Undefined)
    else Submitted(env, calls, CallOn(b, DeleteScript(b, DeleteOf(args)), DeleteOf(args).common, env.client(calls)))
  }

  function CreateHandler(b: Backend, env: Environment): Handler {
    Handler(CREATE_TYPES, (calls, args) => CreateAccountCall(b, env, calls, args))
  }

  function UpdateHandler(b: Backend, env: Environment): Handler {
    Handler(UPDATE_TYPES, (calls, args) => UpdateAccountCall(b, env, calls, args))
  }

  function DeleteHandler(b: Backend, env: Environment): Handler {
    Handler(DELETE_TYPES, (calls, args) => DeleteAccountCall(b, env, calls, args))
  }

  /** The method is registered with the handler and the names. */
  ghost predicate Serves(r: Registry, name: string, handler: Handler, names: seq<string>) {
    && name in r.methods && r.methods[name] == handler
    && name in r.parameters && r.parameters[name] == names
  }

  /** What an account function throws is no JSON-RPC exception: a failed status, or one that is not about JSON. */
  lemma SubmittedFault(env: Environment, calls: seq<Call>, run: Run)
    ensures var result := Submitted(env, calls, run);
            result.Err? ==> result.error.ReceiptStatus? || result.error.PrecheckStatus? || result.error.Standard?
  {
  }
}
