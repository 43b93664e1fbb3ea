/**
 createAccount, updateAccount and deleteAccount from the request to the transaction, in any server that has them
 registered: the client's JSON members of the declared names, converted, end up in the transaction's fields of those names.
 */
module ServedAccounts {
  import opened Wrappers
  import opened Json
  import Rpc = JsonRpcException
  import opened HederaKeys
  import opened JsonTypeMapper
  import opened TckServer
  import opened TckServerProofs
  import opened TckParameterProofs
  import opened TckAnswerProofs
  import opened Transaction
  import opened SdkClient
  import opened SdkFieldProofs
  import opened SdkValueProofs
  import opened AccountHandlers
  import opened AccountMembers

  /** A valid call of the method, with an object of parameters. */
  predicate IsNamedCall(request: Json, name: string, members: map<string, Json>) {
    && Validate(request).None? && !RequestId(request).Null? && NameOf(request) == name
    && HasKey(request, "params") && request.members["params"] == Obj(members)
  }

  /** The parameters become the arguments. */
  predicate Becomes(b: Backend, r: Registry, request: Json, types: seq<ParamType>, args: seq<Arg>)
    requires Validate(request).None?
  {
    Arguments(b, r, NameOf(request), types, ParamsOf(request)) == Ok(args)
  }

  lemma ListOfMembers(b: Backend, r: Registry, request: Json, name: string, names: seq<string>, members: map<string, Json>,
                      types: seq<ParamType>, args: seq<Arg>) returns (list: seq<Json>)
    requires IsNamedCall(request, name, members) && name in r.parameters && r.parameters[name] == names
    requires Becomes(b, r, request, types, args)
    ensures IsListOf(names, members, list) && Prepare(b, types, list) == Ok(args)
  {
    if members == map[] {
      list := [];
    } else {
      list := Positional(names, members);
      assert |members| > 0;
    }
  }

  lemma NamedBecomes(b: Backend, r: Registry, request: Json, name: string, names: seq<string>, members: map<string, Json>,
                     types: seq<ParamType>, args: seq<Arg>)
    requires IsNamedCall(request, name, members) && name in r.parameters && r.parameters[name] == names
    requires members != map[] && Prepare(b, types, Positional(names, members)) == Ok(args)
    ensures Becomes(b, r, request, types, args)
  {
    assert |members| > 0;
  }

  /** Without parameters, each of the functions is called with none of its arguments. */
  lemma NothingRequired(b: Backend)
    ensures forall types | types in {CREATE_TYPES, UPDATE_TYPES, DELETE_TYPES} ::
              Prepare(b, types, []) == Ok(Nothing(|types|))
  {
    forall types | types in {CREATE_TYPES, UPDATE_TYPES, DELETE_TYPES}
      ensures Prepare(b, types, []) == Ok(Nothing(|types|))
    {
      NoArguments(b, types, seq(|types|, _ => Null));
    }
  }

  /**
   What a client is told: the text of the exception that ended the run before the submission, or what the network made of
   the transaction: a response, a failed receipt or precheck with its status, or another failure.
   */
  ghost predicate IsRunAnswer(outcome: Outcome, id: Json, env: Environment, calls: seq<Call>, run: Run) {
    if run.fault.Some? then
      match run.fault.value
      case Immutable => AnswersInternal(outcome, id, IMMUTABLE_TEXT)
      case NotFrozen => AnswersInternal(outcome, id, NOT_FROZEN_TEXT)
      case NoOperator => AnswersInternal(outcome, id, NO_OPERATOR_TEXT)
      case NoNetwork => AnswersInternal(outcome, id, NO_NETWORK_TEXT)
      case BadChecksum => AnswersInternal(outcome, id, BAD_CHECKSUM_TEXT)
      case BadArgument(what) => AnswersInternal(outcome, id, what)
    else
      match env.network(calls, run.state)
      case Ok(response) => AnswersResult(outcome, id, response)
      case Err(BadReceipt(status, what)) => AnswersStatus(outcome, id, status, what)
      case Err(BadPrecheck(status, what)) => AnswersStatus(outcome, id, status, what)
      case Err(Failure(what)) => AnswersInternal(outcome, id, what)
  }

  lemma RunAnswered(id: Json, env: Environment, calls: seq<Call>, run: Run)
    ensures IsRunAnswer(MethodOutcome(id, Submitted(env, calls, run)), id, env, calls, run)
  {
    var result := Submitted(env, calls, run);
    if result.Ok? {
      EnvelopeIsResponse(id, "result", result.value);
    } else {
      ErrorAnswered(id, result.error);
    }
  }

  /** The request makes one call of an account function, and its answer is what came of that function's run. */
  ghost predicate RunServed(b: Backend, r: Registry, calls: seq<Call>, request: Json, call: Call, env: Environment, run: Run) {
    var step := HandleSingle(b, r, calls, request);
    step.calls == calls + [call] && IsRunAnswer(step.result, RequestId(request), env, calls, run)
  }

  lemma BodyServed(b: Backend, r: Registry, calls: seq<Call>, request: Json, args: seq<Arg>, env: Environment, run: Run)
    requires Validate(request).None? && !RequestId(request).Null? && NameOf(request) in r.methods
    requires Arguments(b, r, NameOf(request), r.methods[NameOf(request)].signature, ParamsOf(request)) == Ok(args)
    requires r.methods[NameOf(request)].body(calls, args) == Submitted(env, calls, run)
    ensures RunServed(b, r, calls, request, Call(Methods, NameOf(request), args), env, run)
  {
    SubmittedFault(env, calls, run);
    MethodServed(b, r, calls, request, args);
    RunAnswered(RequestId(request), env, calls, run);
  }

  /**
   createAccount: the transaction is made from the members of the declared names, and what the network makes of it is the
   answer. If it gets so far, each of its fields holds the member of its name.
   */
  lemma CreateServed(b: Backend, env: Environment, r: Registry, calls: seq<Call>, request: Json,
                     members: map<string, Json>, args: seq<Arg>)
    requires Serves(r, CREATE_ACCOUNT, CreateHandler(b, env), CREATE_NAMES)
    requires IsNamedCall(request, CREATE_ACCOUNT, members) && Becomes(b, r, request, CREATE_TYPES, args)
    ensures var p := CreateFrom(b, members);
            var run := CallOn(b, CreateScript(b, p), p.common, env.client(calls));
            && RunServed(b, r, calls, request, Call(Methods, CREATE_ACCOUNT, args), env, run)
            && EndsAtArgument(run, FirstOf([KeyFault(b, p.key), AccountFault(b, p.stakedAccountId), AliasFault(p.alias)]))
            && (run.fault.None? ==> IsCreated(b, p, run.state.settings) && HasCommon(p.common, run.state.settings))
  {
    var list := ListOfMembers(b, r, request, CREATE_ACCOUNT, CREATE_NAMES, members, CREATE_TYPES, args);
    CreateArguments(b, members, list, args);
    var p := CreateFrom(b, members);
    var run := CallOn(b, CreateScript(b, p), p.common, env.client(calls));
    BodyServed(b, r, calls, request, args, env, run);
    CreatedWhole(b, p, env.client(calls));
  }

  lemma CreatedWhole(b: Backend, p: AccountCreate, client: Client)
    ensures var run := CallOn(b, CreateScript(b, p), p.common, client);
            && EndsAtArgument(run, FirstOf([KeyFault(b, p.key), AccountFault(b, p.stakedAccountId), AliasFault(p.alias)]))
            && (run.fault.None? ==> IsCreated(b, p, run.state.settings) && HasCommon(p.common, run.state.settings))
  {
    CreateThrows(b, p, client);
    CreateSlots(b, p);
    CommonFieldsKept(b, CreateScript(b, p), CREATE_SLOTS, p.common, client);
    if CallOn(b, CreateScript(b, p), p.common, client).fault.None? {
      CreatedFields(b, p, client);
    }
  }

  lemma UpdateServed(b: Backend, env: Environment, r: Registry, calls: seq<Call>, request: Json,
                     members: map<string, Json>, args: seq<Arg>)
    requires Serves(r, UPDATE_ACCOUNT, UpdateHandler(b, env), UPDATE_NAMES)
    requires IsNamedCall(request, UPDATE_ACCOUNT, members) && Becomes(b, r, request, UPDATE_TYPES, args)
    ensures var p := UpdateFrom(b, members);
            var run := CallOn(b, UpdateScript(b, p), p.common, env.client(calls));
            && RunServed(b, r, calls, request, Call(Methods, UPDATE_ACCOUNT, args), env, run)
            && EndsAtArgument(run, FirstOf([AccountFault(b, p.accountId), KeyFault(b, p.key), AccountFault(b, p.stakedAccountId)]))
            && (run.fault.None? ==> IsUpdated(b, p, run.state.settings) && HasCommon(p.common, run.state.settings))
  {
    var list := ListOfMembers(b, r, request, UPDATE_ACCOUNT, UPDATE_NAMES, members, UPDATE_TYPES, args);
    UpdateArguments(b, members, list, args);
    var p := UpdateFrom(b, members);
    var run := CallOn(b, UpdateScript(b, p), p.common, env.client(calls));
    BodyServed(b, r, calls, request, args, env, run);
    UpdatedWhole(b, p, env.client(calls));
  }

  lemma UpdatedWhole(b: Backend, p: AccountUpdate, client: Client)
    ensures var run := CallOn(b, UpdateScript(b, p), p.common, client);
            && EndsAtArgument(run, FirstOf([AccountFault(b, p.accountId), KeyFault(b, p.key), AccountFault(b, p.stakedAccountId)]))
            && (run.fault.None? ==> IsUpdated(b, p, run.state.settings) && HasCommon(p.common, run.state.settings))
  {
    UpdateThrows(b, p, client);
    UpdateSlots(b, p);
    CommonFieldsKept(b, UpdateScript(b, p), UPDATE_SLOTS, p.common, client);
    if CallOn(b, UpdateScript(b, p), p.common, client).fault.None? {
      UpdatedFields(b, p, client);
    }
  }

  lemma DeleteServed(b: Backend, env: Environment, r: Registry, calls: seq<Call>, request: Json,
                     members: map<string, Json>, args: seq<Arg>)
    requires Serves(r, DELETE_ACCOUNT, DeleteHandler(b, env), DELETE_NAMES)
    requires IsNamedCall(request, DELETE_ACCOUNT, members) && Becomes(b, r, request, DELETE_TYPES, args)
    ensures var p := DeleteFrom(b, members);
            var run := CallOn(b, DeleteScript(b, p), p.common, env.client(calls));
            && RunServed(b, r, calls, request, Call(Methods, DELETE_ACCOUNT, args), env, run)
            && EndsAtArgument(run, FirstOf([AccountFault(b, p.deleteAccountId), AccountFault(b, p.transferAccountId)]))
            && (run.fault.None? ==> IsDeleted(b, p, run.state.settings) && HasCommon(p.common, run.state.settings))
  {
    var list := ListOfMembers(b, r, request, DELETE_ACCOUNT, DELETE_NAMES, members, DELETE_TYPES, args);
    DeleteArguments(b, members, list, args);
    var p := DeleteFrom(b, members);
    var run := CallOn(b, DeleteScript(b, p), p.common, env.client(calls));
    BodyServed(b, r, calls, request, args, env, run);
    DeletedWhole(b, p, env.client(calls));
  }

  lemma DeletedWhole(b: Backend, p: AccountDelete, client: Client)
    ensures var run := CallOn(b, DeleteScript(b, p), p.common, client);
            && EndsAtArgument(run, FirstOf([AccountFault(b, p.deleteAccountId), AccountFault(b, p.transferAccountId)]))
            && (run.fault.None? ==> IsDeleted(b, p, run.state.settings) && HasCommon(p.common, run.state.settings))
  {
    DeleteThrows(b, p, client);
    DeleteSlots(b, p);
    CommonFieldsKept(b, DeleteScript(b, p), DELETE_SLOTS, p.common, client);
    if CallOn(b, DeleteScript(b, p), p.common, client).fault.None? {
      DeletedFields(b, p, client);
    }
  }
}
