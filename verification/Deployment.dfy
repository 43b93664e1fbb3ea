/**
 The server as src/tck/src/main.cc sets it up: its six methods, their types and parameter names, and what follows from
 them for every request.
 */
module Deployment {
  import opened Wrappers
  import opened Json
  import Rpc = JsonRpcException
  import opened HederaKeys
  import opened JsonTypeMapper
  import opened JsonTypeMapperProofs
  import opened TckServer
  import opened TckParameterProofs
  import opened TckRunProofs
  import opened GenerateKeyParameters
  import opened ServedKeys
  import opened AccountHandlers
  import opened SdkClient

  type Body = (seq<Call>, seq<Arg>) -> Result<Json, Rpc.Error>

  /** What the server is deployed in: the network and its client, and the functions that configure the client. */
  datatype Bodies = Bodies(env: Environment, setup: Body, reset: Body)

  // The additions, in order.

  function CreateAccount(b: Backend, env: Environment): Addition {
    Addition(Methods, CREATE_ACCOUNT, CreateHandler(b, env),
             CREATE_NAMES)
  }

  function DeleteAccount(b: Backend, env: Environment): Addition {
    Addition(Methods, DELETE_ACCOUNT, DeleteHandler(b, env),
             DELETE_NAMES)
  }

  function GenerateKey(b: Backend): Addition {
    Addition(Methods, GENERATE_KEY, GenerateKeyHandler(b), GENERATE_KEY_NAMES)
  }

  function Setup(body: Body): Addition {
    Addition(Methods, "setup",
             Handler([Required(StringType), Required(StringType), Optional(StringType), Optional(StringType),
                      Optional(StringType)], body),
             ["operatorAccountId", "operatorPrivateKey", "nodeIp", "nodeAccountId", "mirrorNetworkIp"])
  }

  function Reset(body: Body): Addition {
    Addition(Methods, "reset", Handler([], body), [])
  }

  function UpdateAccount(b: Backend, env: Environment): Addition {
    Addition(Methods, UPDATE_ACCOUNT, UpdateHandler(b, env),
             UPDATE_NAMES)
  }

  function Additions(b: Backend, f: Bodies): seq<Addition> {
    [CreateAccount(b, f.env), DeleteAccount(b, f.env), GenerateKey(b), Setup(f.setup), Reset(f.reset),
     UpdateAccount(b, f.env)]
  }

  method AddOne(server: TckServer, a: Addition)
    requires a.table.Methods?
    modifies server`methods, server`parameters
    ensures server.State() == Add(old(server.State()), a)
  {
    var fault := server.AddMethod(a.name, a.handler, a.params);
  }

  /** The additions that main makes. */
  method AddFunctions(server: TckServer, f: Bodies)
    requires server.State() == EMPTY
    modifies server`methods, server`parameters
    ensures server.State() == AddAll(Additions(server.backend, f))
  {
    var b := server.backend;
    AddOne(server, CreateAccount(b, f.env));
    AddOne(server, DeleteAccount(b, f.env));
    AddOne(server, GenerateKey(b));
    AddOne(server, Setup(f.setup));
    AddOne(server, Reset(f.reset));
    AddOne(server, UpdateAccount(b, f.env));
    AddSix(CreateAccount(b, f.env), DeleteAccount(b, f.env), GenerateKey(b), Setup(f.setup), Reset(f.reset),
           UpdateAccount(b, f.env));
  }

  lemma AddSix(a1: Addition, a2: Addition, a3: Addition, a4: Addition, a5: Addition, a6: Addition)
    ensures AddAll([a1, a2, a3, a4, a5, a6]) == Add(Add(Add(Add(Add(Add(EMPTY, a1), a2), a3), a4), a5), a6)
  {
    AddLast([], a1);
    AddLast([a1], a2);
    AddLast([a1, a2], a3);
    AddLast([a1, a2, a3], a4);
    AddLast([a1, a2, a3, a4], a5);
    AddLast([a1, a2, a3, a4, a5], a6);
    assert [] + [a1] == [a1];
    assert [a1] + [a2] == [a1, a2];
    assert [a1, a2] + [a3] == [a1, a2, a3];
    assert [a1, a2, a3] + [a4] == [a1, a2, a3, a4];
    assert [a1, a2, a3, a4] + [a5] == [a1, a2, a3, a4, a5];
    assert [a1, a2, a3, a4, a5] + [a6] == [a1, a2, a3, a4, a5, a6];
  }

  lemma AddLast(additions: seq<Addition>, a: Addition)
    ensures AddAll(additions + [a]) == Add(AddAll(additions), a)
  {
  }

  // What the registry is good for.

  /** The functions of a name have as many parameters as are declared for it. */
  ghost predicate Matching(additions: seq<Addition>) {
    && (forall a | a in additions :: Tame(a.handler) && |a.handler.signature| < 0x1_0000_0000)
    && forall a, c | a in additions && c in additions && a.name == c.name ::
         c.params == [] || |a.handler.signature| == |c.params|
  }

  /** Any such additions, in any order, give a registry without undefined behaviour for named parameters. */
  lemma MatchingIsAligned(additions: seq<Addition>)
    requires Matching(additions)
    ensures Aligned(AddAll(additions))
  {
    var r := AddAll(additions);
    RegistryExactly(additions);
    forall table, name | name in FunctionsOf(r, table)
      ensures exists a | a in additions :: a.name == name && a.handler == FunctionsOf(r, table)[name]
    {
      assert HasFunction(additions, table, name, FunctionsOf(r, table)[name]);
      var i :| 0 <= i < |additions| && additions[i].name == name && additions[i].handler == FunctionsOf(r, table)[name];
      assert additions[i] in additions;
    }
    forall name | name in r.parameters
      ensures exists a | a in additions :: a.name == name && a.params == r.parameters[name] && a.params != []
    {
      assert HasParameters(additions, name, r.parameters[name]);
      var i :| 0 <= i < |additions| && additions[i].name == name && additions[i].params == r.parameters[name]
        && additions[i].params != [];
      assert additions[i] in additions;
    }
    assert r.methods == FunctionsOf(r, Methods) && r.notifications == FunctionsOf(r, Notifications);
  }

  /** What setup and reset must keep to: an exception that carries data does not claim to be a failed check. */
  ghost predicate BodiesTame(f: Bodies) {
    Tame(Setup(f.setup).handler) && Tame(Reset(f.reset).handler)
  }

  lemma AccountsTame(b: Backend, env: Environment)
    ensures Tame(CreateAccount(b, env).handler)
    ensures Tame(UpdateAccount(b, env).handler)
    ensures Tame(DeleteAccount(b, env).handler)
  {
    forall calls: seq<Call>, args: seq<Arg> | |args| == 11
      ensures CreateAccountCall(b, env, calls, args).Err? ==> IsPlain(CreateAccountCall(b, env, calls, args).error)
      ensures UpdateAccountCall(b, env, calls, args).Err? ==> IsPlain(UpdateAccountCall(b, env, calls, args).error)
    {
      var create, update := CreateOf(args), UpdateOf(args);
      SubmittedFault(env, calls, CallOn(b, CreateScript(b, create), create.common, env.client(calls)));
      SubmittedFault(env, calls, CallOn(b, UpdateScript(b, update), update.common, env.client(calls)));
    }
    forall calls: seq<Call>, args: seq<Arg> | |args| == 3
      ensures DeleteAccountCall(b, env, calls, args).Err? ==> IsPlain(DeleteAccountCall(b, env, calls, args).error)
    {
      var delete := DeleteOf(args);
      SubmittedFault(env, calls, CallOn(b, DeleteScript(b, delete), delete.common, env.client(calls)));
    }
  }

  lemma GenerateKeyTame(b: Backend)
    ensures Tame(GenerateKeyHandler(b))
  {
    forall calls: seq<Call>, args: seq<Arg> | AllSuit(GENERATE_KEY_TYPES, args)
      ensures var result := GenerateKeyCall(b, args, KeysGenerated(b, calls)).0;
              result.Err? ==> IsPlain(result.error)
    {
      GenerateKeyFault(b, args, KeysGenerated(b, calls));
    }
  }

  lemma AllTame(b: Backend, f: Bodies)
    requires BodiesTame(f)
    ensures forall a | a in Additions(b, f) :: Tame(a.handler)
  {
    GenerateKeyTame(b);
    AccountsTame(b, f.env);
  }

  lemma AdditionsMatch(b: Backend, f: Bodies)
    requires BodiesTame(f)
    ensures Matching(Additions(b, f))
  {
    AllTame(b, f);
    FirstLetters(b, f);
    LengthsMatch(b, f);
    MatchingParts(Additions(b, f));
  }

  lemma MatchingParts(additions: seq<Addition>)
    requires forall a | a in additions ::
               && Tame(a.handler) && |a.handler.signature| < 0x1_0000_0000
               && (a.params == [] || |a.handler.signature| == |a.params|)
    requires forall a, c | a in additions && c in additions && a.name == c.name :: a == c
    ensures Matching(additions)
  {
  }

  lemma FirstLetters(b: Backend, f: Bodies)
    ensures forall a, c | a in Additions(b, f) && c in Additions(b, f) && a.name == c.name :: a == c
    ensures forall a | a in Additions(b, f) :: a.name == GENERATE_KEY ==> a == GenerateKey(b)
  {
    Initials(b, f);
    assert Additions(b, f)[2] == GenerateKey(b);
    Distinct(Additions(b, f), "cdgsru");
  }

  lemma Initials(b: Backend, f: Bodies)
    ensures forall i | 0 <= i < |Additions(b, f)| :: HasInitial(Additions(b, f)[i], "cdgsru"[i])
  {
  }

  predicate HasInitial(a: Addition, letter: char) {
    a.name != [] && a.name[0] == letter
  }

  lemma Distinct(additions: seq<Addition>, letters: seq<char>)
    requires |additions| == |letters|
    requires forall i | 0 <= i < |additions| :: HasInitial(additions[i], letters[i])
    requires forall i, j | 0 <= i < j < |letters| :: letters[i] != letters[j]
    ensures forall a, c | a in additions && c in additions && a.name == c.name :: a == c
  {
  }

  lemma LengthsMatch(b: Backend, f: Bodies)
    ensures forall a | a in Additions(b, f) :: |a.handler.signature| < 0x1_0000_0000 &&
              (a.params == [] || |a.handler.signature| == |a.params|)
  {
  }

  lemma DeployedAligned(b: Backend, f: Bodies)
    requires BodiesTame(f)
    ensures Aligned(Deployed(b, f))
  {
    AdditionsMatch(b, f);
    MatchingIsAligned(Additions(b, f));
  }

  /** The registry after start-up. */
  function Deployed(b: Backend, f: Bodies): Registry {
    AddAll(Additions(b, f))
  }

  /**
   The deployed server's behaviour is undefined exactly for positional lists that are too short: every named call, every
   batch element of another form and every error report stays in range.
   */
  lemma DeployedIsDefined(b: Backend, f: Bodies, calls: seq<Call>, request: Json)
    requires BodiesTame(f)
    ensures HandleSingle(b, Deployed(b, f), calls, request).result.NoBehaviour? <==> ReadsOutOfRange(Deployed(b, f), request)
  {
    DeployedAligned(b, f);
    DefinedBehaviour(b, Deployed(b, f), calls, request);
  }

  lemma ReservedHasDot(name: string)
    requires IsReserved(name)
    ensures '.' in name
  {
    var i :| 0 <= i <= |name| && "rpc." <= name[i..];
    assert name[i + 3] == name[i..][3] == '.';
  }

  /** A method whose name is new and not reserved is stored with its parameter names. */
  lemma Stored(additions: seq<Addition>, i: nat)
    requires i < |additions| && additions[i].table.Methods? && additions[i].params != [] && '.' !in additions[i].name
    requires forall k | 0 <= k < i :: additions[k].name != additions[i].name
    ensures var r, a := AddAll(additions), additions[i];
            && a.name in r.methods && r.methods[a.name] == a.handler
            && a.name in r.parameters && r.parameters[a.name] == a.params
  {
    var a := additions[i];
    RegistryExactly(additions);
    if IsReserved(a.name) {
      ReservedHasDot(a.name);
      assert false;
    }
    assert IsAccepted(additions, i) && Declares(additions, i);
    assert HasFunction(additions, Methods, a.name, a.handler);
    assert HasParameters(additions, a.name, a.params);
  }

  /** The deployed server knows generateKey with its types and its parameter names. */
  lemma KnowsGenerateKey(b: Backend, f: Bodies)
    ensures ServesKeys(b, Deployed(b, f))
  {
    var all := Additions(b, f);
    Initials(b, f);
    assert all[2] == GenerateKey(b);
    assert HasInitial(all[0], 'c') && HasInitial(all[1], 'd') && HasInitial(all[2], 'g');
    Stored(all, 2);
  }

  /** And the account functions with theirs. */
  lemma KnowsAccounts(b: Backend, f: Bodies)
    ensures Serves(Deployed(b, f), CREATE_ACCOUNT, CreateHandler(b, f.env), CREATE_NAMES)
    ensures Serves(Deployed(b, f), DELETE_ACCOUNT, DeleteHandler(b, f.env), DELETE_NAMES)
    ensures Serves(Deployed(b, f), UPDATE_ACCOUNT, UpdateHandler(b, f.env), UPDATE_NAMES)
  {
    var all := Additions(b, f);
    Initials(b, f);
    NamesDiffer(all);
    AccountAdditions(b, f, all);
    NoDots();
    Stored(all, 0);
    Stored(all, 1);
    Stored(all, 5);
  }

  lemma AccountAdditions(b: Backend, f: Bodies, all: seq<Addition>)
    requires all == Additions(b, f)
    ensures |all| == 6
    ensures all[0] == Addition(Methods, CREATE_ACCOUNT, CreateHandler(b, f.env), CREATE_NAMES)
    ensures all[1] == Addition(Methods, DELETE_ACCOUNT, DeleteHandler(b, f.env), DELETE_NAMES)
    ensures all[5] == Addition(Methods, UPDATE_ACCOUNT, UpdateHandler(b, f.env), UPDATE_NAMES)
  {
  }

  lemma NamesDiffer(all: seq<Addition>)
    requires |all| == 6 && forall i | 0 <= i < 6 :: HasInitial(all[i], "cdgsru"[i])
    ensures forall i, k | 0 <= i < k < 6 :: all[i].name != all[k].name
  {
    assert forall i, k | 0 <= i < k < 6 :: "cdgsru"[i] != "cdgsru"[k];
  }

  lemma NoDots()
    ensures '.' !in CREATE_ACCOUNT && '.' !in DELETE_ACCOUNT && '.' !in UPDATE_ACCOUNT
  {
  }

  /** setup is called exactly with two texts and three more that may be null. */
  lemma SetupExactly(b: Backend, body: Body, list: seq<Json>)
    requires |list| == 5
    ensures Setup(body).name == "setup"
    ensures Prepare(b, Setup(body).handler.signature, list).Ok? <==>
            list[0].Str? && list[1].Str? && forall i | 2 <= i < 5 :: list[i].Str? || list[i].Null?
  {
    var signature := Setup(body).handler.signature;
    PrepareMeaning(b, signature, list);
    forall i | 0 <= i < 5
      ensures Accepted(b, signature[i], i, list[i]) <==> list[i].Str? || (i >= 2 && list[i].Null?)
    {
      assert signature[i].base == StringType && (signature[i].Optional? <==> i >= 2);
    }
  }
}
