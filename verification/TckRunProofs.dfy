/**
 What holds over whole runs of the server: of the registry, after any sequence of additions, and of the history of calls,
 after any sequence of additions and inputs.
 */
module TckRunProofs {
  import opened Wrappers
  import opened Json
  import opened HederaKeys
  import opened JsonTypeMapperProofs
  import opened TckServer
  import opened TckServerProofs

  // The registry.

  datatype Addition = Addition(table: Table, name: string, handler: Handler, params: seq<string>)

  /** A rejected addition changes nothing. */
  function Add(r: Registry, a: Addition): Registry {
    match AddTo(r, a.table, a.name, a.handler, a.params)
    case Ok(added) => added
    case Err(_) => r
  }

  /** The names that no function can be added under. */
  lemma ReservedExactly(name: string)
    ensures IsReserved(name) <==> exists before: string, after: string :: name == before + "rpc." + after
  {
    if IsReserved(name) {
      var i :| 0 <= i <= |name| && "rpc." <= name[i..];
      assert name == name[..i] + "rpc." + name[i + 4..];
    }
    if before: string, after: string :| name == before + "rpc." + after {
      assert "rpc." <= name[|before|..];
    }
  }

  function AddAll(additions: seq<Addition>): Registry {
    if additions == [] then EMPTY
    else Add(AddAll(additions[..|additions| - 1]), additions[|additions| - 1])
  }

  /** The addition is the first one of its name to its table, and its name is not reserved. */
  ghost predicate IsAccepted(additions: seq<Addition>, i: nat)
    requires i < |additions|
  {
    && !IsReserved(additions[i].name)
    && forall k | 0 <= k < i :: additions[k].table != additions[i].table || additions[k].name != additions[i].name
  }

  /** The accepted addition brings a list of parameter names, and no accepted one before it does for the same name. */
  ghost predicate Declares(additions: seq<Addition>, i: nat)
    requires i < |additions|
  {
    && IsAccepted(additions, i)
    && additions[i].params != []
    && forall k | 0 <= k < i :: IsAccepted(additions, k) && additions[k].name == additions[i].name ==> additions[k].params == []
  }

  ghost predicate HasFunction(additions: seq<Addition>, table: Table, name: string, handler: Handler) {
    exists i | 0 <= i < |additions| && IsAccepted(additions, i) ::
      additions[i].table == table && additions[i].name == name && additions[i].handler == handler
  }

  ghost predicate HasParameters(additions: seq<Addition>, name: string, params: seq<string>) {
    exists i | 0 <= i < |additions| && Declares(additions, i) :: additions[i].name == name && additions[i].params == params
  }

  ghost predicate FunctionsExactly(r: Registry, additions: seq<Addition>) {
    forall table, name, handler ::
      HasFunction(additions, table, name, handler) <==>
      name in FunctionsOf(r, table) && FunctionsOf(r, table)[name] == handler
  }

  ghost predicate ParametersExactly(r: Registry, additions: seq<Addition>) {
    forall name, params ::
      HasParameters(additions, name, params) <==> name in r.parameters && r.parameters[name] == params
  }

  /** Some addition is the first of its name to its table. */
  lemma {:induction false} FirstOfItsName(additions: seq<Addition>, k: nat)
    returns (i: nat)
    requires k < |additions| && !IsReserved(additions[k].name)
    ensures i <= k && IsAccepted(additions, i)
    ensures additions[i].table == additions[k].table && additions[i].name == additions[k].name
  {
    if IsAccepted(additions, k) {
      i := k;
    } else {
      var j :| 0 <= j < k && additions[j].table == additions[k].table && additions[j].name == additions[k].name;
      i := FirstOfItsName(additions, j);
    }
  }

  lemma {:induction false} FirstToDeclare(additions: seq<Addition>, k: nat)
    returns (i: nat)
    requires k < |additions| && IsAccepted(additions, k) && additions[k].params != []
    ensures i <= k && Declares(additions, i) && additions[i].name == additions[k].name
  {
    if Declares(additions, k) {
      i := k;
    } else {
      var j :| 0 <= j < k && IsAccepted(additions, j) && additions[j].name == additions[k].name && additions[j].params != [];
      i := FirstToDeclare(additions, j);
    }
  }

  /** Later additions do not matter to whether one is accepted, or declares. */
  lemma EarlierUnchanged(additions: seq<Addition>, earlier: seq<Addition>)
    requires additions != [] && earlier == additions[..|additions| - 1]
    ensures forall i | 0 <= i < |earlier| :: IsAccepted(additions, i) <==> IsAccepted(earlier, i)
    ensures forall i | 0 <= i < |earlier| :: Declares(additions, i) <==> Declares(earlier, i)
  {
  }

  lemma LastAccepted(additions: seq<Addition>, earlier: seq<Addition>)
    requires additions != [] && earlier == additions[..|additions| - 1]
    requires FunctionsExactly(AddAll(earlier), earlier)
    ensures var last := additions[|earlier|];
            IsAccepted(additions, |earlier|) <==>
            !IsReserved(last.name) && last.name !in FunctionsOf(AddAll(earlier), last.table)
  {
    var last := additions[|earlier|];
    var functions := FunctionsOf(AddAll(earlier), last.table);
    if last.name in functions {
      assert HasFunction(earlier, last.table, last.name, functions[last.name]);
    } else if !IsReserved(last.name) && !IsAccepted(additions, |earlier|) {
      var k :| 0 <= k < |earlier| && additions[k].table == last.table && additions[k].name == last.name;
      assert earlier[k] == additions[k];
      var i := FirstOfItsName(earlier, k);
      assert HasFunction(earlier, last.table, last.name, earlier[i].handler);
    }
  }

  lemma MoreFunctions(additions: seq<Addition>, earlier: seq<Addition>, table: Table, name: string, handler: Handler)
    requires additions != [] && earlier == additions[..|additions| - 1]
    ensures HasFunction(additions, table, name, handler) <==>
            || HasFunction(earlier, table, name, handler)
            || (var last := additions[|earlier|];
                IsAccepted(additions, |earlier|) && last.table == table && last.name == name && last.handler == handler)
  {
  }

  lemma MoreParameters(additions: seq<Addition>, earlier: seq<Addition>, name: string, params: seq<string>)
    requires additions != [] && earlier == additions[..|additions| - 1]
    ensures HasParameters(additions, name, params) <==>
            || HasParameters(earlier, name, params)
            || (var last := additions[|earlier|]; Declares(additions, |earlier|) && last.name == name && last.params == params)
  {
    EarlierUnchanged(additions, earlier);
    if HasParameters(earlier, name, params) {
      var i :| 0 <= i < |earlier| && Declares(earlier, i) && earlier[i].name == name && earlier[i].params == params;
      assert Declares(additions, i) && additions[i] == earlier[i];
    }
    if HasParameters(additions, name, params) {
      var i :| 0 <= i < |additions| && Declares(additions, i) && additions[i].name == name && additions[i].params == params;
      assert i < |earlier| ==> Declares(earlier, i) && additions[i] == earlier[i];
    }
  }

  lemma LastDeclares(additions: seq<Addition>, earlier: seq<Addition>)
    requires additions != [] && earlier == additions[..|additions| - 1]
    requires ParametersExactly(AddAll(earlier), earlier)
    ensures var last := additions[|earlier|];
            Declares(additions, |earlier|) <==>
            IsAccepted(additions, |earlier|) && last.params != [] && last.name !in AddAll(earlier).parameters
  {
    var last, r := additions[|earlier|], AddAll(earlier);
    EarlierUnchanged(additions, earlier);
    if last.name in r.parameters {
      assert HasParameters(earlier, last.name, r.parameters[last.name]);
      var i :| 0 <= i < |earlier| && Declares(earlier, i) && earlier[i].name == last.name;
      assert IsAccepted(additions, i) && additions[i] == earlier[i];
    } else if IsAccepted(additions, |earlier|) && last.params != [] && !Declares(additions, |earlier|) {
      var k :| 0 <= k < |earlier| && IsAccepted(additions, k) && additions[k].name == last.name && additions[k].params != [];
      assert earlier[k] == additions[k];
      var i := FirstToDeclare(earlier, k);
      assert HasParameters(earlier, last.name, earlier[i].params);
    }
  }

  /**
   The registry after any additions, exactly: a table holds for a name the function of the first addition of that name to
   it, unless the name is reserved; and the parameter names of a name are the first ones that an accepted addition brought,
   to whichever table.
   */
  lemma {:induction false} RegistryExactly(additions: seq<Addition>)
    ensures FunctionsExactly(AddAll(additions), additions)
    ensures ParametersExactly(AddAll(additions), additions)
  {
    if additions != [] {
      var earlier := additions[..|additions| - 1];
      RegistryExactly(earlier);
      LastAccepted(additions, earlier);
      LastDeclares(additions, earlier);
      LaterFunctions(additions, earlier);
      LaterParameters(additions, earlier);
    }
  }

  lemma LaterFunctions(additions: seq<Addition>, earlier: seq<Addition>)
    requires additions != [] && earlier == additions[..|additions| - 1]
    requires FunctionsExactly(AddAll(earlier), earlier)
    requires var last := additions[|earlier|];
             IsAccepted(additions, |earlier|) <==>
             !IsReserved(last.name) && last.name !in FunctionsOf(AddAll(earlier), last.table)
    ensures FunctionsExactly(AddAll(additions), additions)
  {
    assert AddAll(additions) == Add(AddAll(earlier), additions[|earlier|]);
    forall table, name, handler
      ensures HasFunction(additions, table, name, handler) <==>
              name in FunctionsOf(AddAll(additions), table) && FunctionsOf(AddAll(additions), table)[name] == handler
    {
      MoreFunctions(additions, earlier, table, name, handler);
      assert HasFunction(earlier, table, name, handler) <==>
          name in FunctionsOf(AddAll(earlier), table) && FunctionsOf(AddAll(earlier), table)[name] == handler;
    }
  }

  lemma LaterParameters(additions: seq<Addition>, earlier: seq<Addition>)
    requires additions != [] && earlier == additions[..|additions| - 1]
    requires ParametersExactly(AddAll(earlier), earlier)
    requires var last := additions[|earlier|];
             && (IsAccepted(additions, |earlier|) <==>
                   !IsReserved(last.name) && last.name !in FunctionsOf(AddAll(earlier), last.table))
             && (Declares(additions, |earlier|) <==>
                   IsAccepted(additions, |earlier|) && last.params != [] && last.name !in AddAll(earlier).parameters)
    ensures ParametersExactly(AddAll(additions), additions)
  {
    assert AddAll(additions) == Add(AddAll(earlier), additions[|earlier|]);
    forall name, params
      ensures HasParameters(additions, name, params) <==>
              name in AddAll(additions).parameters && AddAll(additions).parameters[name] == params
    {
      MoreParameters(additions, earlier, name, params);
      assert HasParameters(earlier, name, params) <==>
          name in AddAll(earlier).parameters && AddAll(earlier).parameters[name] == params;
    }
  }

  /** What a later registry keeps of an earlier one: everything stored. */
  ghost predicate Extends(later: Registry, earlier: Registry) {
    && (forall name | name in earlier.methods :: name in later.methods && later.methods[name] == earlier.methods[name])
    && (forall name | name in earlier.notifications ::
          name in later.notifications && later.notifications[name] == earlier.notifications[name])
    && (forall name | name in earlier.parameters ::
          name in later.parameters && later.parameters[name] == earlier.parameters[name])
  }

  /** No name is reserved, and every list of parameter names is that of a registered name, and not empty. */
  predicate IsSound(r: Registry) {
    && (forall name | name in r.methods :: !IsReserved(name))
    && (forall name | name in r.notifications :: !IsReserved(name))
    && (forall name | name in r.parameters ::
          r.parameters[name] != [] && (name in r.methods || name in r.notifications))
  }

  lemma AddKeeps(r: Registry, a: Addition)
    requires IsSound(r)
    ensures IsSound(Add(r, a)) && Extends(Add(r, a), r)
  {
  }

  // The history of calls.

  /** A call of a registered function with arguments of its signature. */
  ghost predicate IsTyped(r: Registry, call: Call) {
    && call.name in FunctionsOf(r, call.table)
    && AllSuit(FunctionsOf(r, call.table)[call.name].signature, call.args)
  }

  lemma CallIsTyped(b: Backend, r: Registry, request: Json)
    ensures CallOf(b, r, request).Some? ==> IsTyped(r, CallOf(b, r, request).value)
  {
    if CallOf(b, r, request).Some? {
      var call := CallOf(b, r, request).value;
      var list := Normalize(r.parameters, call.name, ParamsOf(request)).value;
      PreparedSuits(b, FunctionsOf(r, call.table)[call.name].signature, list);
    }
  }

  lemma {:induction false} CallsAreTyped(b: Backend, r: Registry, requests: seq<Json>)
    ensures forall call | call in CallsOf(b, r, requests) :: IsTyped(r, call)
  {
    if requests != [] {
      CallIsTyped(b, r, requests[0]);
      CallsAreTyped(b, r, requests[1..]);
    }
  }

  /** A batch that is given up makes the calls of the requests up to there. */
  lemma {:induction false} BatchPrefix(b: Backend, r: Registry, calls: seq<Call>, requests: seq<Json>)
    returns (k: nat)
    ensures k <= |requests|
    ensures HandleBatch(b, r, calls, requests).calls == calls + CallsOf(b, r, requests[..k])
    ensures HandleBatch(b, r, calls, requests).result.Some? ==> k == |requests|
    decreases requests
  {
    if requests == [] {
      NoRequests(b, r, calls);
      k := 0;
    } else {
      var first := HandleSingle(b, r, calls, requests[0]);
      RunOnce(b, r, calls, requests[0]);
      if first.result.NoBehaviour? {
        k := 1;
        assert requests[..1] == [requests[0]];
        MoreCalls(b, r, calls, requests[..1]);
      } else {
        var rest := BatchPrefix(b, r, first.calls, requests[1..]);
        k := rest + 1;
        assert requests[..k][0] == requests[0] && requests[..k][1..] == requests[1..][..rest];
        MoreCalls(b, r, calls, requests[..k]);
      }
    }
  }

  /** The requests in an input. */
  function RequestsIn(input: Input): seq<Json> {
    match input
    case Parsed(Arr(requests)) => requests
    case Parsed(Obj(members)) => [Obj(members)]
    case _ => []
  }

  lemma InputPrefix(b: Backend, r: Registry, calls: seq<Call>, input: Input)
    returns (k: nat)
    ensures k <= |RequestsIn(input)|
    ensures HandleInput(b, r, calls, input).calls == calls + CallsOf(b, r, RequestsIn(input)[..k])
    ensures !HandleInput(b, r, calls, input).result.Crash? ==> k == |RequestsIn(input)|
  {
    match input
    case Parsed(Arr(requests)) => k := BatchPrefix(b, r, calls, requests);
    case Parsed(Obj(members)) =>
      k := 1;
      RunOnce(b, r, calls, Obj(members));
      assert RequestsIn(input)[..1] == [Obj(members)];
      MoreCalls(b, r, calls, [Obj(members)]);
    case _ =>
      k := 0;
      NoRequests(b, r, calls);
  }

  // Runs.

  datatype Event = Register(addition: Addition) | Receive(input: Input)

  datatype State = State(registry: Registry, calls: seq<Call>)

  function Next(b: Backend, s: State, e: Event): State {
    match e
    case Register(addition) => s.(registry := Add(s.registry, addition))
    case Receive(input) => s.(calls := HandleInput(b, s.registry, s.calls, input).calls)
  }

  function Run(b: Backend, s: State, events: seq<Event>): State
    decreases events
  {
    if events == [] then s else Run(b, Next(b, s, events[0]), events[1..])
  }

  function RequestCount(events: seq<Event>): nat {
    if events == [] then 0
    else (if events[0].Receive? then |RequestsIn(events[0].input)| else 0) + RequestCount(events[1..])
  }

  ghost predicate IsSafe(s: State) {
    IsSound(s.registry) && forall call | call in s.calls :: IsTyped(s.registry, call)
  }

  /** Nothing that was stored is changed, nothing that happened is forgotten. */
  ghost predicate Continues(later: State, earlier: State) {
    Extends(later.registry, earlier.registry) && earlier.calls <= later.calls
  }

  lemma StaysTyped(later: Registry, earlier: Registry, call: Call)
    requires Extends(later, earlier) && IsTyped(earlier, call)
    ensures IsTyped(later, call)
  {
  }

  lemma NextSafe(b: Backend, s: State, e: Event)
    requires IsSafe(s)
    ensures var next := Next(b, s, e);
            IsSafe(next) && Continues(next, s) && |next.calls| <= |s.calls| + RequestCount([e])
  {
    match e
    case Register(addition) =>
      AddKeeps(s.registry, addition);
      forall call | call in s.calls
        ensures IsTyped(Add(s.registry, addition), call)
      {
        StaysTyped(Add(s.registry, addition), s.registry, call);
      }
    case Receive(input) =>
      var k := InputPrefix(b, s.registry, s.calls, input);
      CallsAreTyped(b, s.registry, RequestsIn(input)[..k]);
  }

  /**
   Over any run of additions and inputs, with any functions: the registry stays sound, what it stores never changes, the
   history only grows, by at most one call for each request received, and every call in it is one of a registered function
   with arguments of the function's types, in their ranges.
   */
  lemma {:induction false} RunSafe(b: Backend, s: State, events: seq<Event>)
    requires IsSafe(s)
    ensures var last := Run(b, s, events);
            IsSafe(last) && Continues(last, s) && |last.calls| <= |s.calls| + RequestCount(events)
    decreases events
  {
    if events != [] {
      NextSafe(b, s, events[0]);
      RunSafe(b, Next(b, s, events[0]), events[1..]);
    }
  }

  lemma StartSafe()
    ensures IsSafe(State(EMPTY, []))
  {
  }

  /** All of that holds from the start on. */
  lemma RunSafeFromStart(b: Backend, events: seq<Event>)
    ensures IsSafe(Run(b, State(EMPTY, []), events))
    ensures |Run(b, State(EMPTY, []), events).calls| <= RequestCount(events)
  {
    StartSafe();
    RunSafe(b, State(EMPTY, []), events);
  }

  /** No input of the run leaves the defined behaviour. */
  predicate IsDefined(b: Backend, s: State, events: seq<Event>)
    decreases events
  {
    events == [] ||
    (&& (events[0].Receive? ==> !HandleInput(b, s.registry, s.calls, events[0].input).result.Crash?)
     && IsDefined(b, Next(b, s, events[0]), events[1..]))
  }

  /** The calls of a run, from its additions and inputs alone. */
  function CallsOfRun(b: Backend, r: Registry, events: seq<Event>): seq<Call>
    decreases events
  {
    if events == [] then []
    else match events[0]
         case Register(addition) => CallsOfRun(b, Add(r, addition), events[1..])
         case Receive(input) => CallsOf(b, r, RequestsIn(input)) + CallsOfRun(b, r, events[1..])
  }

  /**
   Run-once safety over runs: the history is exactly the call of each request that has one, in the order received. What a
   function returned, and whether it failed, has no influence on the calls of later requests.
   */
  lemma {:induction false} RunCalls(b: Backend, s: State, events: seq<Event>)
    requires IsDefined(b, s, events)
    ensures Run(b, s, events).calls == s.calls + CallsOfRun(b, s.registry, events)
    decreases events
  {
    if events != [] {
      var next := Next(b, s, events[0]);
      RunCalls(b, next, events[1..]);
      if events[0].Receive? {
        var requests := RequestsIn(events[0].input);
        var k := InputPrefix(b, s.registry, s.calls, events[0].input);
        assert requests[..k] == requests;
        Associate(s.calls, CallsOf(b, s.registry, requests), CallsOfRun(b, s.registry, events[1..]));
      }
    }
  }
}
