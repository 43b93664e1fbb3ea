/**
 What an account function of the SDK client does to its transaction, for every combination of optional arguments: the
 exact history of calls, the final settings and signatures, and the exceptions that can and cannot occur.
 */
module SdkClientProofs {
  import opened Wrappers
  import opened HederaKeys
  import opened CommonTransactionParams
  import opened Transaction
  import opened SdkClient

  // A script without its control flow.

  /** The settings that a script makes before its first exception, in order. */
  function Settings(script: seq<Attempt>): seq<Setting> {
    if script == [] || script[0].Throws? then []
    else (if script[0].Use? then [script[0].setting] else []) + Settings(script[1..])
  }

  function FirstThrow(script: seq<Attempt>): Option<TransactionFault> {
    if script == [] then None
    else if script[0].Throws? then Some(script[0].fault)
    else FirstThrow(script[1..])
  }

  function SetEvents(settings: seq<Setting>): (events: seq<Event>)
    ensures |events| == |settings|
    ensures forall i | 0 <= i < |settings| :: events[i] == SetEvent(settings[i])
  {
    seq(|settings|, i requires 0 <= i < |settings| => SetEvent(settings[i]))
  }

  function SignEvents(b: Backend, signers: seq<PrivateKey>): (events: seq<Event>)
    ensures |events| == |signers|
    ensures forall i | 0 <= i < |signers| :: events[i] == SignEvent(b.publicOf(signers[i]))
  {
    seq(|signers|, i requires 0 <= i < |signers| => SignEvent(b.publicOf(signers[i])))
  }

  function StoreAll(settings: map<Slot, Setting>, list: seq<Setting>): map<Slot, Setting>
    decreases list
  {
    if list == [] then settings else StoreAll(Store(settings, list[0]), list[1..])
  }

  function Signatories(b: Backend, keys: seq<PublicKey>, signers: seq<PrivateKey>): seq<PublicKey>
    decreases signers
  {
    if signers == [] then keys else Signatories(b, AddSignatory(keys, b.publicOf(signers[0])), signers[1..])
  }

  lemma SetEventsCons(trace: seq<Event>, s: Setting, later: seq<Setting>)
    ensures trace + SetEvents([s] + later) == (trace + [SetEvent(s)]) + SetEvents(later)
  {
  }

  ghost predicate ScriptMeans(st: TxState, script: seq<Attempt>, run: Run) {
    var list := Settings(script);
    && run.fault == FirstThrow(script)
    && run.state == TxState(false, StoreAll(st.settings, list), st.signatories, st.trace + SetEvents(list))
  }

  lemma UseMeaning(st: TxState, s: Setting, script: seq<Attempt>, run: Run)
    requires !st.frozen && script != [] && script[0] == Use(s)
    requires ScriptMeans(SetOn(st, s).state, script[1..], run)
    ensures ScriptMeans(st, script, run)
  {
    var later := Settings(script[1..]);
    assert Settings(script) == [s] + later && ([s] + later)[1..] == later;
    SetEventsCons(st.trace, s, later);
  }

  lemma StopMeaning(st: TxState, script: seq<Attempt>)
    requires !st.frozen && (script == [] || script[0].Throws?)
    ensures ScriptMeans(st, script, Run(st, FirstThrow(script)))
  {
    assert st.trace + SetEvents([]) == st.trace;
  }

  lemma {:induction false} RunScriptMeaning(st: TxState, script: seq<Attempt>, i: nat)
    requires !st.frozen && i <= |script|
    ensures ScriptMeans(st, script[i..], RunScript(st, script, i))
    decreases |script| - i
  {
    var rest := script[i..];
    if i == |script| || script[i].Throws? {
      StopMeaning(st, rest);
    } else {
      assert rest[0] == script[i] && rest[1..] == script[i + 1..];
      var next := AttemptOn(st, script[i]).state;
      RunScriptMeaning(next, script, i + 1);
      if script[i].Use? {
        UseMeaning(st, script[i].setting, rest, RunScript(next, script, i + 1));
      } else {
        assert [] + Settings(rest[1..]) == Settings(rest[1..]);
      }
    }
  }

  lemma {:induction false} SignAllMeaning(b: Backend, st: TxState, signers: seq<PrivateKey>)
    requires st.frozen
    ensures SignAllOn(b, st, signers)
         == Run(st.(signatories := Signatories(b, st.signatories, signers),
                    trace := st.trace + SignEvents(b, signers)), None)
    decreases signers
  {
    if signers != [] {
      var next := SignOn(st, b.publicOf(signers[0])).state;
      SignAllMeaning(b, next, signers[1..]);
      assert st.trace + SignEvents(b, signers) == next.trace + SignEvents(b, signers[1..]);
    } else {
      assert st.trace + SignEvents(b, signers) == st.trace;
    }
  }

  lemma {:induction false} SettingsSplit(before: seq<Attempt>, after: seq<Attempt>)
    ensures FirstThrow(before + after) ==
            if FirstThrow(before).Some? then FirstThrow(before) else FirstThrow(after)
    ensures Settings(before + after)
         == Settings(before) + if FirstThrow(before).Some? then [] else Settings(after)
  {
    if before == [] {
      assert before + after == after;
    } else {
      assert (before + after)[0] == before[0] && (before + after)[1..] == before[1..] + after;
      SettingsSplit(before[1..], after);
    }
  }

  lemma {:induction false} StoreAllSplit(settings: map<Slot, Setting>, before: seq<Setting>, after: seq<Setting>)
    ensures StoreAll(settings, before + after) == StoreAll(StoreAll(settings, before), after)
    decreases before
  {
    if before == [] {
      assert before + after == after;
    } else {
      assert (before + after)[0] == before[0] && (before + after)[1..] == before[1..] + after;
      StoreAllSplit(Store(settings, before[0]), before[1..], after);
    }
  }

  // The whole call.

  /** Every conditional setter of a call: its own, then those of the common parameters. */
  function WholeScript(script: seq<Attempt>, common: Option<CommonParams>): seq<Attempt> {
    script + if common.Some? then CommonScript(common.value) else []
  }

  function SignersOf(common: Option<CommonParams>): seq<PrivateKey> {
    if common.Some? && common.value.signers.Some? then common.value.signers.value else []
  }

  /** The client can give the transaction an ID, if it needs one, and nodes to go to. */
  function FreezeFault(settings: map<Slot, Setting>, client: Client): Option<TransactionFault> {
    if TransactionIdSlot !in settings && client.operator.None? then Some(NoOperator)
    else if !client.hasNetwork then Some(NoNetwork)
    else None
  }

  function WithOperator(settings: map<Slot, Setting>, keys: seq<PublicKey>, client: Client): seq<PublicKey> {
    if OperatorPays(TxState(true, settings, [], []), client) then AddSignatory(keys, client.operator.value.key) else keys
  }

  /** The operator's signature at execution, if the operator pays. */
  function OperatorEvents(settings: map<Slot, Setting>, client: Client): seq<Event> {
    if OperatorPays(TxState(true, settings, [], []), client) then [SignEvent(client.operator.value.key)] else []
  }

  lemma ExecuteMeaning(st: TxState, client: Client)
    requires st.frozen
    ensures ExecuteOn(st, client)
         == if FailsChecksum(st.settings, client) then Run(st, Some(BadChecksum))
            else Run(st.(signatories := WithOperator(st.settings, st.signatories, client),
                         trace := st.trace + OperatorEvents(st.settings, client) + [SubmitEvent]), None)
  {
    if !OperatorPays(st, client) {
      assert st.trace + [] == st.trace;
    }
  }

  /** The transaction from the freeze until its execution. */
  function Sealed(b: Backend, st: TxState, signers: seq<PrivateKey>, client: Client): TxState {
    TxState(true, WithId(st.settings, client), Signatories(b, st.signatories, signers),
            st.trace + [FreezeEvent] + SignEvents(b, signers))
  }

  /** From the last setter on: freeze, sign in list order. */
  lemma SealMeaning(b: Backend, st: TxState, signers: seq<PrivateKey>, client: Client)
    requires !st.frozen && FreezeFault(st.settings, client).None?
    ensures FreezeOn(st, client).fault.None?
    ensures SignAllOn(b, FreezeOn(st, client).state, signers) == Run(Sealed(b, st, signers, client), None)
  {
    SignAllMeaning(b, FreezeOn(st, client).state, signers);
  }

  /** An empty list of signers, which freezes early, has the same effect as no list at all. */
  lemma EmptySignersAreAbsent(b: Backend, script: seq<Attempt>, p: CommonParams, client: Client)
    ensures CallOn(b, script, Some(p), client)
         == CallOn(b, script, Some(CommonTransactionParams.Normalize(p)), client)
  {
  }

  /** The state when the last setter has run. */
  function LastSet(script: seq<Attempt>, common: Option<CommonParams>): TxState {
    var list := Settings(WholeScript(script, common));
    TxState(false, StoreAll(map[], list), [], SetEvents(list))
  }

  lemma SettersMeaning(b: Backend, script: seq<Attempt>, common: Option<CommonParams>)
    ensures var own := RunScript(BLANK, script, 0);
            var last := LastSet(script, common);
            var thrown := FirstThrow(WholeScript(script, common));
            if own.fault.Some? then
              own == Run(last, thrown)
            else if common.Some? then
              RunScript(own.state, CommonScript(common.value), 0) == Run(last, thrown)
            else
              own == Run(last, None) && thrown.None?
  {
    var filler := if common.Some? then CommonScript(common.value) else [];
    var own := RunScript(BLANK, script, 0);
    RunScriptMeaning(BLANK, script, 0);
    assert script[0..] == script;
    SettingsSplit(script, filler);
    assert BLANK.trace + SetEvents(Settings(script)) == SetEvents(Settings(script));
    if own.fault.Some? {
      assert Settings(script) + [] == Settings(script);
    } else if common.None? {
      assert script + [] == script;
    } else {
      RunScriptMeaning(own.state, filler, 0);
      assert filler[0..] == filler;
      ScriptsJoin(own.state, script, filler, RunScript(own.state, filler, 0));
    }
  }

  lemma SetEventsJoin(before: seq<Setting>, after: seq<Setting>)
    ensures SetEvents(before + after) == SetEvents(before) + SetEvents(after)
  {
  }

  lemma ScriptsJoin(own: TxState, script: seq<Attempt>, filler: seq<Attempt>, run: Run)
    requires FirstThrow(script).None?
    requires own == TxState(false, StoreAll(map[], Settings(script)), [], SetEvents(Settings(script)))
    requires ScriptMeans(own, filler, run)
    ensures run == Run(TxState(false, StoreAll(map[], Settings(script + filler)), [],
                               SetEvents(Settings(script + filler))), FirstThrow(script + filler))
  {
    var first, second := Settings(script), Settings(filler);
    SettingsSplit(script, filler);
    assert Settings(script + filler) == first + second;
    StoreAllSplit(map[], first, second);
    SetEventsJoin(first, second);
  }

  /**
   The history of a whole call. Either an argument cannot be converted, and the call ends there with only the settings
   before it; or the client cannot freeze the transaction, and it ends unfrozen with every setting made; or the
   transaction sees all given settings in source order, one freeze and one signature for each signer in list order. Its
   fields are then those of the last settings, with an ID of the operator's if none was given. If the client rejects the
   checksum of an account it ends there; otherwise the operator's signature follows, if the operator pays, and one
   submission.
   */
  lemma CallMeaning(b: Backend, script: seq<Attempt>, common: Option<CommonParams>, client: Client)
    ensures var run := CallOn(b, script, common, client);
            var last := LastSet(script, common);
            var thrown := FirstThrow(WholeScript(script, common));
            if thrown.Some? then
              run == Run(last, thrown)
            else if FreezeFault(last.settings, client).Some? then
              run == Run(last.(settings := WithId(last.settings, client)), FreezeFault(last.settings, client))
            else
              && run.state.frozen
              && run.state.settings == WithId(last.settings, client)
              && if FailsChecksum(run.state.settings, client) then
                   && run.fault == Some(BadChecksum)
                   && run.state.signatories == Signatories(b, [], SignersOf(common))
                   && run.state.trace == last.trace + [FreezeEvent] + SignEvents(b, SignersOf(common))
                 else
                   && run.fault.None?
                   && run.state.signatories
                      == WithOperator(run.state.settings, Signatories(b, [], SignersOf(common)), client)
                   && run.state.trace == last.trace + [FreezeEvent] + SignEvents(b, SignersOf(common))
                                         + OperatorEvents(WithId(last.settings, client), client) + [SubmitEvent]
  {
    SettersMeaning(b, script, common);
    var last := LastSet(script, common);
    if FirstThrow(WholeScript(script, common)).None? && FreezeFault(last.settings, client).None? {
      if common.Some? && common.value.signers.Some? {
        SealMeaning(b, last, SignersOf(common), client);
        ExecuteMeaning(Sealed(b, last, SignersOf(common), client), client);
      } else {
        var frozen := FreezeOn(last, client).state;
        ExecuteMeaning(frozen, client);
        assert ExecuteOn(last, client) == ExecuteOn(frozen, client);
        assert last.trace + [FreezeEvent] + SignEvents(b, SignersOf(common)) == last.trace + [FreezeEvent];
      }
    }
  }

  /** No argument of a script throws one of the protocol's own exceptions. */
  predicate Arguments(script: seq<Attempt>) {
    forall a | a in script && a.Throws? :: a.fault.BadArgument?
  }

  lemma {:induction false} FirstThrowIsArgument(script: seq<Attempt>)
    requires Arguments(script)
    ensures FirstThrow(script).Some? ==> FirstThrow(script).value.BadArgument?
  {
    if script != [] {
      FirstThrowIsArgument(script[1..]);
    }
  }

  lemma OwnScripts(b: Backend, create: AccountCreate, update: AccountUpdate, delete: AccountDelete)
    ensures Arguments(CreateScript(b, create))
    ensures Arguments(UpdateScript(b, update))
    ensures Arguments(DeleteScript(b, delete))
  {
  }

  /** The protocol is kept: a call never edits a frozen transaction nor signs an unfrozen one. */
  lemma ProtocolKept(b: Backend, script: seq<Attempt>, common: Option<CommonParams>, client: Client)
    requires Arguments(script)
    ensures CallOn(b, script, common, client).fault !in {Some(Immutable), Some(NotFrozen)}
  {
    CallMeaning(b, script, common, client);
    FirstThrowIsArgument(WholeScript(script, common));
  }

  /** So it is by each of the three functions, whatever they are given. */
  lemma AccountCallsKeepProtocol(b: Backend, create: AccountCreate, update: AccountUpdate, delete: AccountDelete,
                                 client: Client)
    ensures CallOn(b, CreateScript(b, create), create.common, client).fault !in {Some(Immutable), Some(NotFrozen)}
    ensures CallOn(b, UpdateScript(b, update), update.common, client).fault !in {Some(Immutable), Some(NotFrozen)}
    ensures CallOn(b, DeleteScript(b, delete), delete.common, client).fault !in {Some(Immutable), Some(NotFrozen)}
  {
    OwnScripts(b, create, update, delete);
    ProtocolKept(b, CreateScript(b, create), create.common, client);
    ProtocolKept(b, UpdateScript(b, update), update.common, client);
    ProtocolKept(b, DeleteScript(b, delete), delete.common, client);
  }

  // The final settings and signatures.

  /** slot is set by list[i], and nothing after it sets or resets that slot. */
  ghost predicate LastWrite(list: seq<Setting>, i: nat, slot: Slot) {
    && i < |list|
    && SlotOf(list[i]) == slot
    && forall j | i < j < |list| :: SlotOf(list[j]) != slot && slot !in Resets(SlotOf(list[j]))
  }

  /** A field holds a value exactly when some setting is the last to touch it, and it holds that setting. */
  lemma {:induction false} FinalSettings(list: seq<Setting>, slot: Slot)
    ensures slot in StoreAll(map[], list) <==> exists i: nat :: LastWrite(list, i, slot)
    ensures forall i: nat | LastWrite(list, i, slot) ::
              slot in StoreAll(map[], list) && StoreAll(map[], list)[slot] == list[i]
    decreases |list|
  {
    if list != [] {
      var last := |list| - 1;
      var before, s := list[..last], list[last];
      FinalSettings(before, slot);
      assert list == before + [s];
      StoreAllSplit(map[], before, [s]);
      assert [s][1..] == [];
      assert StoreAll(map[], list) == Store(StoreAll(map[], before), s);
      if SlotOf(s) == slot {
        assert LastWrite(list, last, slot);
      } else if slot !in Resets(SlotOf(s)) {
        forall i: nat | LastWrite(before, i, slot)
          ensures LastWrite(list, i, slot)
        {
        }
        forall i: nat | LastWrite(list, i, slot)
          ensures LastWrite(before, i, slot)
        {
          assert i != last;
        }
      }
    }
  }

  /** Every key signs once, in the order in which it first appears. */
  lemma {:induction false} SignatoriesMeaning(b: Backend, keys: seq<PublicKey>, signers: seq<PrivateKey>)
    requires forall i, j | 0 <= i < j < |keys| :: keys[i] != keys[j]
    ensures var all := Signatories(b, keys, signers);
            && keys <= all
            && (forall i, j | 0 <= i < j < |all| :: all[i] != all[j])
            && (forall k :: k in all <==> k in keys || exists s :: s in signers && k == b.publicOf(s))
    decreases signers
  {
    if signers != [] {
      var next := AddSignatory(keys, b.publicOf(signers[0]));
      SignatoriesMeaning(b, next, signers[1..]);
      assert forall s :: s in signers <==> s == signers[0] || s in signers[1..];
      assert forall k :: k in next <==> k in keys || k == b.publicOf(signers[0]);
      assert keys <= next;
    }
  }

  lemma SplitAtUse(script: seq<Attempt>, i: nat)
    requires i < |script| && script[i].Use? && FirstThrow(script).None?
    ensures Settings(script) == Settings(script[..i]) + [script[i].setting] + Settings(script[i + 1..])
  {
    assert script == script[..i] + script[i..];
    SettingsSplit(script[..i], script[i..]);
    assert script[i..][1..] == script[i + 1..];
  }
}
