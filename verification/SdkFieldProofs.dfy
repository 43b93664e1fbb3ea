/**
 Which field of a transaction each conditional setter of an account function ends up in: after a call that succeeds, every
 field holds exactly what its setter set, and is unset if it set nothing.
 */
module SdkFieldProofs {
  import opened Wrappers
  import opened HederaKeys
  import opened CommonTransactionParams
  import opened Transaction
  import opened SdkClient
  import opened SdkClientProofs

  function Field(settings: map<Slot, Setting>, slot: Slot): Option<Setting> {
    if slot in settings then Some(settings[slot]) else None
  }

  /** The attempt neither sets nor resets the field. */
  predicate Leaves(a: Attempt, slot: Slot) {
    a.Use? ==> SlotOf(a.setting) != slot && slot !in Resets(SlotOf(a.setting))
  }

  lemma {:induction false} LeftAlone(settings: map<Slot, Setting>, script: seq<Attempt>, slot: Slot)
    requires forall a | a in script :: Leaves(a, slot)
    ensures Field(StoreAll(settings, Settings(script)), slot) == Field(settings, slot)
    decreases script
  {
    if script != [] && !script[0].Throws? {
      if script[0].Use? {
        var s, later := script[0].setting, Settings(script[1..]);
        assert Leaves(script[0], slot);
        assert ([s] + later)[1..] == later;
        LeftAlone(Store(settings, s), script[1..], slot);
      } else {
        assert [] + Settings(script[1..]) == Settings(script[1..]);
        LeftAlone(settings, script[1..], slot);
      }
    }
  }

  /** Nothing that only resets a field fills it. */
  lemma {:induction false} StaysEmpty(settings: map<Slot, Setting>, script: seq<Attempt>, slot: Slot)
    requires slot !in settings
    requires forall a | a in script && a.Use? :: SlotOf(a.setting) != slot
    ensures slot !in StoreAll(settings, Settings(script))
    decreases script
  {
    if script != [] && !script[0].Throws? {
      if script[0].Use? {
        var s, later := script[0].setting, Settings(script[1..]);
        assert ([s] + later)[1..] == later;
        StaysEmpty(Store(settings, s), script[1..], slot);
      } else {
        assert [] + Settings(script[1..]) == Settings(script[1..]);
        StaysEmpty(settings, script[1..], slot);
      }
    }
  }

  /** What an attempt that did not throw leaves in its field. */
  function Given(a: Attempt): Option<Setting> {
    if a.Use? then Some(a.setting) else None
  }

  /** Each attempt of a script sets its own field, if it sets one. */
  ghost predicate OwnFields(script: seq<Attempt>, slots: seq<Slot>) {
    && |script| == |slots|
    && (forall i | 0 <= i < |script| :: script[i].Use? ==> SlotOf(script[i].setting) == slots[i])
    && forall i, j | 0 <= i < j < |slots| :: slots[i] != slots[j]
  }

  /** The i-th field at the end, if no later attempt resets it. */
  lemma FieldAt(script: seq<Attempt>, slots: seq<Slot>, i: nat)
    requires OwnFields(script, slots) && i < |script| && FirstThrow(script).None?
    requires forall j | i < j < |script| :: Leaves(script[j], slots[i])
    ensures Field(StoreAll(map[], Settings(script)), slots[i]) == Given(script[i])
  {
    var before, after := script[..i], script[i + 1..];
    if script[i].Use? {
      SplitAtUse(script, i);
      var s := script[i].setting;
      StoreAllSplit(map[], Settings(before) + [s], Settings(after));
      StoreAllSplit(map[], Settings(before), [s]);
      var reached := StoreAll(map[], Settings(before));
      assert [s][1..] == [] && StoreAll(reached, [s]) == Store(reached, s);
      LeftAlone(Store(reached, s), after, slots[i]);
    } else {
      StaysEmpty(map[], script, slots[i]);
    }
  }

  const COMMON_SLOTS: seq<Slot> :=
    [TransactionIdSlot, MaxFeeSlot, ValidDurationSlot, TransactionMemoSlot, RegenerateSlot]

  lemma OwnCommonFields(script: seq<Attempt>, slots: seq<Slot>, common: Option<CommonParams>)
    requires OwnFields(script, slots)
    requires forall slot | slot in slots :: slot !in COMMON_SLOTS
    ensures OwnFields(WholeScript(script, common), WholeSlots(slots, common))
  {
    if common.Some? {
      CommonFields(common.value);
      FieldsJoin(script, slots, CommonScript(common.value), COMMON_SLOTS);
    } else {
      assert script + [] == script && slots + [] == slots;
    }
  }

  lemma CommonFields(p: CommonParams)
    ensures OwnFields(CommonScript(p), COMMON_SLOTS)
  {
  }

  lemma FieldsJoin(before: seq<Attempt>, slots: seq<Slot>, after: seq<Attempt>, others: seq<Slot>)
    requires OwnFields(before, slots) && OwnFields(after, others)
    requires forall slot | slot in slots :: slot !in others
    ensures OwnFields(before + after, slots + others)
  {
    var script, all := before + after, slots + others;
    forall i, j | 0 <= i < j < |all|
      ensures all[i] != all[j]
    {
      if i < |slots| <= j {
        assert slots[i] in slots && others[j - |slots|] in others;
      }
    }
  }

  /** A field that a later attempt resets is unset at the end. */
  lemma FieldReset(script: seq<Attempt>, slots: seq<Slot>, i: nat, j: nat)
    requires OwnFields(script, slots) && i < j < |script| && FirstThrow(script).None?
    requires script[j].Use? && slots[i] in Resets(slots[j])
    ensures Field(StoreAll(map[], Settings(script)), slots[i]) == None
  {
    var before, s, after := script[..j], script[j].setting, script[j + 1..];
    SplitAtUse(script, j);
    StoreAllSplit(map[], Settings(before) + [s], Settings(after));
    StoreAllSplit(map[], Settings(before), [s]);
    var reached := StoreAll(map[], Settings(before));
    assert [s][1..] == [] && StoreAll(reached, [s]) == Store(reached, s);
    StaysEmpty(Store(reached, s), after, slots[i]);
  }

  /** What a successful call leaves: every setting made, and an ID of the operator's if none was given. */
  lemma CallSettings(b: Backend, script: seq<Attempt>, common: Option<CommonParams>, client: Client)
    requires CallOn(b, script, common, client).fault.None?
    ensures FirstThrow(WholeScript(script, common)).None?
    ensures CallOn(b, script, common, client).state.settings
         == WithId(StoreAll(map[], Settings(WholeScript(script, common))), client)
  {
    CallMeaning(b, script, common, client);
  }

  function WholeSlots(slots: seq<Slot>, common: Option<CommonParams>): seq<Slot> {
    slots + if common.Some? then COMMON_SLOTS else []
  }

  /** Only the two staking fields reset each other. */
  predicate IsStakingSlot(slot: Slot) {
    slot == StakedAccountSlot || slot == StakedNodeSlot
  }

  /** After a successful call, a field holds what its attempt gave, unless a later one resets it. */
  lemma CallField(b: Backend, script: seq<Attempt>, slots: seq<Slot>, common: Option<CommonParams>, client: Client, i: nat)
    requires OwnFields(script, slots) && i < |WholeSlots(slots, common)|
    requires forall slot | slot in slots :: slot !in COMMON_SLOTS
    requires WholeSlots(slots, common)[i] != TransactionIdSlot
    requires IsStakingSlot(WholeSlots(slots, common)[i]) ==>
               forall j | i < j < |script| :: Leaves(script[j], WholeSlots(slots, common)[i])
    requires CallOn(b, script, common, client).fault.None?
    ensures Field(CallOn(b, script, common, client).state.settings, WholeSlots(slots, common)[i])
         == Given(WholeScript(script, common)[i])
  {
    CallSettings(b, script, common, client);
    OwnCommonFields(script, slots, common);
    Undisturbed(script, slots, common, i);
    FieldAt(WholeScript(script, common), WholeSlots(slots, common), i);
  }

  lemma Undisturbed(script: seq<Attempt>, slots: seq<Slot>, common: Option<CommonParams>, i: nat)
    requires OwnFields(script, slots) && i < |WholeSlots(slots, common)|
    requires OwnFields(WholeScript(script, common), WholeSlots(slots, common))
    requires IsStakingSlot(WholeSlots(slots, common)[i]) ==>
               forall j | i < j < |script| :: Leaves(script[j], WholeSlots(slots, common)[i])
    ensures forall j | i < j < |WholeScript(script, common)| ::
              Leaves(WholeScript(script, common)[j], WholeSlots(slots, common)[i])
  {
    var whole, all := WholeScript(script, common), WholeSlots(slots, common);
    forall j | i < j < |whole|
      ensures Leaves(whole[j], all[i])
    {
      if IsStakingSlot(all[i]) && j < |script| {
        assert whole[j] == script[j];
      } else if j >= |script| {
        assert all[j] in COMMON_SLOTS;
      }
    }
  }

  /** createAccount and updateAccount: an account to stake to is replaced by a node, which is set after it. */
  lemma NodeReplaces(b: Backend, script: seq<Attempt>, slots: seq<Slot>, common: Option<CommonParams>, client: Client, i: nat)
    requires OwnFields(script, slots) && i + 1 < |slots|
    requires forall slot | slot in slots :: slot !in COMMON_SLOTS
    requires slots[i] == StakedAccountSlot && slots[i + 1] == StakedNodeSlot && script[i + 1].Use?
    requires CallOn(b, script, common, client).fault.None?
    ensures Field(CallOn(b, script, common, client).state.settings, StakedAccountSlot) == None
  {
    CallSettings(b, script, common, client);
    OwnCommonFields(script, slots, common);
    FieldReset(WholeScript(script, common), WholeSlots(slots, common), i, i + 1);
  }

  predicate CommonStepwise(common: Option<CommonParams>, fields: map<Slot, Setting>) {
    common.Some? ==>
      var p := common.value;
      && Field(fields, MaxFeeSlot) == Given(GivenMaxFee(p.maxTransactionFee))
      && Field(fields, ValidDurationSlot) == Given(GivenValidDuration(p.validTransactionDuration))
      && Field(fields, TransactionMemoSlot) == Given(GivenTransactionMemo(p.memo))
      && Field(fields, RegenerateSlot) == Given(GivenRegenerate(p.regenerateTransactionId))
      && (p.transactionId.Some? ==> Field(fields, TransactionIdSlot) == Given(GivenPayerId(p.transactionId)))
  }

  /** The common parameters end up in the fields of the same names, in every call. */
  lemma CommonSteps(b: Backend, script: seq<Attempt>, slots: seq<Slot>, p: CommonParams, client: Client)
    requires OwnFields(script, slots) && forall slot | slot in slots :: slot !in COMMON_SLOTS
    requires CallOn(b, script, Some(p), client).fault.None?
    ensures CommonStepwise(Some(p), CallOn(b, script, Some(p), client).state.settings)
  {
    var n := |script|;
    assert WholeSlots(slots, Some(p))[n..] == COMMON_SLOTS;
    assert WholeScript(script, Some(p))[n..] == CommonScript(p);
    CallField(b, script, slots, Some(p), client, n + 1);
    CallField(b, script, slots, Some(p), client, n + 2);
    CallField(b, script, slots, Some(p), client, n + 3);
    CallField(b, script, slots, Some(p), client, n + 4);
    CallSettings(b, script, Some(p), client);
    OwnCommonFields(script, slots, Some(p));
    FieldAt(WholeScript(script, Some(p)), WholeSlots(slots, Some(p)), n);
  }

  // createAccount.

  const CREATE_SLOTS: seq<Slot> :=
    [KeySlot, InitialBalanceSlot, ReceiverSignatureSlot, AutoRenewSlot, AccountMemoSlot, MaxAssociationsSlot,
     StakedAccountSlot, StakedNodeSlot, DeclineRewardSlot, AliasSlot]

  function CreatePlace(slot: Slot): nat {
    match slot
    case KeySlot => 0
    case InitialBalanceSlot => 1
    case ReceiverSignatureSlot => 2
    case AutoRenewSlot => 3
    case AccountMemoSlot => 4
    case MaxAssociationsSlot => 5
    case StakedAccountSlot => 6
    case StakedNodeSlot => 7
    case DeclineRewardSlot => 8
    case AliasSlot => 9
    case _ => 10
  }

  lemma CreateSlots(b: Backend, p: AccountCreate)
    ensures OwnFields(CreateScript(b, p), CREATE_SLOTS)
    ensures forall slot | slot in CREATE_SLOTS :: slot !in COMMON_SLOTS
  {
    assert forall i | 0 <= i < 10 :: CreatePlace(CREATE_SLOTS[i]) == i;
    assert forall slot | slot in COMMON_SLOTS :: CreatePlace(slot) == 10;
    forall i | 0 <= i < 10
      ensures CreateScript(b, p)[i].Use? ==> SlotOf(CreateScript(b, p)[i].setting) == CREATE_SLOTS[i]
    {
      CreateSlotAt(b, p, i);
    }
  }

  lemma CreateSlotAt(b: Backend, p: AccountCreate, i: nat)
    requires i < 10
    ensures CreateStep(b, p, i).Use? ==> SlotOf(CreateStep(b, p, i).setting) == CREATE_SLOTS[i]
  {
  }

  lemma CreatedField(b: Backend, p: AccountCreate, client: Client, i: nat)
    requires i < 10 && (i == 6 ==> p.stakedNodeId.None?)
    requires CallOn(b, CreateScript(b, p), p.common, client).fault.None?
    ensures Field(CallOn(b, CreateScript(b, p), p.common, client).state.settings, CREATE_SLOTS[i])
         == Given(CreateStep(b, p, i))
  {
    var script := CreateScript(b, p);
    CreateSlots(b, p);
    if IsStakingSlot(CREATE_SLOTS[i]) {
      assert i == 6 || i == 7;
      assert script[7] == GivenStakedNode(p.stakedNodeId);
      forall j | i < j < 10
        ensures Leaves(script[j], CREATE_SLOTS[i])
      {
        assert script[j].Use? ==> SlotOf(script[j].setting) == CREATE_SLOTS[j];
      }
    }
    CallField(b, script, CREATE_SLOTS, p.common, client, i);
  }

  /** Every field is the argument of its name; a node, being set last, replaces an account to stake to. */
  predicate CreatedStepwise(b: Backend, p: AccountCreate, fields: map<Slot, Setting>) {
    && Field(fields, KeySlot) == Given(GivenKey(b, p.key))
    && Field(fields, InitialBalanceSlot) == Given(GivenInitialBalance(p.initialBalance))
    && Field(fields, ReceiverSignatureSlot) == Given(GivenReceiverSignature(p.receiverSignatureRequired))
    && Field(fields, AutoRenewSlot) == Given(GivenAutoRenewPeriod(p.autoRenewPeriod))
    && Field(fields, AccountMemoSlot) == Given(GivenAccountMemo(p.memo))
    && Field(fields, MaxAssociationsSlot) == Given(GivenMaxAssociations(p.maxAutoTokenAssociations))
    && Field(fields, StakedAccountSlot)
       == (if p.stakedNodeId.Some? then None else Given(GivenAccount(b, p.stakedAccountId, Stake)))
    && Field(fields, StakedNodeSlot) == Given(GivenStakedNode(p.stakedNodeId))
    && Field(fields, DeclineRewardSlot) == Given(GivenDeclineReward(p.declineStakingReward))
    && Field(fields, AliasSlot) == Given(GivenAlias(p.alias))
  }

  lemma CreatedSteps(b: Backend, p: AccountCreate, client: Client)
    requires CallOn(b, CreateScript(b, p), p.common, client).fault.None?
    ensures CreatedStepwise(b, p, CallOn(b, CreateScript(b, p), p.common, client).state.settings)
  {
    var fields := CallOn(b, CreateScript(b, p), p.common, client).state.settings;
    forall i | 0 <= i < 10 && (i == 6 ==> p.stakedNodeId.None?)
      ensures Field(fields, CREATE_SLOTS[i]) == Given(CreateStep(b, p, i))
    {
      CreatedField(b, p, client, i);
    }
    if p.stakedNodeId.Some? {
      CreateSlots(b, p);
      NodeReplaces(b, CreateScript(b, p), CREATE_SLOTS, p.common, client, 6);
    }
    CreateTable(b, p, fields);
  }

  lemma CreateTable(b: Backend, p: AccountCreate, fields: map<Slot, Setting>)
    requires forall i | 0 <= i < 10 && (i == 6 ==> p.stakedNodeId.None?) ::
               Field(fields, CREATE_SLOTS[i]) == Given(CreateStep(b, p, i))
    requires p.stakedNodeId.Some? ==> Field(fields, StakedAccountSlot) == None
    ensures CreatedStepwise(b, p, fields)
  {
    assert CREATE_SLOTS[0] == KeySlot;
    assert CREATE_SLOTS[1] == InitialBalanceSlot;
    assert CREATE_SLOTS[2] == ReceiverSignatureSlot;
    assert CREATE_SLOTS[3] == AutoRenewSlot;
    assert CREATE_SLOTS[4] == AccountMemoSlot;
    assert CREATE_SLOTS[5] == MaxAssociationsSlot;
    assert CREATE_SLOTS[6] == StakedAccountSlot;
    assert CREATE_SLOTS[7] == StakedNodeSlot;
    assert CREATE_SLOTS[8] == DeclineRewardSlot;
    assert CREATE_SLOTS[9] == AliasSlot;
  }

  // updateAccount.

  const UPDATE_SLOTS: seq<Slot> :=
    [AccountIdSlot, KeySlot, AutoRenewSlot, ExpirationSlot, ReceiverSignatureSlot, AccountMemoSlot, MaxAssociationsSlot,
     StakedAccountSlot, StakedNodeSlot, DeclineRewardSlot]

  function UpdatePlace(slot: Slot): nat {
    match slot
    case AccountIdSlot => 0
    case KeySlot => 1
    case AutoRenewSlot => 2
    case ExpirationSlot => 3
    case ReceiverSignatureSlot => 4
    case AccountMemoSlot => 5
    case MaxAssociationsSlot => 6
    case StakedAccountSlot => 7
    case StakedNodeSlot => 8
    case DeclineRewardSlot => 9
    case _ => 10
  }

  lemma UpdateSlots(b: Backend, p: AccountUpdate)
    ensures OwnFields(UpdateScript(b, p), UPDATE_SLOTS)
    ensures forall slot | slot in UPDATE_SLOTS :: slot !in COMMON_SLOTS
  {
    assert forall i | 0 <= i < 10 :: UpdatePlace(UPDATE_SLOTS[i]) == i;
    assert forall slot | slot in COMMON_SLOTS :: UpdatePlace(slot) == 10;
    forall i | 0 <= i < 10
      ensures UpdateScript(b, p)[i].Use? ==> SlotOf(UpdateScript(b, p)[i].setting) == UPDATE_SLOTS[i]
    {
      UpdateSlotAt(b, p, i);
    }
  }

  lemma UpdateSlotAt(b: Backend, p: AccountUpdate, i: nat)
    requires i < 10
    ensures UpdateStep(b, p, i).Use? ==> SlotOf(UpdateStep(b, p, i).setting) == UPDATE_SLOTS[i]
  {
  }

  lemma UpdatedField(b: Backend, p: AccountUpdate, client: Client, i: nat)
    requires i < 10 && (i == 7 ==> p.stakedNodeId.None?)
    requires CallOn(b, UpdateScript(b, p), p.common, client).fault.None?
    ensures Field(CallOn(b, UpdateScript(b, p), p.common, client).state.settings, UPDATE_SLOTS[i])
         == Given(UpdateStep(b, p, i))
  {
    var script := UpdateScript(b, p);
    UpdateSlots(b, p);
    if IsStakingSlot(UPDATE_SLOTS[i]) {
      assert i == 7 || i == 8;
      assert script[8] == GivenStakedNode(p.stakedNodeId);
      forall j | i < j < 10
        ensures Leaves(script[j], UPDATE_SLOTS[i])
      {
        assert script[j].Use? ==> SlotOf(script[j].setting) == UPDATE_SLOTS[j];
      }
    }
    CallField(b, script, UPDATE_SLOTS, p.common, client, i);
  }

  /** Every field is the argument of its name; a node, being set last, replaces an account to stake to. */
  predicate UpdatedStepwise(b: Backend, p: AccountUpdate, fields: map<Slot, Setting>) {
    && Field(fields, AccountIdSlot) == Given(GivenAccount(b, p.accountId, Subject))
    && Field(fields, KeySlot) == Given(GivenKey(b, p.key))
    && Field(fields, AutoRenewSlot) == Given(GivenAutoRenewPeriod(p.autoRenewPeriod))
    && Field(fields, ExpirationSlot) == Given(GivenExpirationTime(p.expirationTime))
    && Field(fields, ReceiverSignatureSlot) == Given(GivenReceiverSignature(p.receiverSignatureRequired))
    && Field(fields, AccountMemoSlot) == Given(GivenAccountMemo(p.memo))
    && Field(fields, MaxAssociationsSlot) == Given(GivenMaxAssociations(p.maxAutoTokenAssociations))
    && Field(fields, StakedAccountSlot)
       == (if p.stakedNodeId.Some? then None else Given(GivenAccount(b, p.stakedAccountId, Stake)))
    && Field(fields, StakedNodeSlot) == Given(GivenStakedNode(p.stakedNodeId))
    && Field(fields, DeclineRewardSlot) == Given(GivenDeclineReward(p.declineStakingReward))
  }

  lemma UpdatedSteps(b: Backend, p: AccountUpdate, client: Client)
    requires CallOn(b, UpdateScript(b, p), p.common, client).fault.None?
    ensures UpdatedStepwise(b, p, CallOn(b, UpdateScript(b, p), p.common, client).state.settings)
  {
    var fields := CallOn(b, UpdateScript(b, p), p.common, client).state.settings;
    forall i | 0 <= i < 10 && (i == 7 ==> p.stakedNodeId.None?)
      ensures Field(fields, UPDATE_SLOTS[i]) == Given(UpdateStep(b, p, i))
    {
      UpdatedField(b, p, client, i);
    }
    if p.stakedNodeId.Some? {
      UpdateSlots(b, p);
      NodeReplaces(b, UpdateScript(b, p), UPDATE_SLOTS, p.common, client, 7);
    }
    UpdateTable(b, p, fields);
  }

  lemma UpdateTable(b: Backend, p: AccountUpdate, fields: map<Slot, Setting>)
    requires forall i | 0 <= i < 10 && (i == 7 ==> p.stakedNodeId.None?) ::
               Field(fields, UPDATE_SLOTS[i]) == Given(UpdateStep(b, p, i))
    requires p.stakedNodeId.Some? ==> Field(fields, StakedAccountSlot) == None
    ensures UpdatedStepwise(b, p, fields)
  {
    assert UPDATE_SLOTS[0] == AccountIdSlot;
    assert UPDATE_SLOTS[1] == KeySlot;
    assert UPDATE_SLOTS[2] == AutoRenewSlot;
    assert UPDATE_SLOTS[3] == ExpirationSlot;
    assert UPDATE_SLOTS[4] == ReceiverSignatureSlot;
    assert UPDATE_SLOTS[5] == AccountMemoSlot;
    assert UPDATE_SLOTS[6] == MaxAssociationsSlot;
    assert UPDATE_SLOTS[7] == StakedAccountSlot;
    assert UPDATE_SLOTS[8] == StakedNodeSlot;
    assert UPDATE_SLOTS[9] == DeclineRewardSlot;
  }

  // deleteAccount.

  predicate DeletedStepwise(b: Backend, p: AccountDelete, fields: map<Slot, Setting>) {
    && Field(fields, AccountIdSlot) == Given(GivenAccount(b, p.deleteAccountId, Subject))
    && Field(fields, TransferAccountSlot) == Given(GivenAccount(b, p.transferAccountId, Transfer))
  }

  const DELETE_SLOTS: seq<Slot> := [AccountIdSlot, TransferAccountSlot]

  lemma DeleteSlots(b: Backend, p: AccountDelete)
    ensures OwnFields(DeleteScript(b, p), DELETE_SLOTS)
    ensures DeleteScript(b, p)[0] == GivenAccount(b, p.deleteAccountId, Subject)
    ensures DeleteScript(b, p)[1] == GivenAccount(b, p.transferAccountId, Transfer)
  {
  }

  lemma DeletedSteps(b: Backend, p: AccountDelete, client: Client)
    requires CallOn(b, DeleteScript(b, p), p.common, client).fault.None?
    ensures DeletedStepwise(b, p, CallOn(b, DeleteScript(b, p), p.common, client).state.settings)
  {
    var script := DeleteScript(b, p);
    DeleteSlots(b, p);
    CallField(b, script, DELETE_SLOTS, p.common, client, 0);
    CallField(b, script, DELETE_SLOTS, p.common, client, 1);
  }

  lemma CommonOf(b: Backend, script: seq<Attempt>, slots: seq<Slot>, common: Option<CommonParams>, client: Client)
    requires OwnFields(script, slots) && forall slot | slot in slots :: slot !in COMMON_SLOTS
    ensures CallOn(b, script, common, client).fault.None? ==>
              CommonStepwise(common, CallOn(b, script, common, client).state.settings)
  {
    if common.Some? && CallOn(b, script, common, client).fault.None? {
      CommonSteps(b, script, slots, common.value, client);
    }
  }
}
