/**
 The fields of a submitted transaction by value: each is the function's argument of its name, converted, or unset if there
 is none; and which argument ends the call because it cannot be read.
 */
module SdkValueProofs {
  import opened Wrappers
  import opened Json
  import opened Hex
  import opened HederaKeys
  import opened CommonTransactionParams
  import opened Transaction
  import opened SdkClient
  import opened SdkClientProofs
  import opened SdkFieldProofs

  // Texts that have to be read.

  /** The digits of an address, which may follow 0x. */
  function AddressDigits(text: string): string {
    if |text| >= 2 && text[0] == '0' && text[1] == 'x' then text[2..] else text
  }

  predicate IsAddressText(text: string) {
    |AddressDigits(text)| == 40 && IsHexText(AddressDigits(text))
  }

  predicate IsKeyText(b: Backend, text: string) {
    GetHederaKey(b, text).Ok?
  }

  predicate IsAccountText(b: Backend, text: string) {
    b.parseAccountId(text).Some?
  }

  // Fields.

  predicate HasKeyOf(b: Backend, fields: map<Slot, Setting>, text: Option<string>) {
    if text.None? then KeySlot !in fields
    else IsKeyText(b, text.value) && Field(fields, KeySlot) == Some(KeySetting(GetHederaKey(b, text.value).value))
  }

  /** The twenty bytes of the address. */
  predicate HasAliasOf(fields: map<Slot, Setting>, text: Option<string>) {
    if text.None? then AliasSlot !in fields
    else
      && IsAddressText(text.value)
      && AliasSlot in fields && fields[AliasSlot].AliasSetting?
      && |fields[AliasSlot].address| == 20
      && BytesToHex(fields[AliasSlot].address) == Upper(AddressDigits(text.value))
  }

  predicate HasStakedAccount(b: Backend, fields: map<Slot, Setting>, account: Option<string>, node: Option<int64>) {
    && (account.Some? ==> IsAccountText(b, account.value))
    && Field(fields, StakedAccountSlot)
       == (if account.None? || node.Some? then None else Some(StakedAccountSetting(b.parseAccountId(account.value).value)))
  }

  /** A negative number is one modulo 2^64. */
  predicate HasStakedNode(fields: map<Slot, Setting>, node: Option<int64>) {
    if node.None? then StakedNodeSlot !in fields
    else
      && StakedNodeSlot in fields && fields[StakedNodeSlot].StakedNodeSetting?
      && fields[StakedNodeSlot].node == if node.value >= 0 then node.value else node.value + 0x1_0000_0000_0000_0000
  }

  predicate HasAccountId(b: Backend, fields: map<Slot, Setting>, text: Option<string>) {
    if text.None? then AccountIdSlot !in fields
    else IsAccountText(b, text.value) && Field(fields, AccountIdSlot) == Some(AccountIdSetting(b.parseAccountId(text.value).value))
  }

  predicate HasTransferAccount(b: Backend, fields: map<Slot, Setting>, text: Option<string>) {
    if text.None? then TransferAccountSlot !in fields
    else
      && IsAccountText(b, text.value)
      && Field(fields, TransferAccountSlot) == Some(TransferAccountSetting(b.parseAccountId(text.value).value))
  }

  predicate IsCreated(b: Backend, p: AccountCreate, fields: map<Slot, Setting>) {
    && HasKeyOf(b, fields, p.key)
    && Field(fields, InitialBalanceSlot)
       == (if p.initialBalance.Some? then Some(InitialBalanceSetting(p.initialBalance.value)) else None)
    && Field(fields, ReceiverSignatureSlot)
       == (if p.receiverSignatureRequired.Some? then Some(ReceiverSignatureSetting(p.receiverSignatureRequired.value))
           else None)
    && Field(fields, AutoRenewSlot)
       == (if p.autoRenewPeriod.Some? then Some(AutoRenewSetting(p.autoRenewPeriod.value)) else None)
    && Field(fields, AccountMemoSlot) == (if p.memo.Some? then Some(AccountMemoSetting(p.memo.value)) else None)
    && Field(fields, MaxAssociationsSlot)
       == (if p.maxAutoTokenAssociations.Some? then Some(MaxAssociationsSetting(p.maxAutoTokenAssociations.value)) else None)
    && HasStakedAccount(b, fields, p.stakedAccountId, p.stakedNodeId)
    && HasStakedNode(fields, p.stakedNodeId)
    && Field(fields, DeclineRewardSlot)
       == (if p.declineStakingReward.Some? then Some(DeclineRewardSetting(p.declineStakingReward.value)) else None)
    && HasAliasOf(fields, p.alias)
  }

  predicate IsUpdated(b: Backend, p: AccountUpdate, fields: map<Slot, Setting>) {
    && HasAccountId(b, fields, p.accountId)
    && HasKeyOf(b, fields, p.key)
    && Field(fields, AutoRenewSlot)
       == (if p.autoRenewPeriod.Some? then Some(AutoRenewSetting(p.autoRenewPeriod.value)) else None)
    && Field(fields, ExpirationSlot)
       == (if p.expirationTime.Some? then Some(ExpirationSetting(p.expirationTime.value)) else None)
    && Field(fields, ReceiverSignatureSlot)
       == (if p.receiverSignatureRequired.Some? then Some(ReceiverSignatureSetting(p.receiverSignatureRequired.value))
           else None)
    && Field(fields, AccountMemoSlot) == (if p.memo.Some? then Some(AccountMemoSetting(p.memo.value)) else None)
    && Field(fields, MaxAssociationsSlot)
       == (if p.maxAutoTokenAssociations.Some? then Some(MaxAssociationsSetting(p.maxAutoTokenAssociations.value)) else None)
    && HasStakedAccount(b, fields, p.stakedAccountId, p.stakedNodeId)
    && HasStakedNode(fields, p.stakedNodeId)
    && Field(fields, DeclineRewardSlot)
       == (if p.declineStakingReward.Some? then Some(DeclineRewardSetting(p.declineStakingReward.value)) else None)
  }

  predicate IsDeleted(b: Backend, p: AccountDelete, fields: map<Slot, Setting>) {
    HasAccountId(b, fields, p.deleteAccountId) && HasTransferAccount(b, fields, p.transferAccountId)
  }

  predicate HasCommon(common: Option<CommonParams>, fields: map<Slot, Setting>) {
    common.Some? ==>
      var p := common.value;
      && Field(fields, MaxFeeSlot) == (if p.maxTransactionFee.Some? then Some(MaxFeeSetting(p.maxTransactionFee.value)) else None)
      && Field(fields, ValidDurationSlot)
         == (if p.validTransactionDuration.Some? then Some(ValidDurationSetting(p.validTransactionDuration.value)) else None)
      && Field(fields, TransactionMemoSlot) == (if p.memo.Some? then Some(TransactionMemoSetting(p.memo.value)) else None)
      && Field(fields, RegenerateSlot)
         == (if p.regenerateTransactionId.Some? then Some(RegenerateSetting(p.regenerateTransactionId.value)) else None)
      && (p.transactionId.Some? ==> Field(fields, TransactionIdSlot) == Some(TransactionIdSetting(p.transactionId.value)))
  }

  // What the setters were given.

  lemma {:induction false} NothingThrown(script: seq<Attempt>)
    requires FirstThrow(script).None?
    ensures forall i | 0 <= i < |script| :: !script[i].Throws?
  {
    if script != [] {
      NothingThrown(script[1..]);
      assert forall i | 0 < i < |script| :: script[i] == script[1..][i - 1];
    }
  }

  lemma OwnNotThrown(b: Backend, script: seq<Attempt>, common: Option<CommonParams>, client: Client)
    requires CallOn(b, script, common, client).fault.None?
    ensures forall i | 0 <= i < |script| :: !script[i].Throws?
  {
    CallSettings(b, script, common, client);
    NothingThrown(WholeScript(script, common));
    assert forall i | 0 <= i < |script| :: WholeScript(script, common)[i] == script[i];
  }

  lemma KeyByValue(b: Backend, fields: map<Slot, Setting>, text: Option<string>)
    requires Field(fields, KeySlot) == Given(GivenKey(b, text)) && !GivenKey(b, text).Throws?
    ensures HasKeyOf(b, fields, text)
  {
  }

  lemma AliasByValue(fields: map<Slot, Setting>, text: Option<string>)
    requires Field(fields, AliasSlot) == Given(GivenAlias(text)) && !GivenAlias(text).Throws?
    ensures HasAliasOf(fields, text)
  {
    if text.Some? {
      AliasReads(text.value);
    }
  }

  /** An alias is read exactly if it is the text of an address. */
  lemma AliasReads(text: string)
    ensures GivenAlias(Some(text)).Throws? <==> !IsAddressText(text)
    ensures IsAddressText(text) ==>
              var alias := GivenAlias(Some(text));
              && alias.Use? && alias.setting.AliasSetting?
              && |alias.setting.address| == 20 && BytesToHex(alias.setting.address) == Upper(AddressDigits(text))
  {
    assert AddressDigits(text) == if "0x" <= text then text[2..] else text;
    HexExactly(AddressDigits(text));
    if IsAddressText(text) {
      HexLength(HexToBytes(AddressDigits(text)).value);
    }
  }

  lemma CreatedByValue(b: Backend, p: AccountCreate, fields: map<Slot, Setting>)
    requires CreatedStepwise(b, p, fields)
    requires !GivenKey(b, p.key).Throws? && !GivenAccount(b, p.stakedAccountId, Stake).Throws? && !GivenAlias(p.alias).Throws?
    ensures IsCreated(b, p, fields)
  {
    KeyByValue(b, fields, p.key);
    AliasByValue(fields, p.alias);
  }

  lemma UpdatedByValue(b: Backend, p: AccountUpdate, fields: map<Slot, Setting>)
    requires UpdatedStepwise(b, p, fields)
    requires !GivenAccount(b, p.accountId, Subject).Throws? && !GivenKey(b, p.key).Throws?
    requires !GivenAccount(b, p.stakedAccountId, Stake).Throws?
    ensures IsUpdated(b, p, fields)
  {
    KeyByValue(b, fields, p.key);
  }

  lemma CommonByValue(common: Option<CommonParams>, fields: map<Slot, Setting>)
    requires CommonStepwise(common, fields)
    ensures HasCommon(common, fields)
  {
  }

  /** createAccount: a node to stake to, being set last, replaces an account. */
  lemma CreatedFields(b: Backend, p: AccountCreate, client: Client)
    requires CallOn(b, CreateScript(b, p), p.common, client).fault.None?
    ensures IsCreated(b, p, CallOn(b, CreateScript(b, p), p.common, client).state.settings)
  {
    var script := CreateScript(b, p);
    CreatedSteps(b, p, client);
    OwnNotThrown(b, script, p.common, client);
    assert script[0] == GivenKey(b, p.key) && script[6] == GivenAccount(b, p.stakedAccountId, Stake);
    assert script[9] == GivenAlias(p.alias);
    CreatedByValue(b, p, CallOn(b, script, p.common, client).state.settings);
  }

  lemma UpdatedFields(b: Backend, p: AccountUpdate, client: Client)
    requires CallOn(b, UpdateScript(b, p), p.common, client).fault.None?
    ensures IsUpdated(b, p, CallOn(b, UpdateScript(b, p), p.common, client).state.settings)
  {
    var script := UpdateScript(b, p);
    UpdatedSteps(b, p, client);
    OwnNotThrown(b, script, p.common, client);
    assert script[0] == GivenAccount(b, p.accountId, Subject) && script[1] == GivenKey(b, p.key);
    assert script[7] == GivenAccount(b, p.stakedAccountId, Stake);
    UpdatedByValue(b, p, CallOn(b, script, p.common, client).state.settings);
  }

  lemma DeletedFields(b: Backend, p: AccountDelete, client: Client)
    requires CallOn(b, DeleteScript(b, p), p.common, client).fault.None?
    ensures IsDeleted(b, p, CallOn(b, DeleteScript(b, p), p.common, client).state.settings)
  {
    var script := DeleteScript(b, p);
    DeletedSteps(b, p, client);
    OwnNotThrown(b, script, p.common, client);
    assert script[0] == GivenAccount(b, p.deleteAccountId, Subject);
    assert script[1] == GivenAccount(b, p.transferAccountId, Transfer);
  }

  /** The common parameters, in every call. */
  lemma CommonFieldsKept(b: Backend, script: seq<Attempt>, slots: seq<Slot>, common: Option<CommonParams>, client: Client)
    requires OwnFields(script, slots) && forall slot | slot in slots :: slot !in COMMON_SLOTS
    ensures CallOn(b, script, common, client).fault.None? ==> HasCommon(common, CallOn(b, script, common, client).state.settings)
  {
    CommonOf(b, script, slots, common, client);
    if CallOn(b, script, common, client).fault.None? {
      CommonByValue(common, CallOn(b, script, common, client).state.settings);
    }
  }

  // Which argument ends a call.

  lemma {:induction false} FirstThrowAt(script: seq<Attempt>, i: nat)
    requires i < |script| && script[i].Throws? && forall k | 0 <= k < i :: !script[k].Throws?
    ensures FirstThrow(script) == Some(script[i].fault)
  {
    if i > 0 {
      assert !script[0].Throws? && script[1..][i - 1] == script[i];
      assert forall k | 0 <= k < i - 1 :: script[1..][k] == script[k + 1];
      FirstThrowAt(script[1..], i - 1);
    }
  }

  lemma {:induction false} NoThrow(script: seq<Attempt>)
    requires forall i | 0 <= i < |script| :: !script[i].Throws?
    ensures FirstThrow(script).None?
  {
    if script != [] {
      assert forall i | 0 <= i < |script| - 1 :: script[1..][i] == script[i + 1];
      NoThrow(script[1..]);
    }
  }

  /** The exceptions of texts that cannot be read. */
  function KeyFault(b: Backend, text: Option<string>): Option<TransactionFault> {
    if text.Some? && GetHederaKey(b, text.value).Err? then Some(BadArgument(GetHederaKey(b, text.value).error.What())) else None
  }

  function AccountFault(b: Backend, text: Option<string>): Option<TransactionFault> {
    if text.Some? && !IsAccountText(b, text.value) then Some(BadArgument(BAD_ACCOUNT_TEXT)) else None
  }

  function AliasFault(text: Option<string>): Option<TransactionFault> {
    if text.Some? && !IsAddressText(text.value) then
      Some(BadArgument(if |AddressDigits(text.value)| == 40 then BAD_ADDRESS_TEXT else BAD_SIZE_TEXT))
    else None
  }

  function FirstOf(faults: seq<Option<TransactionFault>>): Option<TransactionFault> {
    if faults == [] then None else if faults[0].Some? then faults[0] else FirstOf(faults[1..])
  }

  lemma ThrowsAre(b: Backend)
    ensures forall text :: GivenKey(b, text).Throws? <==> KeyFault(b, text).Some?
    ensures forall text :: GivenKey(b, text).Throws? ==> KeyFault(b, text) == Some(GivenKey(b, text).fault)
    ensures forall text, role :: GivenAccount(b, text, role).Throws? <==> AccountFault(b, text).Some?
    ensures forall text, role ::
              GivenAccount(b, text, role).Throws? ==> AccountFault(b, text) == Some(GivenAccount(b, text, role).fault)
  {
  }

  lemma AliasThrows(text: Option<string>)
    ensures GivenAlias(text).Throws? <==> AliasFault(text).Some?
    ensures GivenAlias(text).Throws? ==> AliasFault(text) == Some(GivenAlias(text).fault)
  {
    if text.Some? {
      AliasReads(text.value);
      assert AddressDigits(text.value) == if "0x" <= text.value then text.value[2..] else text.value;
    }
  }

  /** A script of which only some attempts can throw, at the given places, throws what the first of them does. */
  lemma ThrowsFirst(script: seq<Attempt>, places: seq<nat>, faults: seq<Option<TransactionFault>>)
    requires |places| == |faults|
    requires forall i | 0 <= i < |places| :: ThrowsAsSaid(script, places[i], faults[i])
    requires forall i, j | 0 <= i < j < |places| :: places[i] < places[j]
    requires forall k | 0 <= k < |script| :: k in places || !script[k].Throws?
    ensures FirstThrow(script) == FirstOf(faults)
  {
    FirstOfMeaning(faults);
    if FirstOf(faults).Some? {
      var i: nat :| IsFirst(faults, i) && FirstOf(faults) == faults[i];
      forall k | 0 <= k < places[i]
        ensures !script[k].Throws?
      {
        if k in places {
          var m :| 0 <= m < |places| && places[m] == k;
          assert m < i && ThrowsAsSaid(script, places[m], faults[m]);
        }
      }
      assert ThrowsAsSaid(script, places[i], faults[i]);
      FirstThrowAt(script, places[i]);
    } else {
      forall k | 0 <= k < |script|
        ensures !script[k].Throws?
      {
        if k in places {
          var m :| 0 <= m < |places| && places[m] == k;
          assert ThrowsAsSaid(script, places[m], faults[m]);
        }
      }
      NoThrow(script);
    }
  }

  predicate ThrowsAsSaid(script: seq<Attempt>, place: nat, fault: Option<TransactionFault>) {
    && place < |script|
    && (script[place].Throws? <==> fault.Some?)
    && (script[place].Throws? ==> fault == Some(script[place].fault))
  }

  /** The first of them. */
  predicate IsFirst(faults: seq<Option<TransactionFault>>, i: nat) {
    i < |faults| && faults[i].Some? && forall k | 0 <= k < i :: faults[k].None?
  }

  lemma {:induction false} FirstOfMeaning(faults: seq<Option<TransactionFault>>)
    ensures if FirstOf(faults).None? then forall i | 0 <= i < |faults| :: faults[i].None?
            else exists i: nat :: IsFirst(faults, i) && FirstOf(faults) == faults[i]
  {
    if faults != [] {
      if faults[0].Some? {
        assert IsFirst(faults, 0);
      } else {
        FirstOfMeaning(faults[1..]);
        assert forall i | 0 < i < |faults| :: faults[i] == faults[1..][i - 1];
        if FirstOf(faults).Some? {
          var i: nat :| IsFirst(faults[1..], i) && FirstOf(faults) == faults[1..][i];
          assert IsFirst(faults, i + 1);
        }
      }
    }
  }

  /** What an exception of its arguments makes of a call. */
  ghost predicate EndsAtArgument(run: Run, thrown: Option<TransactionFault>) {
    if thrown.Some? then run.fault == thrown && !run.state.frozen
    else run.fault.Some? ==> !run.fault.value.BadArgument?
  }

  lemma ArgumentsEnd(b: Backend, script: seq<Attempt>, common: Option<CommonParams>, client: Client)
    ensures EndsAtArgument(CallOn(b, script, common, client), FirstThrow(WholeScript(script, common)))
  {
    CallMeaning(b, script, common, client);
  }

  lemma CreateThrowsAt(b: Backend, p: AccountCreate)
    ensures var whole := WholeScript(CreateScript(b, p), p.common);
            && ThrowsAsSaid(whole, 0, KeyFault(b, p.key))
            && ThrowsAsSaid(whole, 6, AccountFault(b, p.stakedAccountId))
            && ThrowsAsSaid(whole, 9, AliasFault(p.alias))
            && forall k | 0 <= k < |whole| :: k in [0, 6, 9] || !whole[k].Throws?
  {
    var whole := WholeScript(CreateScript(b, p), p.common);
    ThrowsAre(b);
    AliasThrows(p.alias);
    assert whole[0] == GivenKey(b, p.key) && whole[6] == GivenAccount(b, p.stakedAccountId, Stake);
    assert whole[9] == GivenAlias(p.alias);
    forall k | 0 <= k < |whole|
      ensures k in [0, 6, 9] || !whole[k].Throws?
    {
      if k < 10 && k != 0 && k != 6 && k != 9 {
        CreateOthers(b, p, k);
        assert whole[k] == CreateStep(b, p, k);
      }
    }
  }

  lemma CreateOthers(b: Backend, p: AccountCreate, k: nat)
    requires k < 10 && k != 0 && k != 6 && k != 9
    ensures !CreateStep(b, p, k).Throws?
  {
  }

  /** createAccount ends at the first of its key, its account to stake to and its alias that cannot be read, and only there. */
  lemma CreateThrows(b: Backend, p: AccountCreate, client: Client)
    ensures EndsAtArgument(CallOn(b, CreateScript(b, p), p.common, client),
                           FirstOf([KeyFault(b, p.key), AccountFault(b, p.stakedAccountId), AliasFault(p.alias)]))
  {
    var whole := WholeScript(CreateScript(b, p), p.common);
    CreateThrowsAt(b, p);
    ThrowsFirst(whole, [0, 6, 9], [KeyFault(b, p.key), AccountFault(b, p.stakedAccountId), AliasFault(p.alias)]);
    ArgumentsEnd(b, CreateScript(b, p), p.common, client);
  }

  /** updateAccount ends at the first of its account, its key and its account to stake to that cannot be read. */
  lemma UpdateThrows(b: Backend, p: AccountUpdate, client: Client)
    ensures EndsAtArgument(CallOn(b, UpdateScript(b, p), p.common, client),
                           FirstOf([AccountFault(b, p.accountId), KeyFault(b, p.key), AccountFault(b, p.stakedAccountId)]))
  {
    var whole := WholeScript(UpdateScript(b, p), p.common);
    ThrowsAre(b);
    assert whole[0] == GivenAccount(b, p.accountId, Subject) && whole[1] == GivenKey(b, p.key);
    assert whole[7] == GivenAccount(b, p.stakedAccountId, Stake);
    forall k | 0 <= k < |whole|
      ensures k in [0, 1, 7] || !whole[k].Throws?
    {
      if k < 10 {
        assert whole[k] == UpdateStep(b, p, k);
      }
    }
    ThrowsFirst(whole, [0, 1, 7], [AccountFault(b, p.accountId), KeyFault(b, p.key), AccountFault(b, p.stakedAccountId)]);
    ArgumentsEnd(b, UpdateScript(b, p), p.common, client);
  }

  /** deleteAccount ends at the first of its two accounts that cannot be read. */
  lemma DeleteThrows(b: Backend, p: AccountDelete, client: Client)
    ensures EndsAtArgument(CallOn(b, DeleteScript(b, p), p.common, client),
                           FirstOf([AccountFault(b, p.deleteAccountId), AccountFault(b, p.transferAccountId)]))
  {
    var whole := WholeScript(DeleteScript(b, p), p.common);
    ThrowsAre(b);
    ThrowsFirst(whole, [0, 1], [AccountFault(b, p.deleteAccountId), AccountFault(b, p.transferAccountId)]);
    ArgumentsEnd(b, DeleteScript(b, p), p.common, client);
  }

  // The payer, and checksums.

  /** The ID that a submitted transaction has: the given one, or a new one of the client's operator. */
  function IdOf(common: Option<CommonParams>, client: Client): TransactionId
    requires (common.Some? && common.value.transactionId.Some?) || client.operator.Some?
  {
    if common.Some? && common.value.transactionId.Some? then common.value.transactionId.value
    else TransactionId(client.operator.value.account, client.stamp)
  }

  /** The settings when the last setter has run hold an ID exactly if one is given. */
  lemma IdGiven(script: seq<Attempt>, slots: seq<Slot>, common: Option<CommonParams>)
    requires OwnFields(script, slots) && forall slot | slot in slots :: slot !in COMMON_SLOTS
    requires FirstThrow(WholeScript(script, common)).None?
    ensures Field(StoreAll(map[], Settings(WholeScript(script, common))), TransactionIdSlot)
         == if common.Some? && common.value.transactionId.Some? then
              Some(TransactionIdSetting(common.value.transactionId.value))
            else None
  {
    var whole := WholeScript(script, common);
    OwnCommonFields(script, slots, common);
    if common.Some? {
      var n := |script|;
      assert WholeSlots(slots, common)[n] == TransactionIdSlot && whole[n] == GivenPayerId(common.value.transactionId);
      FieldAt(whole, WholeSlots(slots, common), n);
    } else {
      assert TransactionIdSlot in COMMON_SLOTS;
      forall a | a in whole && a.Use?
        ensures SlotOf(a.setting) != TransactionIdSlot
      {
        var i :| 0 <= i < |whole| && whole[i] == a;
        assert slots[i] in slots;
      }
      StaysEmpty(map[], whole, TransactionIdSlot);
    }
  }

  /**
   Whose ID a submitted transaction has, and who signs it at execution: the client's operator exactly if the payer of that
   ID is the operator's account, after the given signers and right before the submission.
   */
  lemma PayerSigns(b: Backend, script: seq<Attempt>, slots: seq<Slot>, common: Option<CommonParams>, client: Client)
    requires OwnFields(script, slots) && forall slot | slot in slots :: slot !in COMMON_SLOTS
    requires CallOn(b, script, common, client).fault.None?
    ensures (common.Some? && common.value.transactionId.Some?) || client.operator.Some?
    ensures var run, id := CallOn(b, script, common, client), IdOf(common, client);
            var pays := client.operator.Some? && client.operator.value.account == id.payer;
            && Field(run.state.settings, TransactionIdSlot) == Some(TransactionIdSetting(id))
            && run.state.trace == SetEvents(Settings(WholeScript(script, common))) + [FreezeEvent]
                                  + SignEvents(b, SignersOf(common))
                                  + (if pays then [SignEvent(client.operator.value.key)] else []) + [SubmitEvent]
            && (pays ==> client.operator.value.key in run.state.signatories)
  {
    CallMeaning(b, script, common, client);
    IdGiven(script, slots, common);
  }

  /** Every field holds a setting of its own. */
  predicate Honest(settings: map<Slot, Setting>) {
    forall slot | slot in settings :: SlotOf(settings[slot]) == slot
  }

  lemma {:induction false} FieldsHonest(settings: map<Slot, Setting>, list: seq<Setting>)
    requires Honest(settings)
    ensures Honest(StoreAll(settings, list))
    decreases list
  {
    if list != [] {
      assert Honest(Store(settings, list[0]));
      FieldsHonest(Store(settings, list[0]), list[1..]);
    }
  }

  const ACCOUNT_SLOTS: set<Slot> := {StakedAccountSlot, AccountIdSlot, TransferAccountSlot}

  /** A client that validates checksums rejects a transaction exactly for an account in one of its three account fields. */
  lemma ChecksumsExactly(settings: map<Slot, Setting>, client: Client)
    requires Honest(settings)
    ensures FailsChecksum(settings, client) <==>
            && client.validated.Some?
            && exists slot | slot in ACCOUNT_SLOTS && slot in settings :: AccountIn(settings[slot]) !in client.validated.value
  {
  }

  function AccountIn(s: Setting): string {
    if s.StakedAccountSetting? || s.AccountIdSetting? || s.TransferAccountSetting? then s.account else ""
  }

  /** The accounts that a call has set are rejected exactly if its transaction was frozen and not submitted. */
  lemma ChecksumsDecide(b: Backend, script: seq<Attempt>, common: Option<CommonParams>, client: Client)
    requires FirstThrow(WholeScript(script, common)).None?
    ensures var run := CallOn(b, script, common, client);
            && Honest(run.state.settings)
            && (run.fault.None? ==> run.state.frozen && !FailsChecksum(run.state.settings, client))
            && (run.fault == Some(BadChecksum) <==> run.state.frozen && FailsChecksum(run.state.settings, client))
  {
    CallMeaning(b, script, common, client);
    var last := LastSet(script, common).settings;
    FieldsHonest(map[], Settings(WholeScript(script, common)));
    assert Honest(WithId(last, client));
  }

  /** What a setter does to the fields: its own is set, and of the two to stake to the other one is unset. */
  lemma StoreMeaning(settings: map<Slot, Setting>, s: Setting, slot: Slot)
    ensures Field(Store(settings, s), slot)
         == if slot == SlotOf(s) then Some(s)
            else if (s.StakedAccountSetting? && slot == StakedNodeSlot) || (s.StakedNodeSetting? && slot == StakedAccountSlot)
            then None
            else Field(settings, slot)
  {
  }
}
