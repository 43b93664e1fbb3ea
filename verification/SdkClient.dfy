/**
 The account functions of src/tck/src/SdkClient.cc: they set what was given, fill out the common parameters, and execute.

 Each conditional setter of the source is an Attempt. A function's list of attempts, in source order, is its script.
 */
module SdkClient {
  import opened Wrappers
  import opened Json
  import opened Hex
  import opened HederaKeys
  import opened CommonTransactionParams
  import opened Transaction

  datatype AccountCreate = AccountCreate(
    key: Option<string>,
    initialBalance: Option<int64>,
    receiverSignatureRequired: Option<bool>,
    autoRenewPeriod: Option<int64>,
    memo: Option<string>,
    maxAutoTokenAssociations: Option<int32>,
    stakedAccountId: Option<string>,
    stakedNodeId: Option<int64>,
    declineStakingReward: Option<bool>,
    alias: Option<string>,
    common: Option<CommonParams>)

  datatype AccountUpdate = AccountUpdate(
    accountId: Option<string>,
    key: Option<string>,
    autoRenewPeriod: Option<int64>,
    expirationTime: Option<int64>,
    receiverSignatureRequired: Option<bool>,
    memo: Option<string>,
    maxAutoTokenAssociations: Option<int32>,
    stakedAccountId: Option<string>,
    stakedNodeId: Option<int64>,
    declineStakingReward: Option<bool>,
    common: Option<CommonParams>)

  datatype AccountDelete = AccountDelete(
    deleteAccountId: Option<string>,
    transferAccountId: Option<string>,
    common: Option<CommonParams>)

  /** An absent argument, an argument that converts to a setting, or one whose conversion throws. */
  datatype Attempt = Absent | Use(setting: Setting) | Throws(fault: TransactionFault)

  function GivenInitialBalance(value: Option<int64>): Attempt {
    if value.Some? then Use(InitialBalanceSetting(value.value)) else Absent
  }

  function GivenReceiverSignature(value: Option<bool>): Attempt {
    if value.Some? then Use(ReceiverSignatureSetting(value.value)) else Absent
  }

  function GivenAutoRenewPeriod(value: Option<int64>): Attempt {
    if value.Some? then Use(AutoRenewSetting(value.value)) else Absent
  }

  function GivenExpirationTime(value: Option<int64>): Attempt {
    if value.Some? then Use(ExpirationSetting(value.value)) else Absent
  }

  function GivenAccountMemo(value: Option<string>): Attempt {
    if value.Some? then Use(AccountMemoSetting(value.value)) else Absent
  }

  function GivenMaxAssociations(value: Option<int32>): Attempt {
    if value.Some? then Use(MaxAssociationsSetting(value.value)) else Absent
  }

  function GivenStakedNode(value: Option<int64>): Attempt {
    if value.Some? then Use(StakedNodeSetting(ToUint64(value.value))) else Absent
  }

  function GivenDeclineReward(value: Option<bool>): Attempt {
    if value.Some? then Use(DeclineRewardSetting(value.value)) else Absent
  }

  function GivenPayerId(value: Option<TransactionId>): Attempt {
    if value.Some? then Use(TransactionIdSetting(value.value)) else Absent
  }

  function GivenMaxFee(value: Option<int64>): Attempt {
    if value.Some? then Use(MaxFeeSetting(value.value)) else Absent
  }

  function GivenValidDuration(value: Option<int64>): Attempt {
    if value.Some? then Use(ValidDurationSetting(value.value)) else Absent
  }

  function GivenTransactionMemo(value: Option<string>): Attempt {
    if value.Some? then Use(TransactionMemoSetting(value.value)) else Absent
  }

  function GivenRegenerate(value: Option<bool>): Attempt {
    if value.Some? then Use(RegenerateSetting(value.value)) else Absent
  }

  function GivenKey(b: Backend, text: Option<string>): Attempt {
    if text.None? then Absent
    else
      match GetHederaKey(b, text.value)
      case Ok(key) => Use(KeySetting(key))
      case Err(fault) => Throws(BadArgument(fault.What()))
  }

  const BAD_ACCOUNT_TEXT: string := "Input entity ID string is malformed"
  const BAD_SIZE_TEXT: string := "Input EVM address string is not the correct size"
  const BAD_ADDRESS_TEXT: string := "Input EVM address is malformed"

  /** An argument that AccountId::fromString has to read. */
  function GivenAccount(b: Backend, text: Option<string>, role: Role): Attempt {
    if text.None? then Absent
    else
      match b.parseAccountId(text.value)
      case Some(account) => Use(AccountSetting(role, account))
      case None => Throws(BadArgument(BAD_ACCOUNT_TEXT))
  }

  /** What an account ID is given for. */
  datatype Role = Subject | Transfer | Stake

  function AccountSetting(role: Role, account: string): Setting {
    match role
    case Subject => AccountIdSetting(account)
    case Transfer => TransferAccountSetting(account)
    case Stake => StakedAccountSetting(account)
  }

  /** EvmAddress::fromString: twenty bytes in hex, after an optional 0x. */
  function GivenAlias(text: Option<string>): Attempt {
    if text.None? then Absent
    else
      var digits := if "0x" <= text.value then text.value[2..] else text.value;
      var bytes := HexToBytes(digits);
      if |digits| != 40 then Throws(BadArgument(BAD_SIZE_TEXT))
      else if bytes.None? then Throws(BadArgument(BAD_ADDRESS_TEXT))
      else Use(AliasSetting(bytes.value))
  }

  /** The conditional setters of createAccount, in order. */
  function CreateStep(b: Backend, p: AccountCreate, i: nat): Attempt {
    match i
    case 0 => GivenKey(b, p.key)
    case 1 => GivenInitialBalance(p.initialBalance)
    case 2 => GivenReceiverSignature(p.receiverSignatureRequired)
    case 3 => GivenAutoRenewPeriod(p.autoRenewPeriod)
    case 4 => GivenAccountMemo(p.memo)
    case 5 => GivenMaxAssociations(p.maxAutoTokenAssociations)
    case 6 => GivenAccount(b, p.stakedAccountId, Stake)
    case 7 => GivenStakedNode(p.stakedNodeId)
    case 8 => GivenDeclineReward(p.declineStakingReward)
    case _ => GivenAlias(p.alias)
  }

  function CreateScript(b: Backend, p: AccountCreate): seq<Attempt> {
    seq(10, i requires 0 <= i < 10 => CreateStep(b, p, i))
  }

  /** The conditional setters of updateAccount, in order. */
  function UpdateStep(b: Backend, p: AccountUpdate, i: nat): Attempt {
    match i
    case 0 => GivenAccount(b, p.accountId, Subject)
    case 1 => GivenKey(b, p.key)
    case 2 => GivenAutoRenewPeriod(p.autoRenewPeriod)
    case 3 => GivenExpirationTime(p.expirationTime)
    case 4 => GivenReceiverSignature(p.receiverSignatureRequired)
    case 5 => GivenAccountMemo(p.memo)
    case 6 => GivenMaxAssociations(p.maxAutoTokenAssociations)
    case 7 => GivenAccount(b, p.stakedAccountId, Stake)
    case 8 => GivenStakedNode(p.stakedNodeId)
    case _ => GivenDeclineReward(p.declineStakingReward)
  }

  function UpdateScript(b: Backend, p: AccountUpdate): seq<Attempt> {
    seq(10, i requires 0 <= i < 10 => UpdateStep(b, p, i))
  }

  function DeleteScript(b: Backend, p: AccountDelete): seq<Attempt> {
    [ GivenAccount(b, p.deleteAccountId, Subject),
      GivenAccount(b, p.transferAccountId, Transfer) ]
  }

  /** The setters of fillOutTransaction. */
  function CommonScript(p: CommonParams): seq<Attempt> {
    [ GivenPayerId(p.transactionId),
      GivenMaxFee(p.maxTransactionFee),
      GivenValidDuration(p.validTransactionDuration),
      GivenTransactionMemo(p.memo),
      GivenRegenerate(p.regenerateTransactionId) ]
  }

  // Running a script.

  function AttemptOn(st: TxState, a: Attempt): Run {
    match a
    case Absent => Run(st, None)
    case Use(setting) => SetOn(st, setting)
    case Throws(fault) => Run(st, Some(fault))
  }

  /** The script from its i-th attempt on; the first exception ends it. */
  function RunScript(st: TxState, script: seq<Attempt>, i: nat): Run
    requires i <= |script|
    decreases |script| - i
  {
    if i == |script| then Run(st, None)
    else
      var run := AttemptOn(st, script[i]);
      if run.fault.Some? then run else RunScript(run.state, script, i + 1)
  }

  function SignAllOn(b: Backend, st: TxState, signers: seq<PrivateKey>): Run
    decreases signers
  {
    if signers == [] then Run(st, None)
    else
      var run := SignOn(st, b.publicOf(signers[0]));
      if run.fault.Some? then run else SignAllOn(b, run.state, signers[1..])
  }

  /** fillOutTransaction: a list of signers, even an empty one, freezes the transaction. */
  function FillOutOn(b: Backend, st: TxState, p: CommonParams, client: Client): Run {
    var run := RunScript(st, CommonScript(p), 0);
    if run.fault.Some? || p.signers.None? then run
    else
      var frozen := FreezeOn(run.state, client);
      if frozen.fault.Some? then frozen else SignAllOn(b, frozen.state, p.signers.value)
  }

  /** A whole call: the script of its own setters, the common parameters if given, execution. */
  function CallOn(b: Backend, script: seq<Attempt>, common: Option<CommonParams>, client: Client): Run {
    var run := RunScript(BLANK, script, 0);
    if run.fault.Some? then run
    else
      var filled := if common.Some? then FillOutOn(b, run.state, common.value, client) else run;
      if filled.fault.Some? then filled else ExecuteOn(filled.state, client)
  }

  // The source's form.

  method MakeAttempt(tx: Transaction, a: Attempt) returns (fault: Option<TransactionFault>)
    modifies tx
    ensures Run(tx.State(), fault) == AttemptOn(old(tx.State()), a)
  {
    match a
    case Absent => fault := None;
    case Use(setting) => fault := tx.Set(setting);
    case Throws(f) => fault := Some(f);
  }

  /** After i conditional setters: either an exception has ended the call or the rest of the script is still to run. */
  ghost predicate Progress(st: TxState, script: seq<Attempt>, i: nat, run: Run)
    requires i <= |script|
  {
    RunScript(st, script, 0) == if run.fault.Some? then run else RunScript(run.state, script, i)
  }

  /** The i-th conditional setter of a script; it is not reached once an exception has been thrown. */
  method Setter(tx: Transaction, thrown: Option<TransactionFault>, a: Attempt,
                ghost st: TxState, ghost script: seq<Attempt>, ghost i: nat)
    returns (fault: Option<TransactionFault>)
    requires i < |script| && script[i] == a
    requires Progress(st, script, i, Run(tx.State(), thrown))
    modifies tx
    ensures Progress(st, script, i + 1, Run(tx.State(), fault))
  {
    if thrown.Some? {
      return thrown;
    }
    fault := MakeAttempt(tx, a);
  }

  method FillOutTransaction(b: Backend, tx: Transaction, p: CommonParams, client: Client)
    returns (fault: Option<TransactionFault>)
    modifies tx
    ensures Run(tx.State(), fault) == FillOutOn(b, old(tx.State()), p, client)
  {
    ghost var st, script := tx.State(), CommonScript(p);
    fault := Setter(tx, None, GivenPayerId(p.transactionId), st, script, 0);
    fault := Setter(tx, fault, GivenMaxFee(p.maxTransactionFee), st, script, 1);
    fault := Setter(tx, fault, GivenValidDuration(p.validTransactionDuration), st, script, 2);
    fault := Setter(tx, fault, GivenTransactionMemo(p.memo), st, script, 3);
    fault := Setter(tx, fault, GivenRegenerate(p.regenerateTransactionId), st, script, 4);
    if fault.Some? || p.signers.None? {
      return;
    }
    fault := tx.FreezeWith(client);
    if fault.Some? {
      return;
    }
    ghost var frozen := tx.State();
    var signers := p.signers.value;
    assert signers[0..] == signers;
    for i := 0 to |signers|
      invariant fault.None?
      invariant SignAllOn(b, frozen, signers) == SignAllOn(b, tx.State(), signers[i..])
    {
      assert signers[i..][1..] == signers[i + 1..];
      fault := tx.Sign(b.publicOf(signers[i]));
      if fault.Some? {
        return;
      }
    }
  }

  /** The end of every function: the common parameters, then execution. */
  method FillOutAndExecute(b: Backend, tx: Transaction, thrown: Option<TransactionFault>,
                           common: Option<CommonParams>, client: Client, ghost script: seq<Attempt>)
    returns (fault: Option<TransactionFault>)
    requires Run(tx.State(), thrown) == RunScript(BLANK, script, 0)
    modifies tx
    ensures Run(tx.State(), fault) == CallOn(b, script, common, client)
  {
    if thrown.Some? {
      return thrown;
    }
    if common.Some? {
      fault := FillOutTransaction(b, tx, common.value, client);
      if fault.Some? {
        return;
      }
    }
    fault := tx.Execute(client);
  }

  /** The three conditional staking setters, which createAccount and updateAccount share. */
  method SetStaking(b: Backend, tx: Transaction, thrown: Option<TransactionFault>,
                    account: Option<string>, node: Option<int64>, decline: Option<bool>,
                    ghost st: TxState, ghost script: seq<Attempt>, ghost i: nat)
    returns (fault: Option<TransactionFault>)
    requires i + 3 <= |script|
    requires script[i] == GivenAccount(b, account, Stake)
    requires script[i + 1] == GivenStakedNode(node) && script[i + 2] == GivenDeclineReward(decline)
    requires Progress(st, script, i, Run(tx.State(), thrown))
    modifies tx
    ensures Progress(st, script, i + 3, Run(tx.State(), fault))
  {
    fault := Setter(tx, thrown, GivenAccount(b, account, Stake), st, script, i);
    fault := Setter(tx, fault, GivenStakedNode(node), st, script, i + 1);
    fault := Setter(tx, fault, GivenDeclineReward(decline), st, script, i + 2);
  }

  /** The conditional setters of the memo and the associations and of staking, which both functions make in this order. */
  method SetLater(b: Backend, tx: Transaction, thrown: Option<TransactionFault>, memo: Option<string>,
                  associations: Option<int32>, account: Option<string>, node: Option<int64>, decline: Option<bool>,
                  ghost st: TxState, ghost script: seq<Attempt>, ghost i: nat)
    returns (fault: Option<TransactionFault>)
    requires i + 5 <= |script|
    requires script[i] == GivenAccountMemo(memo) && script[i + 1] == GivenMaxAssociations(associations)
    requires script[i + 2] == GivenAccount(b, account, Stake)
    requires script[i + 3] == GivenStakedNode(node) && script[i + 4] == GivenDeclineReward(decline)
    requires Progress(st, script, i, Run(tx.State(), thrown))
    modifies tx
    ensures Progress(st, script, i + 5, Run(tx.State(), fault))
  {
    fault := Setter(tx, thrown, GivenAccountMemo(memo), st, script, i);
    fault := Setter(tx, fault, GivenMaxAssociations(associations), st, script, i + 1);
    fault := SetStaking(b, tx, fault, account, node, decline, st, script, i + 2);
  }

  method CreateAccount(b: Backend, p: AccountCreate, client: Client)
    returns (tx: Transaction, fault: Option<TransactionFault>)
    ensures fresh(tx) && Run(tx.State(), fault) == CallOn(b, CreateScript(b, p), p.common, client)
  {
    tx := new Transaction();
    ghost var script := CreateScript(b, p);
    fault := Setter(tx, None, GivenKey(b, p.key), BLANK, script, 0);
    fault := Setter(tx, fault, GivenInitialBalance(p.initialBalance), BLANK, script, 1);
    fault := Setter(tx, fault, GivenReceiverSignature(p.receiverSignatureRequired), BLANK, script, 2);
    fault := Setter(tx, fault, GivenAutoRenewPeriod(p.autoRenewPeriod), BLANK, script, 3);
    fault := SetLater(b, tx, fault, p.memo, p.maxAutoTokenAssociations, p.stakedAccountId, p.stakedNodeId,
                      p.declineStakingReward, BLANK, script, 4);
    fault := Setter(tx, fault, GivenAlias(p.alias), BLANK, script, 9);
    fault := FillOutAndExecute(b, tx, fault, p.common, client, script);
  }

  method UpdateAccount(b: Backend, p: AccountUpdate, client: Client)
    returns (tx: Transaction, fault: Option<TransactionFault>)
    ensures fresh(tx) && Run(tx.State(), fault) == CallOn(b, UpdateScript(b, p), p.common, client)
  {
    tx := new Transaction();
    ghost var script := UpdateScript(b, p);
    fault := Setter(tx, None, GivenAccount(b, p.accountId, Subject), BLANK, script, 0);
    fault := Setter(tx, fault, GivenKey(b, p.key), BLANK, script, 1);
    fault := Setter(tx, fault, GivenAutoRenewPeriod(p.autoRenewPeriod), BLANK, script, 2);
    fault := Setter(tx, fault, GivenExpirationTime(p.expirationTime), BLANK, script, 3);
    fault := Setter(tx, fault, GivenReceiverSignature(p.receiverSignatureRequired), BLANK, script, 4);
    fault := SetLater(b, tx, fault, p.memo, p.maxAutoTokenAssociations, p.stakedAccountId, p.stakedNodeId,
                      p.declineStakingReward, BLANK, script, 5);
    fault := FillOutAndExecute(b, tx, fault, p.common, client, script);
  }

  method DeleteAccount(b: Backend, p: AccountDelete, client: Client)
    returns (tx: Transaction, fault: Option<TransactionFault>)
    ensures fresh(tx) && Run(tx.State(), fault) == CallOn(b, DeleteScript(b, p), p.common, client)
  {
    tx := new Transaction();
    ghost var script := DeleteScript(b, p);
    fault := Setter(tx, None, GivenAccount(b, p.deleteAccountId, Subject), BLANK, script, 0);
    fault := Setter(tx, fault, GivenAccount(b, p.transferAccountId, Transfer), BLANK, script, 1);
    fault := FillOutAndExecute(b, tx, fault, p.common, client, script);
  }
}
