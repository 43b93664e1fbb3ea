/**
 The editing protocol of an SDK transaction (src/sdk/main/src/Transaction.cc and the account transactions): setters
 until it is frozen, signatures afterwards.
 */
module Transaction {
  import opened Wrappers
  import opened Json
  import opened Hex
  import opened HederaKeys

  /** What a setter stores. */
  datatype Setting =
    | TransactionIdSetting(id: TransactionId)
    | MaxFeeSetting(tinybars: int64)
    | ValidDurationSetting(seconds: int64)
    | TransactionMemoSetting(text: string)
    | RegenerateSetting(flag: bool)
    | KeySetting(key: Key)
    | InitialBalanceSetting(tinybars: int64)
    | ReceiverSignatureSetting(flag: bool)
    | AutoRenewSetting(seconds: int64)
    | ExpirationSetting(seconds: int64)
    | AccountMemoSetting(text: string)
    | MaxAssociationsSetting(associations: int32)
    | StakedAccountSetting(account: string)
    | StakedNodeSetting(node: uint64)
    | DeclineRewardSetting(flag: bool)
    | AliasSetting(address: seq<byte>)
    | AccountIdSetting(account: string)
    | TransferAccountSetting(account: string)

  /** The field that a setting is stored in. */
  datatype Slot =
    | TransactionIdSlot | MaxFeeSlot | ValidDurationSlot | TransactionMemoSlot | RegenerateSlot | KeySlot
    | InitialBalanceSlot | ReceiverSignatureSlot | AutoRenewSlot | ExpirationSlot | AccountMemoSlot
    | MaxAssociationsSlot | StakedAccountSlot | StakedNodeSlot | DeclineRewardSlot | AliasSlot | AccountIdSlot
    | TransferAccountSlot

  function SlotOf(s: Setting): Slot {
    match s
    case TransactionIdSetting(_) => TransactionIdSlot
    case MaxFeeSetting(_) => MaxFeeSlot
    case ValidDurationSetting(_) => ValidDurationSlot
    case TransactionMemoSetting(_) => TransactionMemoSlot
    case RegenerateSetting(_) => RegenerateSlot
    case KeySetting(_) => KeySlot
    case InitialBalanceSetting(_) => InitialBalanceSlot
    case ReceiverSignatureSetting(_) => ReceiverSignatureSlot
    case AutoRenewSetting(_) => AutoRenewSlot
    case ExpirationSetting(_) => ExpirationSlot
    case AccountMemoSetting(_) => AccountMemoSlot
    case MaxAssociationsSetting(_) => MaxAssociationsSlot
    case StakedAccountSetting(_) => StakedAccountSlot
    case StakedNodeSetting(_) => StakedNodeSlot
    case DeclineRewardSetting(_) => DeclineRewardSlot
    case AliasSetting(_) => AliasSlot
    case AccountIdSetting(_) => AccountIdSlot
    case TransferAccountSetting(_) => TransferAccountSlot
  }

  /** A transaction stakes to an account or to a node: setting one resets the other. */
  function Resets(slot: Slot): set<Slot> {
    match slot
    case StakedAccountSlot => {StakedNodeSlot}
    case StakedNodeSlot => {StakedAccountSlot}
    case _ => {}
  }

  datatype Operator = Operator(account: string, key: PublicKey)

  /**
   What freezing and executing ask of the client; stamp is the rest of a transaction ID made now. A client that validates
   checksums has the accounts whose checksum, if they have one, is right for its ledger.
   */
  datatype Client = Client(operator: Option<Operator>, hasNetwork: bool, stamp: string, validated: Option<set<string>>)

  /** The exceptions of the protocol and of converting a setter's argument. */
  datatype TransactionFault =
    | Immutable  // a setter on a frozen transaction
    | NotFrozen  // a signature on one that is not
    | NoOperator
    | NoNetwork
    | BadChecksum
    | BadArgument(what: string)
  {
    /** All of them are exceptions that the server has no catch clause of its own for. */
    function What(): string {
      match this
      case Immutable => IMMUTABLE_TEXT
      case NotFrozen => NOT_FROZEN_TEXT
      case NoOperator => NO_OPERATOR_TEXT
      case NoNetwork => NO_NETWORK_TEXT
      case BadChecksum => BAD_CHECKSUM_TEXT
      case BadArgument(what) => what
    }
  }

  const IMMUTABLE_TEXT: string := "Transaction is immutable and cannot be edited"
  const NOT_FROZEN_TEXT: string := "Transaction must be frozen in order to sign."
  const NO_OPERATOR_TEXT: string := "Client operator has not been initialized and cannot freeze transaction."
  const NO_NETWORK_TEXT: string := "Client has not been initialized with a valid network."
  const BAD_CHECKSUM_TEXT: string := "The checksum is invalid"

  datatype Event = SetEvent(setting: Setting) | FreezeEvent | SignEvent(key: PublicKey) | SubmitEvent

  /** trace is the history of the calls that took effect. */
  datatype TxState = TxState(
    frozen: bool,
    settings: map<Slot, Setting>,
    signatories: seq<PublicKey>,
    trace: seq<Event>)

  const BLANK: TxState := TxState(false, map[], [], [])

  /** A state, and the exception that ended the calls that led to it. */
  datatype Run = Run(state: TxState, fault: Option<TransactionFault>)

  function Store(settings: map<Slot, Setting>, s: Setting): map<Slot, Setting> {
    (settings - Resets(SlotOf(s)))[SlotOf(s) := s]
  }

  function SetOn(st: TxState, s: Setting): Run {
    if st.frozen then Run(st, Some(Immutable))
    else Run(st.(settings := Store(st.settings, s), trace := st.trace + [SetEvent(s)]), None)
  }

  /** The settings after freezing has given the transaction an ID of the operator's, if it had none. */
  function WithId(settings: map<Slot, Setting>, client: Client): map<Slot, Setting> {
    if TransactionIdSlot in settings || client.operator.None? then settings
    else settings[TransactionIdSlot :=
                    TransactionIdSetting(TransactionId(client.operator.value.account, client.stamp))]
  }

  function FreezeOn(st: TxState, client: Client): Run {
    if st.frozen then Run(st, None)
    else if TransactionIdSlot !in st.settings && client.operator.None? then Run(st, Some(NoOperator))
    else
      var named := st.(settings := WithId(st.settings, client));
      if !client.hasNetwork then Run(named, Some(NoNetwork))
      else Run(named.(frozen := true, trace := st.trace + [FreezeEvent]), None)
  }

  /** A key that has signed already does not sign again. */
  function AddSignatory(signatories: seq<PublicKey>, key: PublicKey): seq<PublicKey> {
    if key in signatories then signatories else signatories + [key]
  }

  function SignOn(st: TxState, key: PublicKey): Run {
    if !st.frozen then Run(st, Some(NotFrozen))
    else Run(st.(signatories := AddSignatory(st.signatories, key), trace := st.trace + [SignEvent(key)]), None)
  }

  /** The payer's operator signs when a transaction is executed. */
  predicate OperatorPays(st: TxState, client: Client) {
    && client.operator.Some?
    && TransactionIdSlot in st.settings
    && st.settings[TransactionIdSlot].TransactionIdSetting?
    && st.settings[TransactionIdSlot].id.payer == client.operator.value.account
  }

  predicate IsBadAccount(s: Setting, valid: set<string>) {
    match s
    case StakedAccountSetting(account) => account !in valid
    case AccountIdSetting(account) => account !in valid
    case TransferAccountSetting(account) => account !in valid
    case _ => false
  }

  /** validateChecksums of the account transactions, if the client asks for it. */
  predicate FailsChecksum(settings: map<Slot, Setting>, client: Client) {
    client.validated.Some? && exists slot :: slot in settings && IsBadAccount(settings[slot], client.validated.value)
  }

  /** Executable::execute up to the submission: onExecute freezes, validates and signs for the operator. */
  function ExecuteOn(st: TxState, client: Client): Run {
    var run := FreezeOn(st, client);
    if run.fault.Some? then run
    else if FailsChecksum(run.state.settings, client) then Run(run.state, Some(BadChecksum))
    else
      var signed := if OperatorPays(run.state, client) then SignOn(run.state, client.operator.value.key) else run;
      Run(signed.state.(trace := signed.state.trace + [SubmitEvent]), signed.fault)
  }

  class Transaction {
    var frozen: bool
    var settings: map<Slot, Setting>
    var signatories: seq<PublicKey>
    ghost var trace: seq<Event>

    ghost function State(): TxState
      reads this
    {
      TxState(frozen, settings, signatories, trace)
    }

    constructor ()
      ensures State() == BLANK
    {
      frozen, settings, signatories, trace := false, map[], [], [];
    }

    method Set(s: Setting) returns (fault: Option<TransactionFault>)
      modifies this
      ensures Run(State(), fault) == SetOn(old(State()), s)
    {
      if frozen {
        return Some(Immutable);
      }
      settings := Store(settings, s);
      trace := trace + [SetEvent(s)];
      fault := None;
    }

    method FreezeWith(client: Client) returns (fault: Option<TransactionFault>)
      modifies this
      ensures Run(State(), fault) == FreezeOn(old(State()), client)
    {
      if frozen {
        return None;
      }
      if TransactionIdSlot !in settings {
        if client.operator.None? {
          return Some(NoOperator);
        }
        settings := settings[TransactionIdSlot :=
                               TransactionIdSetting(TransactionId(client.operator.value.account, client.stamp))];
      }
      if !client.hasNetwork {
        return Some(NoNetwork);
      }
      frozen := true;
      trace := trace + [FreezeEvent];
      fault := None;
    }

    method Sign(key: PublicKey) returns (fault: Option<TransactionFault>)
      modifies this
      ensures Run(State(), fault) == SignOn(old(State()), key)
    {
      if !frozen {
        return Some(NotFrozen);
      }
      if key !in signatories {
        signatories := signatories + [key];
      }
      trace := trace + [SignEvent(key)];
      fault := None;
    }

    method Execute(client: Client) returns (fault: Option<TransactionFault>)
      modifies this
      ensures Run(State(), fault) == ExecuteOn(old(State()), client)
    {
      fault := FreezeWith(client);
      if fault.Some? {
        return;
      }
      if FailsChecksum(settings, client) {
        return Some(BadChecksum);
      }
      if client.operator.Some? && TransactionIdSlot in settings &&
         settings[TransactionIdSlot].TransactionIdSetting? &&
         settings[TransactionIdSlot].id.payer == client.operator.value.account {
        fault := Sign(client.operator.value.key);
      }
      trace := trace + [SubmitEvent];
    }
  }
}
