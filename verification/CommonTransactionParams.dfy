/** The parameters common to all transactions and their JSON form (src/tck/include/CommonTransactionParams.h). */
module CommonTransactionParams {
  import opened Wrappers
  import opened Json
  import opened JsonRpcException
  import opened HederaKeys

  datatype CommonParams = CommonParams(
    transactionId: Option<TransactionId>,
    maxTransactionFee: Option<int64>,
    validTransactionDuration: Option<int64>,
    memo: Option<string>,
    regenerateTransactionId: Option<bool>,
    signers: Option<seq<PrivateKey>>)

  const NO_PARAMS: CommonParams := CommonParams(None, None, None, None, None, None)

  const TRANSACTION_ID_NOT_STRING_TEXT: string := "invalid parameters: transactionId should be a string"
  const TRANSACTION_ID_MALFORMED_TEXT: string := "Input transaction ID string is malformed"
  const FEE_NOT_INTEGER_TEXT: string := "invalid parameters: maxTransactionFee should be an integer"
  const DURATION_NOT_INTEGER_TEXT: string := "invalid parameters: validTransactionDuration should be an integer"
  const MEMO_NOT_STRING_TEXT: string := "invalid parameters: memo should be a string"
  const REGENERATE_NOT_BOOLEAN_TEXT: string := "invalid parameters: regenerateTransactionId should be a boolean"
  const SIGNERS_NOT_LIST_TEXT: string := "invalid parameters: signers should be a list"
  const SIGNER_NOT_STRING_TEXT: string := "invalid parameters: key in signers list is not a string"
  const SIGNER_NOT_KEY_TEXT: string := "Key type cannot be determined from input DER-encoded byte array"

  /** The exceptions that can leave from_json. */
  datatype ParamsFault =
    | TransactionIdNotString
    | TransactionIdMalformed
    | FeeNotInteger
    | DurationNotInteger
    | MemoNotString
    | RegenerateNotBoolean
    | SignersNotList
    | SignerNotString
    | SignerNotKey
  {
    function ToError(): Error {
      match this
      case TransactionIdNotString => Plain(INVALID_PARAMS, TRANSACTION_ID_NOT_STRING_TEXT)
      case TransactionIdMalformed => Standard(TRANSACTION_ID_MALFORMED_TEXT)
      case FeeNotInteger => Plain(INVALID_PARAMS, FEE_NOT_INTEGER_TEXT)
      case DurationNotInteger => Plain(INVALID_PARAMS, DURATION_NOT_INTEGER_TEXT)
      case MemoNotString => Plain(INVALID_PARAMS, MEMO_NOT_STRING_TEXT)
      case RegenerateNotBoolean => Plain(INVALID_PARAMS, REGENERATE_NOT_BOOLEAN_TEXT)
      case SignersNotList => Plain(INVALID_PARAMS, SIGNERS_NOT_LIST_TEXT)
      case SignerNotString => Plain(INVALID_PARAMS, SIGNER_NOT_STRING_TEXT)
      case SignerNotKey => Standard(SIGNER_NOT_KEY_TEXT)
    }
  }

  // Specification of the serializer.

  const MEMBERS: set<string> :=
    {"transactionId", "maxTransactionFee", "validTransactionDuration", "memo", "regenerateTransactionId", "signers"}

  /** The value written for a member, if any; a list of signers is pushed one by one, so an empty one leaves nothing. */
  function MemberOf(b: Backend, p: CommonParams, key: string): Option<Json> {
    if key == "transactionId" && p.transactionId.Some? then Some(Str(b.formatTransactionId(p.transactionId.value)))
    else if key == "maxTransactionFee" && p.maxTransactionFee.Some? then Some(Int(p.maxTransactionFee.value))
    else if key == "validTransactionDuration" && p.validTransactionDuration.Some? then
      Some(Int(p.validTransactionDuration.value))
    else if key == "memo" && p.memo.Some? then Some(Str(p.memo.value))
    else if key == "regenerateTransactionId" && p.regenerateTransactionId.Some? then
      Some(Bool(p.regenerateTransactionId.value))
    else if key == "signers" && p.signers.Some? && p.signers.value != [] then Some(Arr(SignerTexts(p.signers.value)))
    else None
  }

  function SignerTexts(signers: seq<PrivateKey>): (items: seq<Json>)
    ensures |items| == |signers|
  {
    if signers == [] then [] else [Str(PrivateToStringDer(signers[0]))] + SignerTexts(signers[1..])
  }

  function Members(b: Backend, p: CommonParams, keys: set<string>): map<string, Json> {
    map key | key in keys && MemberOf(b, p, key).Some? :: MemberOf(b, p, key).value
  }

  /** Without any member nothing is ever assigned and the JSON stays null. */
  function ToJson(b: Backend, p: CommonParams): Json {
    var members := Members(b, p, MEMBERS);
    if members == map[] then Null else Obj(members)
  }

  function ReadTransactionId(b: Backend, j: Json): Result<Option<TransactionId>, ParamsFault> {
    if !HasKey(j, "transactionId") then Ok(None)
    else if !j.members["transactionId"].Str? then Err(TransactionIdNotString)
    else
      match b.parseTransactionId(j.members["transactionId"].text)
      case Some(id) => Ok(Some(id))
      case None => Err(TransactionIdMalformed)
  }

  function ReadInteger(j: Json, key: string, fault: ParamsFault): Result<Option<int64>, ParamsFault> {
    if !HasKey(j, key) then Ok(None)
    else if !IsNumberInteger(j.members[key]) then Err(fault)
    else Ok(Some(ToInt64(IntegerOf(j.members[key]))))
  }

  function ReadMemo(j: Json): Result<Option<string>, ParamsFault> {
    if !HasKey(j, "memo") then Ok(None)
    else if !j.members["memo"].Str? then Err(MemoNotString)
    else Ok(Some(j.members["memo"].text))
  }

  function ReadRegenerate(j: Json): Result<Option<bool>, ParamsFault> {
    if !HasKey(j, "regenerateTransactionId") then Ok(None)
    else if !j.members["regenerateTransactionId"].Bool? then Err(RegenerateNotBoolean)
    else Ok(Some(j.members["regenerateTransactionId"].flag))
  }

  function ReadSigner(b: Backend, j: Json): Result<PrivateKey, ParamsFault> {
    if !j.Str? then Err(SignerNotString)
    else
      match PrivateFromStringDer(b, j.text)
      case Some(key) => Ok(key)
      case None => Err(SignerNotKey)
  }

  function ReadSignerList(b: Backend, items: seq<Json>): Result<seq<PrivateKey>, ParamsFault> {
    if items == [] then Ok([])
    else
      var first :- ReadSigner(b, items[0]);
      var rest :- ReadSignerList(b, items[1..]);
      Ok([first] + rest)
  }

  function ReadSigners(b: Backend, j: Json): Result<Option<seq<PrivateKey>>, ParamsFault> {
    if !HasKey(j, "signers") then Ok(None)
    else if !j.members["signers"].Arr? then Err(SignersNotList)
    else
      var list :- ReadSignerList(b, j.members["signers"].items);
      Ok(Some(list))
  }

  /** Members are read in this order. A value that is not an object has none of them and is read as no parameters. */
  function FromJson(b: Backend, j: Json): Result<CommonParams, ParamsFault> {
    var transactionId :- ReadTransactionId(b, j);
    var fee :- ReadInteger(j, "maxTransactionFee", FeeNotInteger);
    var duration :- ReadInteger(j, "validTransactionDuration", DurationNotInteger);
    var memo :- ReadMemo(j);
    var regenerate :- ReadRegenerate(j);
    var signers :- ReadSigners(b, j);
    Ok(CommonParams(transactionId, fee, duration, memo, regenerate, signers))
  }

  // Which exception is thrown.

  function FaultOf<T>(read: Result<T, ParamsFault>): seq<ParamsFault> {
    if read.Err? then [read.error] else []
  }

  function SignerFaults(b: Backend, items: seq<Json>): seq<ParamsFault> {
    if items == [] then [] else FaultOf(ReadSigner(b, items[0])) + SignerFaults(b, items[1..])
  }

  /** Everything that is wrong with the members, in reading order. */
  function Faults(b: Backend, j: Json): seq<ParamsFault> {
    FaultOf(ReadTransactionId(b, j))
    + FaultOf(ReadInteger(j, "maxTransactionFee", FeeNotInteger))
    + FaultOf(ReadInteger(j, "validTransactionDuration", DurationNotInteger))
    + FaultOf(ReadMemo(j))
    + FaultOf(ReadRegenerate(j))
    + if HasKey(j, "signers") && j.members["signers"].Arr? then SignerFaults(b, j.members["signers"].items)
      else FaultOf(ReadSigners(b, j))
  }

  /** Reading fails with the first of them, and only then. */
  lemma FirstFaultThrown(b: Backend, j: Json)
    ensures FromJson(b, j).Ok? <==> Faults(b, j) == []
    ensures FromJson(b, j).Err? ==> FromJson(b, j).error == Faults(b, j)[0]
  {
    if HasKey(j, "signers") && j.members["signers"].Arr? {
      FirstSignerFault(b, j.members["signers"].items);
    }
  }

  lemma {:induction false} FirstSignerFault(b: Backend, items: seq<Json>)
    ensures ReadSignerList(b, items).Ok? <==> SignerFaults(b, items) == []
    ensures ReadSignerList(b, items).Err? ==> ReadSignerList(b, items).error == SignerFaults(b, items)[0]
  {
    if items != [] {
      FirstSignerFault(b, items[1..]);
    }
  }

  // What is read, in terms of the members.

  predicate IsSigner(b: Backend, j: Json) {
    j.Str? && PrivateFromStringDer(b, j.text).Some?
  }

  predicate IdReads(b: Backend, j: Json) {
    HasKey(j, "transactionId") ==>
      j.members["transactionId"].Str? && b.parseTransactionId(j.members["transactionId"].text).Some?
  }

  predicate NumberReads(j: Json, key: string) {
    HasKey(j, key) ==> j.members[key].Int? || j.members[key].Unsigned?
  }

  predicate MemoReads(j: Json) {
    HasKey(j, "memo") ==> j.members["memo"].Str?
  }

  predicate RegenerateReads(j: Json) {
    HasKey(j, "regenerateTransactionId") ==> j.members["regenerateTransactionId"].Bool?
  }

  predicate SignersRead(b: Backend, j: Json) {
    HasKey(j, "signers") ==>
      && j.members["signers"].Arr?
      && forall i | 0 <= i < |j.members["signers"].items| :: IsSigner(b, j.members["signers"].items[i])
  }

  /** Every member that is there has its kind, the ID can be parsed and every signer is the text of a private key. */
  predicate WellFormed(b: Backend, j: Json) {
    && IdReads(b, j)
    && NumberReads(j, "maxTransactionFee")
    && NumberReads(j, "validTransactionDuration")
    && MemoReads(j)
    && RegenerateReads(j)
    && SignersRead(b, j)
  }

  /** The parameters are the members, each by its own value. */
  predicate IsReadFrom(b: Backend, j: Json, p: CommonParams)
    requires WellFormed(b, j)
  {
    && p.transactionId
       == (if HasKey(j, "transactionId") then b.parseTransactionId(j.members["transactionId"].text) else None)
    && HasNumber(j, "maxTransactionFee", p.maxTransactionFee)
    && HasNumber(j, "validTransactionDuration", p.validTransactionDuration)
    && p.memo == (if HasKey(j, "memo") then Some(j.members["memo"].text) else None)
    && p.regenerateTransactionId
       == (if HasKey(j, "regenerateTransactionId") then Some(j.members["regenerateTransactionId"].flag) else None)
    && AreSigners(b, j, p.signers)
  }

  /** The keys of the texts, in their order. */
  predicate AreSigners(b: Backend, j: Json, signers: Option<seq<PrivateKey>>)
    requires SignersRead(b, j)
  {
    && (signers.Some? <==> HasKey(j, "signers"))
    && (signers.Some? ==>
          && |signers.value| == |j.members["signers"].items|
          && forall i | 0 <= i < |signers.value| ::
               && j.members["signers"].items[i].Str?
               && Some(signers.value[i]) == PrivateFromStringDer(b, j.members["signers"].items[i].text))
  }

  /** The member's number if the type can hold it; otherwise the one that the conversion gives. */
  predicate HasNumber(j: Json, key: string, value: Option<int64>)
    requires NumberReads(j, key)
  {
    if HasKey(j, key) then
      var n := if j.members[key].Int? then j.members[key].signed else j.members[key].unsigned;
      && value.Some?
      && (value.value - n) % 0x1_0000_0000_0000_0000 == 0
      && (-0x8000_0000_0000_0000 <= n < 0x8000_0000_0000_0000 ==> value.value == n)
    else value.None?
  }

  /** A value is accepted exactly if it is well formed, and each parameter is then its member. */
  lemma ReadExactly(b: Backend, j: Json)
    ensures FromJson(b, j).Ok? <==> WellFormed(b, j)
    ensures WellFormed(b, j) ==> IsReadFrom(b, j, FromJson(b, j).value)
  {
    SignersMember(b, j);
    NumberExactly(j, "maxTransactionFee", FeeNotInteger);
    NumberExactly(j, "validTransactionDuration", DurationNotInteger);
  }

  lemma SignersMember(b: Backend, j: Json)
    ensures ReadSigners(b, j).Ok? <==> SignersRead(b, j)
    ensures SignersRead(b, j) ==> AreSigners(b, j, ReadSigners(b, j).value)
  {
    if HasKey(j, "signers") && j.members["signers"].Arr? {
      SignersExactly(b, j.members["signers"].items);
    }
  }

  lemma NumberExactly(j: Json, key: string, fault: ParamsFault)
    ensures if !NumberReads(j, key) then ReadInteger(j, key, fault) == Err(fault)
            else ReadInteger(j, key, fault).Ok? && HasNumber(j, key, ReadInteger(j, key, fault).value)
  {
    if HasKey(j, key) && IsNumberInteger(j.members[key]) {
      var n := if j.members[key].Int? then j.members[key].signed else j.members[key].unsigned;
      var r := ToInt64(n);
      assert (n - r) % 0x1_0000_0000_0000_0000 == 0;
      assert r - n == -(n - r);
    }
  }

  lemma {:induction false} SignersExactly(b: Backend, items: seq<Json>)
    ensures ReadSignerList(b, items).Ok? <==> forall i | 0 <= i < |items| :: IsSigner(b, items[i])
    ensures ReadSignerList(b, items).Ok? ==>
              && |ReadSignerList(b, items).value| == |items|
              && forall i | 0 <= i < |items| ::
                   items[i].Str? && Some(ReadSignerList(b, items).value[i]) == PrivateFromStringDer(b, items[i].text)
  {
    if items != [] {
      SignersExactly(b, items[1..]);
      assert ReadSigner(b, items[0]).Ok? <==> IsSigner(b, items[0]);
    }
  }

  /** When which fault is thrown: by the member that has it, if those read before can be read. */
  lemma FaultsExactly(b: Backend, j: Json)
    ensures var read := FromJson(b, j);
            && (read == Err(TransactionIdNotString) <==> HasKey(j, "transactionId") && !j.members["transactionId"].Str?)
            && (read == Err(TransactionIdMalformed) <==> HasKeyType(j, "transactionId", StringKind) && !IdReads(b, j))
            && (read == Err(FeeNotInteger) <==> IdReads(b, j) && !NumberReads(j, "maxTransactionFee"))
            && (read == Err(DurationNotInteger) <==>
                  && IdReads(b, j) && NumberReads(j, "maxTransactionFee")
                  && !NumberReads(j, "validTransactionDuration"))
  {
    if HasKey(j, "signers") && j.members["signers"].Arr? {
      SignerFaultKinds(b, j.members["signers"].items);
    }
    NumberExactly(j, "maxTransactionFee", FeeNotInteger);
    NumberExactly(j, "validTransactionDuration", DurationNotInteger);
  }

  lemma LaterFaultsExactly(b: Backend, j: Json)
    requires IdReads(b, j) && NumberReads(j, "maxTransactionFee") && NumberReads(j, "validTransactionDuration")
    ensures FromJson(b, j) == Err(MemoNotString) <==> !MemoReads(j)
    ensures FromJson(b, j) == Err(RegenerateNotBoolean) <==> MemoReads(j) && !RegenerateReads(j)
  {
    if HasKey(j, "signers") && j.members["signers"].Arr? {
      SignerFaultKinds(b, j.members["signers"].items);
    }
    NumberExactly(j, "maxTransactionFee", FeeNotInteger);
    NumberExactly(j, "validTransactionDuration", DurationNotInteger);
  }

  /** The signers are left if everything else can be read. */
  lemma SignersLast(b: Backend, j: Json)
    requires IdReads(b, j) && NumberReads(j, "maxTransactionFee") && NumberReads(j, "validTransactionDuration")
    requires MemoReads(j) && RegenerateReads(j)
    ensures var signers := ReadSigners(b, j);
            (signers.Ok? ==> FromJson(b, j).Ok?) && (signers.Err? ==> FromJson(b, j) == Err(signers.error))
  {
    NumberExactly(j, "maxTransactionFee", FeeNotInteger);
    NumberExactly(j, "validTransactionDuration", DurationNotInteger);
  }

  /** Their faults: no list, or a first element that is no key text. */
  lemma SignersFaultExactly(b: Backend, j: Json)
    requires IdReads(b, j) && NumberReads(j, "maxTransactionFee") && NumberReads(j, "validTransactionDuration")
    requires MemoReads(j) && RegenerateReads(j)
    ensures FromJson(b, j) == Err(SignersNotList) <==> HasKey(j, "signers") && !j.members["signers"].Arr?
    ensures HasKey(j, "signers") && j.members["signers"].Arr? ==>
              var items := j.members["signers"].items;
              forall i: nat | IsFirstNoSigner(b, items, i) ::
                FromJson(b, j) == Err(if items[i].Str? then SignerNotKey else SignerNotString)
  {
    SignersLast(b, j);
    if HasKey(j, "signers") && j.members["signers"].Arr? {
      var items := j.members["signers"].items;
      SignerFaultKinds(b, items);
      forall i: nat | IsFirstNoSigner(b, items, i)
        ensures ReadSignerList(b, items) == Err(if items[i].Str? then SignerNotKey else SignerNotString)
      {
        FirstNoSignerDecides(b, items, i);
      }
    }
  }

  /** The first element that is no key text. */
  predicate IsFirstNoSigner(b: Backend, items: seq<Json>, i: nat) {
    i < |items| && !IsSigner(b, items[i]) && forall k | 0 <= k < i :: IsSigner(b, items[k])
  }

  /** It decides between the two faults of signers. */
  lemma {:induction false} SignerFaultKinds(b: Backend, items: seq<Json>)
    ensures ReadSignerList(b, items).Err? ==>
              exists i: nat ::
                && IsFirstNoSigner(b, items, i)
                && ReadSignerList(b, items).error == if items[i].Str? then SignerNotKey else SignerNotString
    ensures ReadSignerList(b, items).Ok? ==> forall i: nat :: !IsFirstNoSigner(b, items, i)
  {
    SignersExactly(b, items);
    if items != [] {
      if !IsSigner(b, items[0]) {
        assert IsFirstNoSigner(b, items, 0);
      } else if ReadSignerList(b, items).Err? {
        SignerFaultKinds(b, items[1..]);
        var i: nat :| IsFirstNoSigner(b, items[1..], i)
          && ReadSignerList(b, items).error == if items[1..][i].Str? then SignerNotKey else SignerNotString;
        assert forall k | 0 < k <= i :: items[k] == items[1..][k - 1];
        assert IsFirstNoSigner(b, items, i + 1);
      }
    }
  }

  lemma FirstNoSignerDecides(b: Backend, items: seq<Json>, i: nat)
    requires IsFirstNoSigner(b, items, i)
    ensures ReadSignerList(b, items) == Err(if items[i].Str? then SignerNotKey else SignerNotString)
  {
    SignerFaultKinds(b, items);
  }

  // Round trip.

  /** The parameters with an empty list of signers replaced by an absent one. */
  function Normalize(p: CommonParams): CommonParams {
    if p.signers == Some([]) then p.(signers := None) else p
  }

  ghost predicate SignersValid(b: Backend, p: CommonParams) {
    p.signers.Some? ==> forall key | key in p.signers.value :: ValidPrivate(b, key)
  }

  lemma SignerRoundTrip(b: Backend, signer: PrivateKey)
    requires ValidPrivate(b, signer)
    ensures ReadSigner(b, Str(PrivateToStringDer(signer))) == Ok(signer)
  {
    PrivateDerRoundTrip(b, signer);
  }

  lemma SignersStep(b: Backend, signers: seq<PrivateKey>)
    requires signers != [] && ReadSigner(b, Str(PrivateToStringDer(signers[0]))) == Ok(signers[0])
    requires ReadSignerList(b, SignerTexts(signers[1..])) == Ok(signers[1..])
    ensures ReadSignerList(b, SignerTexts(signers)) == Ok(signers)
  {
    var first, rest := Str(PrivateToStringDer(signers[0])), SignerTexts(signers[1..]);
    assert ([first] + rest)[1..] == rest;
    assert [signers[0]] + signers[1..] == signers;
  }

  lemma {:induction false} SignersRoundTrip(b: Backend, signers: seq<PrivateKey>)
    requires forall key | key in signers :: ValidPrivate(b, key)
    ensures ReadSignerList(b, SignerTexts(signers)) == Ok(signers)
  {
    if signers != [] {
      SignerRoundTrip(b, signers[0]);
      SignersRoundTrip(b, signers[1..]);
      SignersStep(b, signers);
    }
  }

  /**
   Reading what was written gives the parameters back, with an empty list of signers absent, exactly when the text of
   the transaction ID reads back as that ID.
   */
  lemma WriteThenRead(b: Backend, p: CommonParams)
    requires SignersValid(b, p)
    ensures FromJson(b, ToJson(b, p)) == Ok(Normalize(p)) <==>
            (p.transactionId.Some? ==>
               b.parseTransactionId(b.formatTransactionId(p.transactionId.value)) == p.transactionId)
  {
    ReadFee(b, p);
    ReadDuration(b, p);
    ReadTexts(b, p);
    ReadSignersBack(b, p);
  }

  /** The members of the written object are the values above. */
  lemma Written(b: Backend, p: CommonParams, key: string)
    requires key in MEMBERS
    ensures HasKey(ToJson(b, p), key) <==> MemberOf(b, p, key).Some?
    ensures HasKey(ToJson(b, p), key) ==> ToJson(b, p).members[key] == MemberOf(b, p, key).value
  {
    assert key in Members(b, p, MEMBERS) <==> MemberOf(b, p, key).Some?;
  }

  lemma ReadFee(b: Backend, p: CommonParams)
    ensures ReadInteger(ToJson(b, p), "maxTransactionFee", FeeNotInteger) == Ok(p.maxTransactionFee)
  {
    Written(b, p, "maxTransactionFee");
  }

  lemma ReadDuration(b: Backend, p: CommonParams)
    ensures ReadInteger(ToJson(b, p), "validTransactionDuration", DurationNotInteger) == Ok(p.validTransactionDuration)
  {
    Written(b, p, "validTransactionDuration");
  }

  lemma ReadTexts(b: Backend, p: CommonParams)
    ensures ReadMemo(ToJson(b, p)) == Ok(p.memo)
    ensures ReadRegenerate(ToJson(b, p)) == Ok(p.regenerateTransactionId)
    ensures ReadTransactionId(b, ToJson(b, p)) ==
            if p.transactionId.None? then Ok(None)
            else match b.parseTransactionId(b.formatTransactionId(p.transactionId.value))
                 case Some(id) => Ok(Some(id))
                 case None => Err(TransactionIdMalformed)
  {
    Written(b, p, "memo");
    Written(b, p, "regenerateTransactionId");
    Written(b, p, "transactionId");
  }

  lemma ReadSignersBack(b: Backend, p: CommonParams)
    requires SignersValid(b, p)
    ensures ReadSigners(b, ToJson(b, p)) == Ok(Normalize(p).signers)
  {
    Written(b, p, "signers");
    if p.signers.Some? {
      SignersRoundTrip(b, p.signers.value);
    }
  }

  // The source's form: members are assigned and read one after the other, signers in a loop.

  method WriteJson(b: Backend, p: CommonParams) returns (jsonTo: Json)
    ensures jsonTo == ToJson(b, p)
  {
    var members := WriteScalars(b, p);
    if p.signers.Some? {
      var items := WriteSigners(p.signers.value);
      if items != [] {
        members := members["signers" := Arr(items)];
      }
    }
    ghost var keys := WriteStep(b, p, MEMBERS - {"signers"}, "signers");
    assert keys == MEMBERS;
    jsonTo := if members == map[] then Null else Obj(members);
  }

  /** Every member but the list of signers. */
  method WriteScalars(b: Backend, p: CommonParams) returns (members: map<string, Json>)
    ensures members == Members(b, p, MEMBERS - {"signers"})
  {
    members := map[];
    ghost var keys: set<string> := {};
    if p.transactionId.Some? {
      members := members["transactionId" := Str(b.formatTransactionId(p.transactionId.value))];
    }
    keys := WriteStep(b, p, keys, "transactionId");
    if p.maxTransactionFee.Some? {
      members := members["maxTransactionFee" := Int(p.maxTransactionFee.value)];
    }
    keys := WriteStep(b, p, keys, "maxTransactionFee");
    if p.validTransactionDuration.Some? {
      members := members["validTransactionDuration" := Int(p.validTransactionDuration.value)];
    }
    keys := WriteStep(b, p, keys, "validTransactionDuration");
    if p.memo.Some? {
      members := members["memo" := Str(p.memo.value)];
    }
    keys := WriteStep(b, p, keys, "memo");
    if p.regenerateTransactionId.Some? {
      members := members["regenerateTransactionId" := Bool(p.regenerateTransactionId.value)];
    }
    keys := WriteStep(b, p, keys, "regenerateTransactionId");
    assert keys == MEMBERS - {"signers"};
  }

  /** One more member has been looked at. */
  lemma WriteStep(b: Backend, p: CommonParams, before: set<string>, key: string) returns (keys: set<string>)
    requires key !in before
    ensures keys == before + {key}
    ensures Members(b, p, keys) == if MemberOf(b, p, key).Some? then Members(b, p, before)[key := MemberOf(b, p, key).value]
                                   else Members(b, p, before)
  {
    keys := before + {key};
  }

  method ReadJson(b: Backend, jsonFrom: Json) returns (params: Result<CommonParams, ParamsFault>)
    ensures params == FromJson(b, jsonFrom)
  {
    var p := NO_PARAMS;
    var transactionId :- ReadTransactionId(b, jsonFrom);
    p := p.(transactionId := transactionId);
    var fee :- ReadInteger(jsonFrom, "maxTransactionFee", FeeNotInteger);
    p := p.(maxTransactionFee := fee);
    var duration :- ReadInteger(jsonFrom, "validTransactionDuration", DurationNotInteger);
    p := p.(validTransactionDuration := duration);
    var memo :- ReadMemo(jsonFrom);
    p := p.(memo := memo);
    var regenerate :- ReadRegenerate(jsonFrom);
    p := p.(regenerateTransactionId := regenerate);
    if HasKey(jsonFrom, "signers") {
      if !jsonFrom.members["signers"].Arr? {
        return Err(SignersNotList);
      }
      var signers :- ReadSignersInLoop(b, jsonFrom.members["signers"].items);
      p := p.(signers := Some(signers));
    }
    params := Ok(p);
  }

  method WriteSigners(signers: seq<PrivateKey>) returns (items: seq<Json>)
    ensures items == SignerTexts(signers)
  {
    items := [];
    for i := 0 to |signers|
      invariant items == SignerTexts(signers[..i])
    {
      SignerTextsPush(signers[..i], signers[i]);
      assert signers[..i + 1] == signers[..i] + [signers[i]];
      items := items + [Str(PrivateToStringDer(signers[i]))];
    }
    assert signers[..|signers|] == signers;
  }

  lemma {:induction false} SignerTextsPush(signers: seq<PrivateKey>, key: PrivateKey)
    ensures SignerTexts(signers + [key]) == SignerTexts(signers) + [Str(PrivateToStringDer(key))]
  {
    if signers != [] {
      SignerTextsPush(signers[1..], key);
      assert (signers + [key])[1..] == signers[1..] + [key];
    }
  }

  method ReadSignersInLoop(b: Backend, items: seq<Json>) returns (result: Result<seq<PrivateKey>, ParamsFault>)
    ensures result == ReadSignerList(b, items)
  {
    var signers: seq<PrivateKey> := [];
    assert items[0..] == items;
    assert forall rest: seq<PrivateKey> :: [] + rest == rest;
    for i := 0 to |items|
      invariant ReadSignerList(b, items) == match ReadSignerList(b, items[i..])
                                            case Ok(rest) => Ok(signers + rest)
                                            case Err(fault) => Err(fault)
    {
      var key := ReadSigner(b, items[i]);
      assert items[i..][1..] == items[i + 1..];
      if key.Err? {
        return Err(key.error);
      }
      ghost var before := signers;
      signers := signers + [key.value];
      assert forall rest: seq<PrivateKey> :: signers + rest == before + ([key.value] + rest);
    }
    assert signers + [] == signers;
    result := Ok(signers);
  }
}
