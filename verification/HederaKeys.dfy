/**
 The SDK's keys and the encodings that getHederaKey reads them from: DER in hex for a single key (PublicKey.cc,
 PrivateKey.cc), a protobuf Key message in hex for a list (Key.cc, KeyList.cc).

 What OpenSSL and the protobuf library do is a parameter, the Backend, together with the laws in Lawful.
 */
module HederaKeys {
  import opened Wrappers
  import opened Json
  import opened Hex

  datatype Algorithm = Ed25519 | Secp256k1

  datatype PrivateKey = PrivateKey(alg: Algorithm, secret: seq<byte>)

  datatype PublicKey = PublicKey(alg: Algorithm, point: seq<byte>)

  /** The classes derived from Key. A KeyList whose threshold is 0 needs every key to sign. */
  datatype Key =
    | Public(publicKey: PublicKey)
    | Private(privateKey: PrivateKey)
    | KeyList(threshold: uint32, keys: seq<Key>)
    | Contract(id: seq<byte>)

  /** The cases of the protobuf message proto::Key that Key::fromProtobuf tells apart. */
  datatype ProtoKey =
    | Ed25519Message(bytes: seq<byte>)
    | Secp256k1Message(bytes: seq<byte>)
    | KeyListMessage(keys: seq<ProtoKey>)
    | ThresholdKeyMessage(threshold: uint32, keys: seq<ProtoKey>)
    | ContractMessage(id: seq<byte>)
    | UnrecognizedMessage

  /** The payer account and the rest of a transaction ID. */
  datatype TransactionId = TransactionId(payer: string, stamp: string)

  /**
   The foreign code. generate(alg, n) is the key that the n-th generation of the run yields when asked for alg; the
   decoders return None where the C++ ones throw; parse is total because getHederaKey ignores whether
   ParseFromString succeeded. limit is how many messages inside one another the protobuf library reads. order(n) is the
   order in which the compiler evaluates the n arguments of a call, which C++ leaves open; those that it does not name
   come last, from left to right.
   */
  datatype Backend = Backend(
    generate: (Algorithm, nat) -> PrivateKey,
    publicOf: PrivateKey -> PublicKey,
    decodePublic: (Algorithm, seq<byte>) -> Option<PublicKey>,
    decodePrivate: (Algorithm, seq<byte>) -> Option<PrivateKey>,
    decodeContract: seq<byte> -> Option<seq<byte>>,
    serialize: ProtoKey -> seq<byte>,
    parse: seq<byte> -> ProtoKey,
    limit: nat,
    order: nat -> seq<nat>,
    evmAddress: PublicKey -> seq<byte>,
    formatTransactionId: TransactionId -> string,
    parseTransactionId: string -> Option<TransactionId>,
    parseAccountId: string -> Option<string>)

  // DER prefixes.

  function PublicPrefixHex(alg: Algorithm): string {
    match alg
    case Ed25519 => "302A3005" + ("06032B65" + "70032100")
    case Secp256k1 => "302D3007" + ("06052B81" + ("04000A03" + "2200"))
  }

  function PublicPrefix(alg: Algorithm): seq<byte> {
    match alg
    case Ed25519 => [0x30, 0x2A, 0x30, 0x05] + ([0x06, 0x03, 0x2B, 0x65] + [0x70, 0x03, 0x21, 0x00])
    case Secp256k1 =>
      [0x30, 0x2D, 0x30, 0x07] + ([0x06, 0x05, 0x2B, 0x81] + ([0x04, 0x00, 0x0A, 0x03] + [0x22, 0x00]))
  }

  function PrivatePrefix(alg: Algorithm): seq<byte> {
    match alg
    case Ed25519 => [0x30, 0x2E, 0x02, 0x01, 0x00, 0x30, 0x05, 0x06, 0x03, 0x2B, 0x65, 0x70, 0x04, 0x22, 0x04, 0x20]
    case Secp256k1 =>
      [0x30, 0x30, 0x02, 0x01, 0x00, 0x30, 0x07, 0x06, 0x05, 0x2B, 0x81, 0x04, 0x00, 0x0A, 0x04, 0x22, 0x04, 0x20]
  }

  function PublicToStringDer(key: PublicKey): string {
    BytesToHex(PublicPrefix(key.alg) + key.point)
  }

  function PrivateToStringDer(key: PrivateKey): string {
    BytesToHex(PrivatePrefix(key.alg) + key.secret)
  }

  /** PublicKey::fromStringDer; None stands for a BadKeyException. */
  function PublicFromStringDer(b: Backend, text: string): Option<PublicKey> {
    if PublicPrefixHex(Ed25519) <= text then PublicFromHex(b, Ed25519, text)
    else if PublicPrefixHex(Secp256k1) <= text then PublicFromHex(b, Secp256k1, text)
    else None
  }

  function PublicFromHex(b: Backend, alg: Algorithm, text: string): Option<PublicKey> {
    match HexToBytes(text)
    case None => None
    case Some(bytes) => b.decodePublic(alg, bytes)
  }

  /** PrivateKey::fromStringDer; None stands for a BadKeyException. */
  function PrivateFromStringDer(b: Backend, text: string): Option<PrivateKey> {
    match HexToBytes(if "0x" <= text then text[2..] else text)
    case None => None
    case Some(bytes) =>
      if PrivatePrefix(Ed25519) <= bytes then b.decodePrivate(Ed25519, bytes)
      else if PrivatePrefix(Secp256k1) <= bytes then b.decodePrivate(Secp256k1, bytes)
      else None
  }

  const NOT_HEX_TEXT: string := "OPENSSL_hexstr2buf_ex"
  const UNRECOGNIZED_KEY_CASE_TEXT: string := "Key protobuf case not recognized"
  const BAD_PUBLIC_KEY_BYTES_TEXT: string := "public key cannot be realized from input bytes"
  const BAD_CONTRACT_ADDRESS_TEXT: string := "EVM address is not 20 bytes"

  /** The exceptions that can leave getHederaKey. */
  datatype DecodeFault = NotHex | UnrecognizedKeyCase | BadPublicKeyBytes | BadContractAddress {
    function What(): string {
      match this
      case NotHex => NOT_HEX_TEXT
      case UnrecognizedKeyCase => UNRECOGNIZED_KEY_CASE_TEXT
      case BadPublicKeyBytes => BAD_PUBLIC_KEY_BYTES_TEXT
      case BadContractAddress => BAD_CONTRACT_ADDRESS_TEXT
    }
  }

  // Protobuf messages.

  const ZERO_KEY: PrivateKey := PrivateKey(Ed25519, seq(32, _ => 0))

  /** The public key that a private key is written as; the zero key is written with its own bytes. */
  function Published(b: Backend, k: PrivateKey): PublicKey {
    if k == ZERO_KEY then PublicKey(Ed25519, k.secret) else b.publicOf(k)
  }

  /** Key::toProtobufKey of each class: a private key is written as a public one, a list without threshold as a plain list. */
  function ToProtobuf(b: Backend, key: Key): ProtoKey
    decreases key, 1
  {
    match key
    case Public(k) => PublicMessage(k)
    case Private(k) => PublicMessage(Published(b, k))
    case KeyList(threshold, keys) =>
      if threshold > 0 then ThresholdKeyMessage(threshold, ToProtobufAll(b, keys))
      else KeyListMessage(ToProtobufAll(b, keys))
    case Contract(id) => ContractMessage(id)
  }

  function ToProtobufAll(b: Backend, keys: seq<Key>): seq<ProtoKey>
    decreases keys, 0
  {
    if keys == [] then [] else [ToProtobuf(b, keys[0])] + ToProtobufAll(b, keys[1..])
  }

  function PublicMessage(key: PublicKey): ProtoKey {
    match key.alg
    case Ed25519 => Ed25519Message(key.point)
    case Secp256k1 => Secp256k1Message(key.point)
  }

  /**
   How many messages lie inside one another below a message: a list holds a KeyList, which holds keys; a threshold key
   holds a ThresholdKey, which holds a KeyList; a contract key holds a ContractID.
   */
  function Depth(m: ProtoKey): nat
    decreases m, 1
  {
    match m
    case KeyListMessage(keys) => 1 + DepthAll(keys)
    case ThresholdKeyMessage(_, keys) => 2 + DepthAll(keys)
    case ContractMessage(_) => 1
    case _ => 0
  }

  function DepthAll(keys: seq<ProtoKey>): nat
    decreases keys, 0
  {
    if keys == [] then 0 else Max(1 + Depth(keys[0]), DepthAll(keys[1..]))
  }

  function Max(x: nat, y: nat): nat {
    if x < y then y else x
  }

  /** A list lies two messages above its deepest key, a threshold key three; an empty one holds its own parts alone. */
  lemma {:induction false} DepthExactly(threshold: uint32, keys: seq<ProtoKey>)
    ensures Depth(ThresholdKeyMessage(threshold, keys)) == Depth(KeyListMessage(keys)) + 1
    ensures forall i | 0 <= i < |keys| :: Depth(keys[i]) + 2 <= Depth(KeyListMessage(keys))
    ensures if keys == [] then Depth(KeyListMessage(keys)) == 1
            else exists i | 0 <= i < |keys| :: Depth(keys[i]) + 2 == Depth(KeyListMessage(keys))
    ensures forall id :: Depth(ContractMessage(id)) == 1
    ensures forall bytes :: Depth(Ed25519Message(bytes)) == 0 && Depth(Secp256k1Message(bytes)) == 0
  {
    if keys != [] {
      DepthExactly(threshold, keys[1..]);
      assert forall i | 0 < i < |keys| :: keys[i] == keys[1..][i - 1];
    }
  }

  /** The key's message is not nested more deeply than the library reads. */
  predicate WithinLimit(b: Backend, key: Key) {
    Depth(ToProtobuf(b, key)) <= b.limit
  }

  /** Key::fromProtobuf. */
  function FromProtobuf(b: Backend, message: ProtoKey): Result<Key, DecodeFault>
    decreases message, 1
  {
    match message
    case Ed25519Message(bytes) => PublicFromMessage(b, Ed25519, bytes)
    case Secp256k1Message(bytes) => PublicFromMessage(b, Secp256k1, bytes)
    case KeyListMessage(keys) =>
      var list :- FromProtobufAll(b, keys);
      Ok(KeyList(0, list))
    case ThresholdKeyMessage(threshold, keys) =>
      var list :- FromProtobufAll(b, keys);
      Ok(KeyList(threshold, list))
    case ContractMessage(id) =>
      (match b.decodeContract(id)
       case Some(contract) => Ok(Contract(contract))
       case None => Err(BadContractAddress))
    case UnrecognizedMessage => Err(UnrecognizedKeyCase)
  }

  function FromProtobufAll(b: Backend, messages: seq<ProtoKey>): Result<seq<Key>, DecodeFault>
    decreases messages, 0
  {
    if messages == [] then Ok([])
    else
      var first :- FromProtobuf(b, messages[0]);
      var rest :- FromProtobufAll(b, messages[1..]);
      Ok([first] + rest)
  }

  function PublicFromMessage(b: Backend, alg: Algorithm, bytes: seq<byte>): Result<Key, DecodeFault> {
    match b.decodePublic(alg, bytes)
    case Some(k) => Ok(Public(k))
    case None => Err(BadPublicKeyBytes)
  }

  /** The hex text that processKeyRequest returns for a list. */
  function ListToHex(b: Backend, list: Key): string {
    BytesToHex(b.serialize(ToProtobuf(b, list)))
  }

  /** getHederaKey of src/tck/src/KeyHelper.cc: a public key, or else a private key, or else a protobuf message. */
  function GetHederaKey(b: Backend, text: string): Result<Key, DecodeFault> {
    match PublicFromStringDer(b, text)
    case Some(k) => Ok(Public(k))
    case None =>
      match PrivateFromStringDer(b, text)
      case Some(k) => Ok(Private(k))
      case None =>
        match HexToBytes(text)
        case None => Err(NotHex)
        case Some(bytes) => FromProtobuf(b, b.parse(bytes))
  }

  // Laws of the foreign code.

  /** OpenSSL reads the key back from its raw form and from its DER form. */
  ghost predicate ValidPublic(b: Backend, k: PublicKey) {
    && b.decodePublic(k.alg, k.point) == Some(k)
    && b.decodePublic(k.alg, PublicPrefix(k.alg) + k.point) == Some(k)
  }

  ghost predicate ValidPrivate(b: Backend, k: PrivateKey) {
    && b.decodePrivate(k.alg, PrivatePrefix(k.alg) + k.secret) == Some(k)
    && ValidPublic(b, b.publicOf(k))
    && ValidPublic(b, Published(b, k))
    && b.publicOf(k).alg == k.alg
  }

  ghost predicate Valid(b: Backend, key: Key) {
    match key
    case Public(k) => ValidPublic(b, k)
    case Private(k) => ValidPrivate(b, k)
    case KeyList(_, keys) => forall k | k in keys :: Valid(b, k)
    case Contract(id) => b.decodeContract(id) == Some(id)
  }

  /** The first byte of a DER sequence, hence of every prefix above. */
  const DER_SEQUENCE: byte := 0x30

  /**
   - A generated key has the algorithm asked for.
   - Keys that were generated or decoded survive encoding.
   - A serialised message within the nesting limit parses back to itself, and that of a list does not start like a DER
     sequence (its first byte is the tag of field 5 or 6 of proto::Key).
   */
  ghost predicate Lawful(b: Backend) {
    && (forall alg, n :: ValidPrivate(b, b.generate(alg, n)) && b.generate(alg, n).alg == alg)
    && (forall alg, bytes :: b.decodePublic(alg, bytes).Some? ==>
          ValidPublic(b, b.decodePublic(alg, bytes).value) && b.decodePublic(alg, bytes).value.alg == alg)
    && (forall alg, bytes :: b.decodePrivate(alg, bytes).Some? ==>
          ValidPrivate(b, b.decodePrivate(alg, bytes).value) && b.decodePrivate(alg, bytes).value.alg == alg)
    && (forall id :: b.decodeContract(id).Some? ==> Valid(b, Contract(b.decodeContract(id).value)))
    && (forall m | Depth(m) <= b.limit :: b.parse(b.serialize(m)) == m)
    && (forall m: ProtoKey | m.KeyListMessage? || m.ThresholdKeyMessage? ::
          b.serialize(m) != [] && b.serialize(m)[0] != DER_SEQUENCE)
  }

  /** No message in it is empty. */
  predicate Filled(m: ProtoKey) {
    match m
    case KeyListMessage(keys) => keys != [] && forall k | k in keys :: Filled(k)
    case ThresholdKeyMessage(_, keys) => keys != [] && forall k | k in keys :: Filled(k)
    case ContractMessage(id) => id != []
    case UnrecognizedMessage => false
    case _ => true
  }

  /** Beyond its limit the library leaves out what lies too deep, so that what it reads is no longer the same key. */
  ghost predicate Strict(b: Backend) {
    forall m | Depth(m) > b.limit && Filled(m) && FromProtobuf(b, m).Ok? ::
      FromProtobuf(b, b.parse(b.serialize(m))) != FromProtobuf(b, m)
  }

  // What serialisation keeps of a key.

  /** The key with every private key in it replaced by its public key. */
  function Publicise(b: Backend, key: Key): Key
    decreases key, 1
  {
    match key
    case Private(k) => Public(Published(b, k))
    case KeyList(threshold, keys) => KeyList(threshold, PubliciseAll(b, keys))
    case _ => key
  }

  function PubliciseAll(b: Backend, keys: seq<Key>): (r: seq<Key>)
    ensures |r| == |keys|
    ensures forall i | 0 <= i < |keys| :: r[i] == Publicise(b, keys[i])
    decreases keys, 0
  {
    if keys == [] then [] else [Publicise(b, keys[0])] + PubliciseAll(b, keys[1..])
  }

  /** Writing a key as a protobuf message and reading it again publishes it and changes nothing else. */
  lemma {:induction false} ProtobufRoundTrip(b: Backend, key: Key)
    requires Valid(b, key)
    ensures FromProtobuf(b, ToProtobuf(b, key)) == Ok(Publicise(b, key))
    decreases key, 1
  {
    if key.KeyList? {
      ProtobufRoundTripAll(b, key.keys);
    }
  }

  lemma {:induction false} ProtobufRoundTripAll(b: Backend, keys: seq<Key>)
    requires forall k | k in keys :: Valid(b, k)
    ensures FromProtobufAll(b, ToProtobufAll(b, keys)) == Ok(PubliciseAll(b, keys))
    decreases keys, 0
  {
    if keys != [] {
      ProtobufRoundTrip(b, keys[0]);
      ProtobufRoundTripAll(b, keys[1..]);
    }
  }

  /** A private key is written as its public key, except that an Ed25519 key of zeros is written as it is. */
  lemma PrivateKeyMessage(b: Backend, k: PrivateKey)
    ensures var zero := k.alg == Ed25519 && |k.secret| == 32 && forall i | 0 <= i < 32 :: k.secret[i] == 0;
            var public := b.publicOf(k);
            ToProtobuf(b, Private(k))
            == if zero then Ed25519Message(k.secret)
               else if public.alg == Ed25519 then Ed25519Message(public.point)
               else Secp256k1Message(public.point)
  {
    if |k.secret| == 32 && forall i | 0 <= i < 32 :: k.secret[i] == 0 {
      assert k.secret == ZERO_KEY.secret;
    }
  }

  /** A key and its published form are written alike. */
  lemma {:induction false} PublicisedMessage(b: Backend, key: Key)
    ensures ToProtobuf(b, Publicise(b, key)) == ToProtobuf(b, key)
    decreases key, 1
  {
    if key.KeyList? {
      PublicisedMessages(b, key.keys);
    }
  }

  lemma {:induction false} PublicisedMessages(b: Backend, keys: seq<Key>)
    ensures ToProtobufAll(b, PubliciseAll(b, keys)) == ToProtobufAll(b, keys)
    decreases keys, 0
  {
    if keys != [] {
      PublicisedMessage(b, keys[0]);
      PublicisedMessages(b, keys[1..]);
      assert PubliciseAll(b, keys)[1..] == PubliciseAll(b, keys[1..]);
    }
  }

  /** A key inside a list fits if the list does. */
  lemma {:induction false} MemberFits(b: Backend, threshold: uint32, keys: seq<Key>)
    requires WithinLimit(b, KeyList(threshold, keys))
    ensures forall k | k in keys :: WithinLimit(b, k)
  {
    MembersShallower(b, keys);
  }

  lemma {:induction false} MembersShallower(b: Backend, keys: seq<Key>)
    ensures forall k | k in keys :: Depth(ToProtobuf(b, k)) < DepthAll(ToProtobufAll(b, keys))
  {
    if keys != [] {
      MembersShallower(b, keys[1..]);
      assert forall k :: k in keys <==> k == keys[0] || k in keys[1..];
    }
  }

  // Messages and texts that are no keys.

  /** The messages in a message that are no lists, in the order in which they are read. */
  function Leaves(m: ProtoKey): seq<ProtoKey>
    decreases m, 1
  {
    if m.KeyListMessage? || m.ThresholdKeyMessage? then LeavesAll(m.keys) else [m]
  }

  function LeavesAll(messages: seq<ProtoKey>): seq<ProtoKey>
    decreases messages, 0
  {
    if messages == [] then [] else Leaves(messages[0]) + LeavesAll(messages[1..])
  }

  /** What is wrong with a message that is no list. */
  function LeafFault(b: Backend, m: ProtoKey): Option<DecodeFault> {
    if m.UnrecognizedMessage? then Some(UnrecognizedKeyCase)
    else if m.ContractMessage? && b.decodeContract(m.id).None? then Some(BadContractAddress)
    else if (m.Ed25519Message? && b.decodePublic(Ed25519, m.bytes).None?)
         || (m.Secp256k1Message? && b.decodePublic(Secp256k1, m.bytes).None?) then Some(BadPublicKeyBytes)
    else None
  }

  function FirstLeafFault(b: Backend, leaves: seq<ProtoKey>): Option<DecodeFault> {
    if leaves == [] then None
    else if LeafFault(b, leaves[0]).Some? then LeafFault(b, leaves[0])
    else FirstLeafFault(b, leaves[1..])
  }

  lemma {:induction false} FirstLeafFaultSplit(b: Backend, before: seq<ProtoKey>, after: seq<ProtoKey>)
    ensures FirstLeafFault(b, before + after)
         == if FirstLeafFault(b, before).Some? then FirstLeafFault(b, before) else FirstLeafFault(b, after)
  {
    if before == [] {
      assert before + after == after;
    } else {
      assert (before + after)[0] == before[0] && (before + after)[1..] == before[1..] + after;
      FirstLeafFaultSplit(b, before[1..], after);
    }
  }

  /** A message is a key exactly if all its leaves are; otherwise the first that is not is reported. */
  lemma {:induction false} MessageFaults(b: Backend, m: ProtoKey)
    ensures match FirstLeafFault(b, Leaves(m))
            case Some(fault) => FromProtobuf(b, m) == Err(fault)
            case None => FromProtobuf(b, m).Ok?
    decreases m, 1
  {
    if m.KeyListMessage? || m.ThresholdKeyMessage? {
      MessageFaultsAll(b, m.keys);
    }
  }

  lemma {:induction false} MessageFaultsAll(b: Backend, messages: seq<ProtoKey>)
    ensures match FirstLeafFault(b, LeavesAll(messages))
            case Some(fault) => FromProtobufAll(b, messages) == Err(fault)
            case None => FromProtobufAll(b, messages).Ok?
    decreases messages, 0
  {
    if messages != [] {
      MessageFaults(b, messages[0]);
      MessageFaultsAll(b, messages[1..]);
      FirstLeafFaultSplit(b, Leaves(messages[0]), LeavesAll(messages[1..]));
    }
  }

  /** A text that is neither DER form is read as a message; one that is not even digits is no key. */
  lemma TextFaults(b: Backend, text: string)
    requires PublicFromStringDer(b, text).None? && PrivateFromStringDer(b, text).None?
    ensures HexToBytes(text).Some? <==> IsHexText(text)
    ensures !IsHexText(text) ==> GetHederaKey(b, text) == Err(NotHex)
    ensures IsHexText(text) ==> GetHederaKey(b, text) == FromProtobuf(b, b.parse(HexToBytes(text).value))
  {
    HexExactly(text);
  }

  // The three encodings cannot be mistaken for one another.

  lemma PublicPrefixStart(alg: Algorithm, text: string)
    requires PublicPrefixHex(alg) <= text
    ensures |text| >= 4
    ensures text[..4] == if alg == Ed25519 then "302A" else "302D"
  {
  }

  lemma FirstDigits(bytes: seq<byte>)
    requires |bytes| >= 2
    ensures |BytesToHex(bytes)| >= 4
    ensures BytesToHex(bytes)[..4] == ByteToHex(bytes[0]) + ByteToHex(bytes[1])
  {
  }

  lemma NotPublicOf(bytes: seq<byte>, alg: Algorithm)
    requires bytes != []
    requires bytes[0] != DER_SEQUENCE || (|bytes| >= 2 && bytes[1] != 0x2A && bytes[1] != 0x2D)
    ensures !(PublicPrefixHex(alg) <= BytesToHex(bytes))
  {
    if PublicPrefixHex(alg) <= BytesToHex(bytes) {
      PublicPrefixStart(alg, BytesToHex(bytes));
      StartsLikePublic(bytes, alg);
      assert false;
    }
  }

  /** A text in hex is only taken for a public key when its bytes start like one. */
  lemma NotPublic(b: Backend, bytes: seq<byte>)
    requires bytes != []
    requires bytes[0] != DER_SEQUENCE || (|bytes| >= 2 && bytes[1] != 0x2A && bytes[1] != 0x2D)
    ensures PublicFromStringDer(b, BytesToHex(bytes)) == None
  {
    NotPublicOf(bytes, Ed25519);
    NotPublicOf(bytes, Secp256k1);
  }

  lemma StartsLikePublic(bytes: seq<byte>, alg: Algorithm)
    requires |BytesToHex(bytes)| >= 4
    requires BytesToHex(bytes)[..4] == if alg == Ed25519 then "302A" else "302D"
    ensures |bytes| >= 2 && bytes[0] == DER_SEQUENCE && bytes[1] == if alg == Ed25519 then 0x2A else 0x2D
  {
    HexLength(bytes);
    FirstDigits(bytes);
    var second: byte := if alg == Ed25519 then 0x2A else 0x2D;
    var start := BytesToHex(bytes)[..4];
    assert start[..2] == ByteToHex(bytes[0]) && start[2..] == ByteToHex(bytes[1]);
    assert start[..2] == ByteToHex(DER_SEQUENCE) && start[2..] == ByteToHex(second);
    ByteToHexInjective(bytes[0], DER_SEQUENCE);
    ByteToHexInjective(bytes[1], second);
  }

  lemma NotPrefixed0x(bytes: seq<byte>)
    ensures !("0x" <= BytesToHex(bytes))
  {
    if bytes != [] {
      assert BytesToHex(bytes)[1] == ByteToHex(bytes[0])[1] != 'x';
    }
  }

  lemma PublicPrefixesAgree(alg: Algorithm)
    ensures BytesToHex(PublicPrefix(alg)) == PublicPrefixHex(alg)
  {
    match alg
    case Ed25519 => Ed25519PrefixesAgree();
    case Secp256k1 => Secp256k1PrefixesAgree();
  }

  lemma Ed25519PrefixesAgree()
    ensures BytesToHex(PublicPrefix(Ed25519)) == PublicPrefixHex(Ed25519)
  {
    HexOfText(0x30, 0x2A, 0x30, 0x05, "302A3005");
    HexOfText(0x06, 0x03, 0x2B, 0x65, "06032B65");
    HexOfText(0x70, 0x03, 0x21, 0x00, "70032100");
    JoinHex([0x06, 0x03, 0x2B, 0x65], [0x70, 0x03, 0x21, 0x00], "06032B65", "70032100");
    JoinHex([0x30, 0x2A, 0x30, 0x05], [0x06, 0x03, 0x2B, 0x65] + [0x70, 0x03, 0x21, 0x00],
            "302A3005", "06032B65" + "70032100");
  }

  lemma Secp256k1PrefixesAgree()
    ensures BytesToHex(PublicPrefix(Secp256k1)) == PublicPrefixHex(Secp256k1)
  {
    HexOfText(0x30, 0x2D, 0x30, 0x07, "302D3007");
    HexOfText(0x06, 0x05, 0x2B, 0x81, "06052B81");
    HexOfText(0x04, 0x00, 0x0A, 0x03, "04000A03");
    HexOfTwo(0x22, 0x00);
    JoinHex([0x04, 0x00, 0x0A, 0x03], [0x22, 0x00], "04000A03", "2200");
    JoinHex([0x06, 0x05, 0x2B, 0x81], [0x04, 0x00, 0x0A, 0x03] + [0x22, 0x00], "06052B81", "04000A03" + "2200");
    JoinHex([0x30, 0x2D, 0x30, 0x07], [0x06, 0x05, 0x2B, 0x81] + ([0x04, 0x00, 0x0A, 0x03] + [0x22, 0x00]),
            "302D3007", "06052B81" + ("04000A03" + "2200"));
  }

  lemma HexOfText(b0: byte, b1: byte, b2: byte, b3: byte, text: string)
    requires |text| == 8
    requires text[0] == DigitChar(b0 / 16) && text[1] == DigitChar(b0 % 16)
    requires text[2] == DigitChar(b1 / 16) && text[3] == DigitChar(b1 % 16)
    requires text[4] == DigitChar(b2 / 16) && text[5] == DigitChar(b2 % 16)
    requires text[6] == DigitChar(b3 / 16) && text[7] == DigitChar(b3 % 16)
    ensures BytesToHex([b0, b1, b2, b3]) == text
  {
    HexOfFour(b0, b1, b2, b3);
    assert text == ByteToHex(b0) + ByteToHex(b1) + (ByteToHex(b2) + ByteToHex(b3));
  }

  lemma JoinHex(a: seq<byte>, b: seq<byte>, textA: string, textB: string)
    requires BytesToHex(a) == textA && BytesToHex(b) == textB
    ensures BytesToHex(a + b) == textA + textB
  {
    HexConcat(a, b);
  }

  lemma PublicDerRoundTrip(b: Backend, k: PublicKey)
    requires ValidPublic(b, k)
    ensures PublicFromStringDer(b, PublicToStringDer(k)) == Some(k)
    ensures GetHederaKey(b, PublicToStringDer(k)) == Ok(Public(k))
  {
    var text := PublicToStringDer(k);
    HexConcat(PublicPrefix(k.alg), k.point);
    PublicPrefixesAgree(k.alg);
    HexRoundTrip(PublicPrefix(k.alg) + k.point);
    if k.alg == Secp256k1 {
      assert text[3] == 'D' && PublicPrefixHex(Ed25519)[3] == 'A';
    }
  }

  lemma PrivateDerRoundTrip(b: Backend, k: PrivateKey)
    requires ValidPrivate(b, k)
    ensures PrivateFromStringDer(b, PrivateToStringDer(k)) == Some(k)
    ensures GetHederaKey(b, PrivateToStringDer(k)) == Ok(Private(k))
  {
    var bytes := PrivatePrefix(k.alg) + k.secret;
    HexRoundTrip(bytes);
    NotPrefixed0x(bytes);
    assert bytes[1] == PrivatePrefix(k.alg)[1];
    NotPublic(b, bytes);
    if k.alg == Secp256k1 {
      assert PrivatePrefix(Ed25519)[1] == 0x2E;
      assert !(PrivatePrefix(Ed25519) <= bytes);
    }
  }

  // Texts in the other case.

  function LowerDigit(c: char): char {
    if 'A' <= c <= 'F' then (c as int - 'A' as int + 'a' as int) as char else c
  }

  function Lower(text: string): (lower: string)
    ensures |lower| == |text|
    ensures forall i | 0 <= i < |text| :: lower[i] == LowerDigit(text[i])
  {
    seq(|text|, i requires 0 <= i < |text| => LowerDigit(text[i]))
  }

  lemma UpperOfLower(bytes: seq<byte>)
    ensures Upper(Lower(BytesToHex(bytes))) == BytesToHex(bytes)
  {
    HexDigits(bytes);
    var text := BytesToHex(bytes);
    forall i | 0 <= i < |text|
      ensures Upper(Lower(text))[i] == text[i]
    {
      assert IsUpperDigit(text[i]);
    }
  }

  /** A private key's text is read whatever the case of its digits, with and without a leading 0x. */
  lemma PrivateKeyInAnyCase(b: Backend, k: PrivateKey, text: string)
    requires ValidPrivate(b, k) && Upper(text) == PrivateToStringDer(k)
    ensures PrivateFromStringDer(b, text) == Some(k) && PrivateFromStringDer(b, "0x" + text) == Some(k)
    ensures GetHederaKey(b, text) == Ok(Private(k)) && GetHederaKey(b, "0x" + text) == Ok(Private(k))
  {
    SameInUpper(text, PrivatePrefix(k.alg) + k.secret);
    PrivateTextStart(k);
    assert UpperDigit(text[1]) == '0' && UpperDigit(text[3]) == PrivateToStringDer(k)[3];
    var prefixed := "0x" + text;
    assert prefixed[2..] == text && prefixed[1] == 'x';
    NoPublicPrefix(text);
    NoPublicPrefix(prefixed);
    PrivateBytesRead(b, k, text);
    PrivateBytesRead(b, k, prefixed);
  }

  lemma PrivateBytesRead(b: Backend, k: PrivateKey, text: string)
    requires ValidPrivate(b, k) && PublicFromStringDer(b, text).None?
    requires HexToBytes(if "0x" <= text then text[2..] else text) == Some(PrivatePrefix(k.alg) + k.secret)
    ensures PrivateFromStringDer(b, text) == Some(k) && GetHederaKey(b, text) == Ok(Private(k))
  {
    PrivatePrefixesDiffer(k);
  }

  lemma PrivatePrefixesDiffer(k: PrivateKey)
    ensures k.alg == Secp256k1 ==> !(PrivatePrefix(Ed25519) <= PrivatePrefix(k.alg) + k.secret)
    ensures PrivatePrefix(k.alg) <= PrivatePrefix(k.alg) + k.secret
  {
    assert PrivatePrefix(Ed25519)[1] == 0x2E && PrivatePrefix(Secp256k1)[1] == 0x30;
  }

  lemma PrivateTextStart(k: PrivateKey)
    ensures |PrivateToStringDer(k)| >= 4 && PrivateToStringDer(k)[1] == '0'
    ensures PrivateToStringDer(k)[3] == if k.alg == Ed25519 then 'E' else '0'
  {
    var bytes := PrivatePrefix(k.alg) + k.secret;
    assert bytes[0] == 0x30 && bytes[1] == if k.alg == Ed25519 then 0x2E else 0x30;
    HexLength(bytes);
    FirstDigits(bytes);
    assert PrivateToStringDer(k)[..4][3] == ByteToHex(bytes[1])[1];
    assert PrivateToStringDer(k)[..4][1] == ByteToHex(bytes[0])[1];
  }

  lemma NoPublicPrefix(text: string)
    requires |text| >= 4 && (text[1] == 'x' || (text[3] != 'A' && text[3] != 'D'))
    ensures forall alg: Algorithm :: !(PublicPrefixHex(alg) <= text)
  {
    assert forall alg: Algorithm :: PublicPrefixHex(alg)[1] == '0';
    assert PublicPrefixHex(Ed25519)[3] == 'A' && PublicPrefixHex(Secp256k1)[3] == 'D';
  }

  lemma PrivateKeyInLowerCase(b: Backend, k: PrivateKey)
    requires ValidPrivate(b, k)
    ensures PrivateFromStringDer(b, Lower(PrivateToStringDer(k))) == Some(k)
    ensures PrivateFromStringDer(b, "0x" + Lower(PrivateToStringDer(k))) == Some(k)
    ensures GetHederaKey(b, Lower(PrivateToStringDer(k))) == Ok(Private(k))
  {
    UpperOfLower(PrivatePrefix(k.alg) + k.secret);
    PrivateKeyInAnyCase(b, k, Lower(PrivateToStringDer(k)));
  }

  lemma PublicTextStart(k: PublicKey)
    ensures |PublicToStringDer(k)| >= 4
    ensures PublicToStringDer(k)[3] == if k.alg == Ed25519 then 'A' else 'D'
  {
    var bytes := PublicPrefix(k.alg) + k.point;
    assert bytes[0] == 0x30 && bytes[1] == if k.alg == Ed25519 then 0x2A else 0x2D;
    HexLength(bytes);
    FirstDigits(bytes);
    assert PublicToStringDer(k)[..4][3] == ByteToHex(bytes[1])[1];
  }

  lemma PrefixLetter(alg: Algorithm, text: string)
    requires PublicPrefixHex(alg) <= text
    ensures |text| >= 4 && text[3] == if alg == Ed25519 then 'A' else 'D'
  {
    PublicPrefixStart(alg, text);
    assert text[..4][3] == text[3];
  }

  /** No text starts with both prefixes. */
  lemma OnePrefix(text: string, alg: Algorithm)
    requires |text| >= 4 && UpperDigit(text[3]) == if alg == Ed25519 then 'A' else 'D'
    ensures forall other: Algorithm | other != alg :: !(PublicPrefixHex(other) <= text)
  {
    forall other: Algorithm | other != alg
      ensures !(PublicPrefixHex(other) <= text)
    {
      if PublicPrefixHex(other) <= text {
        PrefixLetter(other, text);
        assert false;
      }
    }
  }

  /** A public key's text is read as one exactly if its prefix is in upper case; the case of the rest does not matter. */
  lemma PublicKeyInAnyCase(b: Backend, k: PublicKey, text: string)
    requires ValidPublic(b, k) && Upper(text) == PublicToStringDer(k)
    ensures PublicFromStringDer(b, text) == if PublicPrefixHex(k.alg) <= text then Some(k) else None
  {
    SameInUpper(text, PublicPrefix(k.alg) + k.point);
    PublicTextStart(k);
    assert UpperDigit(text[3]) == Upper(text)[3];
    OnePrefix(text, k.alg);
    assert PublicFromHex(b, k.alg, text) == Some(k);
    match k.alg
    case Ed25519 => assert !(PublicPrefixHex(Secp256k1) <= text);
    case Secp256k1 => assert !(PublicPrefixHex(Ed25519) <= text);
  }

  /** A serialised list is read by the third alternative, and comes back published. */
  lemma ListHexRoundTrip(b: Backend, list: Key)
    requires Lawful(b) && list.KeyList? && Valid(b, list) && WithinLimit(b, list)
    ensures GetHederaKey(b, ListToHex(b, list)) == Ok(Publicise(b, list))
  {
    ListHexIsProtobuf(b, list);
    assert b.parse(b.serialize(ToProtobuf(b, list))) == ToProtobuf(b, list);
    ProtobufRoundTrip(b, list);
  }

  lemma ListHexIsProtobuf(b: Backend, list: Key)
    requires Lawful(b) && list.KeyList?
    ensures GetHederaKey(b, ListToHex(b, list)) == FromProtobuf(b, b.parse(b.serialize(ToProtobuf(b, list))))
  {
    var message := ToProtobuf(b, list);
    var bytes := b.serialize(message);
    assert bytes != [] && bytes[0] != DER_SEQUENCE;
    NotPublic(b, bytes);
    NotPrefixed0x(bytes);
    HexRoundTrip(bytes);
    assert forall alg: Algorithm :: PrivatePrefix(alg)[0] == DER_SEQUENCE;
  }

  /** Every key that getHederaKey returns is valid, so it can be serialised again. */
  lemma {:induction false} FromProtobufValid(b: Backend, message: ProtoKey)
    requires Lawful(b)
    ensures FromProtobuf(b, message).Ok? ==> Valid(b, FromProtobuf(b, message).value)
    decreases message, 1
  {
    match message
    case KeyListMessage(keys) => FromProtobufAllValid(b, keys);
    case ThresholdKeyMessage(_, keys) => FromProtobufAllValid(b, keys);
    case _ =>
  }

  lemma {:induction false} FromProtobufAllValid(b: Backend, messages: seq<ProtoKey>)
    requires Lawful(b)
    ensures FromProtobufAll(b, messages).Ok? ==> forall k | k in FromProtobufAll(b, messages).value :: Valid(b, k)
    decreases messages, 0
  {
    if messages != [] {
      FromProtobufValid(b, messages[0]);
      FromProtobufAllValid(b, messages[1..]);
    }
  }

  lemma GetHederaKeyValid(b: Backend, text: string)
    requires Lawful(b)
    ensures GetHederaKey(b, text).Ok? ==> Valid(b, GetHederaKey(b, text).value)
  {
    var bytes := HexToBytes(text);
    if bytes.Some? {
      FromProtobufValid(b, b.parse(bytes.value));
    }
  }
}
