/**
 A backend that obeys the laws of HederaKeys.Lawful, for any nesting limit, so that the results that assume them are not
 about nothing. Its messages are tagged fields with their lengths, and its keys are strings of the real keys' length.
 */
module LawfulBackend {
  import opened Wrappers
  import opened Json
  import opened Hex
  import opened HederaKeys

  // The messages.

  function Varint(n: nat): seq<byte> {
    if n < 128 then [n] else [n % 128 + 128] + Varint(n / 128)
  }

  function ReadVarint(bytes: seq<byte>): (r: Option<(nat, seq<byte>)>)
    ensures r.Some? ==> |r.value.1| < |bytes|
  {
    if bytes == [] then None
    else if bytes[0] < 128 then Some((bytes[0], bytes[1..]))
    else
      match ReadVarint(bytes[1..])
      case None => None
      case Some((high, rest)) => Some((bytes[0] - 128 + 128 * high, rest))
  }

  lemma {:induction false} VarintRoundTrip(n: nat, rest: seq<byte>)
    ensures ReadVarint(Varint(n) + rest) == Some((n, rest))
  {
    var bytes := Varint(n) + rest;
    if n < 128 {
      assert bytes[1..] == rest;
    } else {
      VarintRoundTrip(n / 128, rest);
      assert bytes[1..] == Varint(n / 128) + rest;
    }
  }

  /** A length-delimited field. */
  function Field(tag: byte, payload: seq<byte>): seq<byte> {
    [tag] + (Varint(|payload|) + payload)
  }

  function ReadField(bytes: seq<byte>): (r: Option<(byte, seq<byte>, seq<byte>)>)
    ensures r.Some? ==> |r.value.1| < |bytes| && |r.value.2| < |bytes|
  {
    if bytes == [] then None
    else
      match ReadVarint(bytes[1..])
      case None => None
      case Some((length, rest)) =>
        if length > |rest| then None else Some((bytes[0], rest[..length], rest[length..]))
  }

  lemma FieldRoundTrip(tag: byte, payload: seq<byte>, rest: seq<byte>)
    ensures ReadField(Field(tag, payload) + rest) == Some((tag, payload, rest))
  {
    var bytes := Field(tag, payload) + rest;
    assert bytes[1..] == Varint(|payload|) + (payload + rest);
    VarintRoundTrip(|payload|, payload + rest);
  }

  function Serialize(m: ProtoKey): seq<byte>
    decreases m, 1
  {
    match m
    case ContractMessage(id) => Field(0x0A, id)
    case Ed25519Message(bytes) => Field(0x12, bytes)
    case ThresholdKeyMessage(threshold, keys) =>
      Field(0x2A, Varint(threshold) + SerializeAll(keys))
    case KeyListMessage(keys) => Field(0x32, SerializeAll(keys))
    case Secp256k1Message(bytes) => Field(0x3A, bytes)
    case UnrecognizedMessage => []
  }

  function SerializeAll(keys: seq<ProtoKey>): seq<byte>
    decreases keys, 0
  {
    if keys == [] then [] else Field(0x0A, Serialize(keys[0])) + SerializeAll(keys[1..])
  }

  function Read(bytes: seq<byte>): ProtoKey
    decreases |bytes|, 1
  {
    match ReadField(bytes)
    case None => UnrecognizedMessage
    case Some((tag, payload, _)) =>
      if tag == 0x0A then ContractMessage(payload)
      else if tag == 0x12 then Ed25519Message(payload)
      else if tag == 0x2A then
        match ReadVarint(payload)
        case None => UnrecognizedMessage
        case Some((threshold, rest)) => ThresholdKeyMessage(ToUint32(threshold), ReadAll(rest))
      else if tag == 0x32 then KeyListMessage(ReadAll(payload))
      else if tag == 0x3A then Secp256k1Message(payload)
      else UnrecognizedMessage
  }

  function ReadAll(bytes: seq<byte>): seq<ProtoKey>
    decreases |bytes|, 0
  {
    match ReadField(bytes)
    case None => []
    case Some((_, payload, rest)) => [Read(payload)] + ReadAll(rest)
  }

  /** What lies too deep is not read at all. */
  function Parse(bytes: seq<byte>, limit: nat): ProtoKey {
    if Depth(Read(bytes)) <= limit then Read(bytes) else UnrecognizedMessage
  }

  lemma ReadWhole(tag: byte, payload: seq<byte>)
    ensures ReadField(Field(tag, payload)) == Some((tag, payload, []))
  {
    FieldRoundTrip(tag, payload, []);
    assert Field(tag, payload) + [] == Field(tag, payload);
  }

  lemma ReadLeaf(m: ProtoKey)
    requires !m.KeyListMessage? && !m.ThresholdKeyMessage?
    ensures Read(Serialize(m)) == m
  {
    match m
    case ContractMessage(id) => ReadWhole(0x0A, id);
    case Ed25519Message(bytes) => ReadWhole(0x12, bytes);
    case Secp256k1Message(bytes) => ReadWhole(0x3A, bytes);
    case UnrecognizedMessage =>
  }

  lemma ReadList(keys: seq<ProtoKey>)
    requires ReadAll(SerializeAll(keys)) == keys
    ensures Read(Serialize(KeyListMessage(keys))) == KeyListMessage(keys)
  {
    ReadWhole(0x32, SerializeAll(keys));
  }

  lemma ReadThresholdKey(threshold: uint32, keys: seq<ProtoKey>)
    requires ReadAll(SerializeAll(keys)) == keys
    ensures Read(Serialize(ThresholdKeyMessage(threshold, keys))) == ThresholdKeyMessage(threshold, keys)
  {
    ReadWhole(0x2A, Varint(threshold) + SerializeAll(keys));
    VarintRoundTrip(threshold, SerializeAll(keys));
  }

  lemma {:induction false} ReadBack(m: ProtoKey)
    ensures Read(Serialize(m)) == m
    decreases m, 1
  {
    if m.KeyListMessage? {
      ReadBackAll(m.keys);
      ReadList(m.keys);
    } else if m.ThresholdKeyMessage? {
      ReadBackAll(m.keys);
      ReadThresholdKey(m.threshold, m.keys);
    } else {
      ReadLeaf(m);
    }
  }

  lemma {:induction false} ReadBackAll(keys: seq<ProtoKey>)
    ensures ReadAll(SerializeAll(keys)) == keys
    decreases keys, 0
  {
    if keys == [] {
      assert ReadField(SerializeAll(keys)) == None;
    } else {
      FieldRoundTrip(0x0A, Serialize(keys[0]), SerializeAll(keys[1..]));
      ReadBack(keys[0]);
      ReadBackAll(keys[1..]);
    }
  }

  // The keys.

  function PointSize(alg: Algorithm): nat {
    if alg == Ed25519 then 32 else 33
  }

  function DecodePublic(alg: Algorithm, bytes: seq<byte>): Option<PublicKey> {
    var size, prefix := PointSize(alg), PublicPrefix(alg);
    if |bytes| == size then Some(PublicKey(alg, bytes))
    else if |bytes| == |prefix| + size && prefix <= bytes then Some(PublicKey(alg, bytes[|prefix|..]))
    else None
  }

  function DecodePrivate(alg: Algorithm, bytes: seq<byte>): Option<PrivateKey> {
    var prefix := PrivatePrefix(alg);
    if |bytes| == |prefix| + 32 && prefix <= bytes then Some(PrivateKey(alg, bytes[|prefix|..])) else None
  }

  function PublicOf(key: PrivateKey): PublicKey {
    PublicKey(key.alg, seq(PointSize(key.alg), i => if 0 <= i < |key.secret| then key.secret[i] else 2))
  }

  function Instance(limit: nat): Backend {
    Backend(
      (alg: Algorithm, n: nat) => PrivateKey(alg, seq(32, i => n % 256)),
      key => PublicOf(key),
      (alg, bytes) => DecodePublic(alg, bytes),
      (alg, bytes) => DecodePrivate(alg, bytes),
      id => Some(id),
      m => Serialize(m),
      bytes => Parse(bytes, limit),
      limit,
      n => [],
      (key: PublicKey) => seq(20, i => 0),
      (id: TransactionId) => "",
      text => None,
      text => Some(text))
  }

  lemma PublicKeysSurvive(k: PublicKey, limit: nat)
    requires |k.point| == PointSize(k.alg)
    ensures ValidPublic(Instance(limit), k)
  {
    assert (PublicPrefix(k.alg) + k.point)[|PublicPrefix(k.alg)|..] == k.point;
  }

  lemma PrivateKeysSurvive(k: PrivateKey, limit: nat)
    requires |k.secret| == 32
    ensures ValidPrivate(Instance(limit), k)
  {
    assert (PrivatePrefix(k.alg) + k.secret)[|PrivatePrefix(k.alg)|..] == k.secret;
    PublicKeysSurvive(PublicOf(k), limit);
    PublicKeysSurvive(Published(Instance(limit), k), limit);
  }

  lemma InstanceIsStrict(limit: nat)
    ensures Strict(Instance(limit))
  {
    var b := Instance(limit);
    forall m | Depth(m) > limit
      ensures FromProtobuf(b, b.parse(b.serialize(m))).Err?
    {
      ReadBack(m);
    }
  }

  lemma InstanceIsLawful(limit: nat)
    ensures Lawful(Instance(limit))
  {
    var b := Instance(limit);
    forall alg, n: nat
      ensures ValidPrivate(b, b.generate(alg, n)) && b.generate(alg, n).alg == alg
    {
      PrivateKeysSurvive(b.generate(alg, n), limit);
    }
    forall alg, bytes | b.decodePublic(alg, bytes).Some?
      ensures ValidPublic(b, b.decodePublic(alg, bytes).value) && b.decodePublic(alg, bytes).value.alg == alg
    {
      PublicKeysSurvive(b.decodePublic(alg, bytes).value, limit);
    }
    forall alg, bytes | b.decodePrivate(alg, bytes).Some?
      ensures ValidPrivate(b, b.decodePrivate(alg, bytes).value) && b.decodePrivate(alg, bytes).value.alg == alg
    {
      PrivateKeysSurvive(b.decodePrivate(alg, bytes).value, limit);
    }
    forall m | Depth(m) <= limit
      ensures b.parse(b.serialize(m)) == m
    {
      ReadBack(m);
    }
  }
}
