/**
 processKeyRequest of src/tck/src/KeyHelper.cc: an arbitrarily nested request becomes one encoded key, while the
 private keys generated on the way are logged in the response.

 This file holds the functions that specify it and the imperative method proved against them. What they mean is proved
 in KeyHelperProofs.
 */
module KeyHelper {
  import opened Wrappers
  import opened Json
  import opened JsonRpcException
  import opened Hex
  import opened HederaKeys
  import opened KeyRequest

  const FROM_KEY_MISPLACED_TEXT: string :=
    "invalid parameters: fromKey should only be provided for ed25519PublicKey, ecdsaSecp256k1PublicKey, or evmAddress types."
  const THRESHOLD_MISPLACED_TEXT: string := "invalid parameters: threshold should only be provided for thresholdKey types."
  const KEYS_MISPLACED_TEXT: string := "invalid parameters: keys should only be provided for keyList or thresholdKey types."
  const KEYS_MISSING_TEXT: string := "invalid request: keys list is required for generating a KeyList type."
  const THRESHOLD_MISSING_TEXT: string := "invalid request: threshold is required for generating a ThresholdKey type."
  const NOT_SECP256K1_TEXT: string := "invalid parameters: fromKey for evmAddress is not ECDSAsecp256k1."
  const BAD_PRIVATE_KEY_TEXT: string := "Key type cannot be determined from input DER-encoded byte array"

  /** The exceptions that can leave processKeyRequest. */
  datatype KeyFault =
    | FromKeyMisplaced
    | ThresholdMisplaced
    | KeysMisplaced
    | KeysMissing
    | ThresholdMissing
    | NotSecp256k1
    | BadPrivateKey
    | Undecodable(fault: DecodeFault)
  {
    function ToError(): Error {
      match this
      case FromKeyMisplaced => Plain(INVALID_PARAMS, FROM_KEY_MISPLACED_TEXT)
      case ThresholdMisplaced => Plain(INVALID_PARAMS, THRESHOLD_MISPLACED_TEXT)
      case KeysMisplaced => Plain(INVALID_PARAMS, KEYS_MISPLACED_TEXT)
      case KeysMissing => Plain(INVALID_REQUEST, KEYS_MISSING_TEXT)
      case ThresholdMissing => Plain(INVALID_REQUEST, THRESHOLD_MISSING_TEXT)
      case NotSecp256k1 => Plain(INVALID_PARAMS, NOT_SECP256K1_TEXT)
      case BadPrivateKey => Standard(BAD_PRIVATE_KEY_TEXT)
      case Undecodable(fault) => Standard(fault.What())
    }
  }

  predicate IsPrivateType(kind: KeyType) {
    kind.Ed25519PrivateKeyType? || kind.Secp256k1PrivateKeyType?
  }

  predicate IsPublicType(kind: KeyType) {
    kind.Ed25519PublicKeyType? || kind.Secp256k1PublicKeyType?
  }

  predicate IsListType(kind: KeyType) {
    kind.ListKeyType? || kind.ThresholdKeyType?
  }

  /**
   What one call does: its result, the private keys it appends to the log (whether or not it succeeds) and how many keys
   the run has generated afterwards.
   */
  datatype Step<+T> = Step(result: Result<T, KeyFault>, log: seq<string>, next: nat)

  /** A private-key request generates an ECDSA key for either type: the type is compared with a public-key type. */
  function PrivateAlgorithm(kind: KeyType): Algorithm {
    if kind.Ed25519PublicKeyType? then Ed25519 else Secp256k1
  }

  function PublicAlgorithm(kind: KeyType): Algorithm {
    if kind.Ed25519PublicKeyType? then Ed25519 else Secp256k1
  }

  /** The checks made before the switch. */
  function Misplaced(r: KeyRequest): Option<KeyFault> {
    if r.fromKey.Some? && !IsPublicType(r.kind) && !r.kind.EvmAddressKeyType? then Some(FromKeyMisplaced)
    else if r.threshold.Some? && !r.kind.ThresholdKeyType? then Some(ThresholdMisplaced)
    else if r.keys.Keys? && !IsListType(r.kind) then Some(KeysMisplaced)
    else None
  }

  function Logged(isList: bool, key: PrivateKey): seq<string> {
    if isList then [PrivateToStringDer(key)] else []
  }

  /** The checks of the list case, before any child is processed. */
  function ListFault(r: KeyRequest): Option<KeyFault> {
    if r.keys.NoKeys? then Some(KeysMissing)
    else if r.kind.ThresholdKeyType? && r.threshold.None? then Some(ThresholdMissing)
    else None
  }

  /** KeyList::setThreshold takes a uint32_t; a plain list keeps the default 0. */
  function ListThreshold(r: KeyRequest): uint32 {
    if r.kind.ThresholdKeyType? && r.threshold.Some? then ToUint32(r.threshold.value) else 0
  }

  /** The key from which an evmAddress request derives its address. */
  function AddressSource(b: Backend, text: string): Result<PublicKey, KeyFault> {
    var key :- Decode(b, text);
    match key
    case Private(k) => if k.alg == Secp256k1 then Ok(b.publicOf(k)) else Err(NotSecp256k1)
    case Public(k) => if k.alg == Secp256k1 then Ok(k) else Err(NotSecp256k1)
    case _ => Err(NotSecp256k1)
  }

  function Decode(b: Backend, text: string): Result<Key, KeyFault> {
    match GetHederaKey(b, text)
    case Ok(key) => Ok(key)
    case Err(fault) => Err(Undecodable(fault))
  }

  function ProcessLeaf(b: Backend, r: KeyRequest, n: nat, isList: bool): Step<string>
    requires !IsListType(r.kind)
  {
    if IsPrivateType(r.kind) then
      var key := b.generate(PrivateAlgorithm(r.kind), n);
      Step(Ok(PrivateToStringDer(key)), Logged(isList, key), n + 1)
    else if IsPublicType(r.kind) then
      if r.fromKey.Some? then
        match PrivateFromStringDer(b, r.fromKey.value)
        case Some(key) => Step(Ok(PublicToStringDer(b.publicOf(key))), [], n)
        case None => Step(Err(BadPrivateKey), [], n)
      else
        var key := b.generate(PublicAlgorithm(r.kind), n);
        Step(Ok(PublicToStringDer(b.publicOf(key))), Logged(isList, key), n + 1)
    else if r.fromKey.Some? then
      match AddressSource(b, r.fromKey.value)
      case Ok(key) => Step(Ok(BytesToHex(b.evmAddress(key))), [], n)
      case Err(e) => Step(Err(e), [], n)
    else
      Step(Ok(BytesToHex(b.evmAddress(b.publicOf(b.generate(Secp256k1, n))))), [], n + 1)
  }

  function Process(b: Backend, r: KeyRequest, n: nat, isList: bool): Step<string>
    decreases r, 1
  {
    if Misplaced(r).Some? then Step(Err(Misplaced(r).value), [], n)
    else if !IsListType(r.kind) then ProcessLeaf(b, r, n, isList)
    else if ListFault(r).Some? then Step(Err(ListFault(r).value), [], n)
    else
      var children := ProcessAll(b, r.keys.list, n);
      if children.result.Err? then Step(Err(children.result.error), children.log, children.next)
      else Step(Ok(ListToHex(b, KeyList(ListThreshold(r), children.result.value))), children.log, children.next)
  }

  /** The loop over the children: each one's text is decoded again before the next child is processed. */
  function ProcessAll(b: Backend, list: seq<KeyRequest>, n: nat): Step<seq<Key>>
    decreases list, 0
  {
    if list == [] then Step(Ok([]), [], n)
    else
      var first := ProcessChild(b, list[0], n);
      if first.result.Err? then Step(Err(first.result.error), first.log, first.next)
      else
        var rest := ProcessAll(b, list[1..], first.next);
        Step(if rest.result.Err? then rest.result else Ok([first.result.value] + rest.result.value),
             first.log + rest.log, rest.next)
  }

  /** The loop's body. */
  function ProcessChild(b: Backend, r: KeyRequest, n: nat): Step<Key>
    decreases r, 2
  {
    var step := Process(b, r, n, true);
    Step(if step.result.Err? then Err(step.result.error) else Decode(b, step.result.value), step.log, step.next)
  }

  /**
   generateKey of src/tck/src/SdkClient.cc, with the number of keys generated afterwards. The response has a list of
   private keys only if some were logged.
   */
  function GenerateKey(b: Backend, kind: string, fromKey: Option<string>, threshold: Option<int32>, keys: Children,
                       n: nat): (Result<Json, Error>, nat)
  {
    match StringToKeyType(kind)
    case Err(fault) => (Err(fault.ToError()), n)
    case Ok(t) =>
      var step := Process(b, KeyRequest(t, fromKey, threshold, keys), n, false);
      match step.result
      case Err(fault) => (Err(fault.ToError()), step.next)
      case Ok(text) => (Ok(ResponseJson(Some(text), step.log)), step.next)
  }

  function ResponseJson(key: Option<string>, privateKeys: seq<string>): Json {
    Obj((if key.Some? then map["key" := Str(key.value)] else map[])
        + (if privateKeys != [] then map["privateKeys" := Arr(Texts(privateKeys))] else map[]))
  }

  function Texts(texts: seq<string>): (items: seq<Json>)
    ensures |items| == |texts|
    ensures forall i | 0 <= i < |texts| :: items[i] == Str(texts[i])
  {
    seq(|texts|, i requires 0 <= i < |texts| => Str(texts[i]))
  }

  // The source's form.

  /** The position in the backend's stream of generated keys. */
  class KeySource {
    const backend: Backend
    var next: nat

    constructor (backend: Backend)
      ensures this.backend == backend && next == 0
    {
      this.backend := backend;
      next := 0;
    }

    method Generate(alg: Algorithm) returns (key: PrivateKey)
      modifies this
      ensures key == backend.generate(alg, old(next)) && next == old(next) + 1
    {
      key := backend.generate(alg, next);
      next := next + 1;
    }
  }

  /** The JSON object that generateKey fills in. */
  class KeyResponse {
    var key: Option<string>
    var privateKeys: seq<string>

    constructor ()
      ensures key == None && privateKeys == []
    {
      key := None;
      privateKeys := [];
    }

    method PushPrivateKey(text: string)
      modifies this`privateKeys
      ensures privateKeys == old(privateKeys) + [text]
    {
      privateKeys := privateKeys + [text];
    }
  }

  method ProcessKeyRequest(request: KeyRequest, source: KeySource, response: KeyResponse, isList: bool)
    returns (result: Result<string, KeyFault>)
    modifies source, response`privateKeys
    ensures var step := Process(source.backend, request, old(source.next), isList);
            && result == step.result
            && source.next == step.next
            && response.privateKeys == old(response.privateKeys) + step.log
    decreases request, 0
  {
    var b := source.backend;
    if request.fromKey.Some? && !request.kind.Ed25519PublicKeyType? && !request.kind.Secp256k1PublicKeyType? &&
       !request.kind.EvmAddressKeyType? {
      return Err(FromKeyMisplaced);
    }
    if request.threshold.Some? && !request.kind.ThresholdKeyType? {
      return Err(ThresholdMisplaced);
    }
    if request.keys.Keys? && !request.kind.ListKeyType? && !request.kind.ThresholdKeyType? {
      return Err(KeysMisplaced);
    }
    match request.kind
    case Ed25519PrivateKeyType | Secp256k1PrivateKeyType =>
      var key := source.Generate(PrivateAlgorithm(request.kind));
      if isList {
        response.PushPrivateKey(PrivateToStringDer(key));
      }
      return Ok(PrivateToStringDer(key));

    case Ed25519PublicKeyType | Secp256k1PublicKeyType =>
      if request.fromKey.Some? {
        var fromKey := PrivateFromStringDer(b, request.fromKey.value);
        if fromKey.None? {
          return Err(BadPrivateKey);
        }
        return Ok(PublicToStringDer(b.publicOf(fromKey.value)));
      }
      var key := source.Generate(PublicAlgorithm(request.kind));
      if isList {
        response.PushPrivateKey(PrivateToStringDer(key));
      }
      return Ok(PublicToStringDer(b.publicOf(key)));

    case ListKeyType | ThresholdKeyType =>
      if request.keys.NoKeys? {
        return Err(KeysMissing);
      }
      if request.kind.ThresholdKeyType? && request.threshold.None? {
        return Err(ThresholdMissing);
      }
      var keyList :- ProcessChildren(request.keys.list, source, response);
      return Ok(ListToHex(b, KeyList(ListThreshold(request), keyList)));

    case EvmAddressKeyType =>
      if request.fromKey.Some? {
        var key :- AddressSource(b, request.fromKey.value);
        return Ok(BytesToHex(b.evmAddress(key)));
      }
      var key := source.Generate(Secp256k1);
      return Ok(BytesToHex(b.evmAddress(b.publicOf(key))));
  }

  /** The loop of the list case. */
  method ProcessChildren(list: seq<KeyRequest>, source: KeySource, response: KeyResponse)
    returns (result: Result<seq<Key>, KeyFault>)
    modifies source, response`privateKeys
    ensures var step := ProcessAll(source.backend, list, old(source.next));
            && result == step.result
            && source.next == step.next
            && response.privateKeys == old(response.privateKeys) + step.log
    decreases list, 0
  {
    var b := source.backend;
    ghost var n, logBefore := source.next, response.privateKeys;
    ghost var done := ProcessAll(b, list[..0], n);
    var keyList: seq<Key> := [];
    for i := 0 to |list|
      invariant done == ProcessAll(b, list[..i], n) && done.result == Ok(keyList)
      invariant source.next == done.next && response.privateKeys == logBefore + done.log
    {
      ghost var child := ProcessChild(b, list[i], done.next);
      ProcessAllStep(b, list, i, n);
      assert logBefore + (done.log + child.log) == logBefore + done.log + child.log;
      var key := ProcessAndDecode(list[i], source, response);
      if key.Err? {
        return Err(key.error);
      }
      keyList := keyList + [key.value];
      done := ProcessAll(b, list[..i + 1], n);
    }
    assert list[..|list|] == list;
    result := Ok(keyList);
  }

  /** The loop's body, but for the push. */
  method ProcessAndDecode(request: KeyRequest, source: KeySource, response: KeyResponse)
    returns (result: Result<Key, KeyFault>)
    modifies source, response`privateKeys
    ensures var step := ProcessChild(source.backend, request, old(source.next));
            && result == step.result
            && source.next == step.next
            && response.privateKeys == old(response.privateKeys) + step.log
    decreases request, 1
  {
    var text := ProcessKeyRequest(request, source, response, true);
    if text.Err? {
      return Err(text.error);
    }
    result := Decode(source.backend, text.value);
  }

  lemma ProcessOne(b: Backend, r: KeyRequest, n: nat)
    ensures var first, all := ProcessChild(b, r, n), ProcessAll(b, [r], n);
            && all.log == first.log
            && all.next == first.next
            && all.result == if first.result.Err? then Err(first.result.error) else Ok([first.result.value])
  {
    var first := ProcessChild(b, r, n);
    assert ProcessAll(b, [r][1..], first.next) == Step(Ok([]), [], first.next);
    assert first.log + [] == first.log;
    assert first.result.Ok? ==> [first.result.value] + [] == [first.result.value];
  }

  /** One turn of the loop: it extends what the loop has done, or else it decides what the whole loop does. */
  lemma ProcessAllStep(b: Backend, list: seq<KeyRequest>, i: nat, n: nat)
    requires i < |list| && ProcessAll(b, list[..i], n).result.Ok?
    ensures var done := ProcessAll(b, list[..i], n);
            var child := ProcessChild(b, list[i], done.next);
            if child.result.Err? then
              ProcessAll(b, list, n) == Step(Err(child.result.error), done.log + child.log, child.next)
            else
              ProcessAll(b, list[..i + 1], n) ==
              Step(Ok(done.result.value + [child.result.value]), done.log + child.log, child.next)
  {
    assert list == list[..i] + list[i..] && list[..i + 1] == list[..i] + [list[i]];
    var next := ProcessAll(b, list[..i], n).next;
    ProcessOne(b, list[i], next);
    ProcessAllSplit(b, list[..i], list[i..], n);
    ProcessAllSplit(b, list[..i], [list[i]], n);
  }

  /** The loop can be cut anywhere: the second part runs from where the first one stopped, unless that failed. */
  lemma {:induction false} ProcessAllSplit(b: Backend, before: seq<KeyRequest>, after: seq<KeyRequest>, n: nat)
    ensures var first := ProcessAll(b, before, n);
            var second := ProcessAll(b, after, first.next);
            ProcessAll(b, before + after, n) ==
            if first.result.Err? then first
            else Step(if second.result.Err? then second.result else Ok(first.result.value + second.result.value),
                      first.log + second.log, second.next)
  {
    if before == [] {
      assert before + after == after;
      var second := ProcessAll(b, after, n);
      assert [] + second.log == second.log;
      assert second.result.Ok? ==> [] + second.result.value == second.result.value;
    } else {
      assert (before + after)[0] == before[0] && (before + after)[1..] == before[1..] + after;
      var head := ProcessChild(b, before[0], n);
      if head.result.Ok? {
        ProcessAllSplit(b, before[1..], after, head.next);
        var first := ProcessAll(b, before[1..], head.next);
        var second := ProcessAll(b, after, first.next);
        assert head.log + (first.log + second.log) == head.log + first.log + second.log;
        if first.result.Ok? && second.result.Ok? {
          var key := head.result.value;
          assert [key] + (first.result.value + second.result.value) == [key] + first.result.value + second.result.value;
        }
      }
    }
  }

  method GenerateKeyResponse(kind: string, fromKey: Option<string>, threshold: Option<int32>, keys: Children,
                             source: KeySource)
    returns (result: Result<Json, Error>)
    modifies source
    ensures (result, source.next) == GenerateKey(source.backend, kind, fromKey, threshold, keys, old(source.next))
  {
    var response := new KeyResponse();
    var t := StringToKeyType(kind);
    if t.Err? {
      return Err(t.error.ToError());
    }
    var request := KeyRequest(t.value, fromKey, threshold, keys);
    var key := ProcessKeyRequest(request, source, response, false);
    if key.Err? {
      return Err(key.error.ToError());
    }
    assert response.privateKeys == Process(source.backend, request, old(source.next), false).log;
    response.key := Some(key.value);
    result := Ok(ResponseJson(response.key, response.privateKeys));
  }
}
